/** The path sandbox shared by both command-line tools: `getSafePath`
    resolves a requested path against the base directory with Node's
    `path.resolve` and accepts the result only when it string-starts with
    the base directory.

    `path.resolve` is modelled as lexical POSIX path algebra: an absolute
    target replaces the base, `.` and empty segments vanish, `..` removes
    the last segment (and stays at the root), and the result is absolute
    with no trailing separator. */
module PathSandbox {
  import opened Common
  import opened Text

  /** The error `getSafePath` throws when the resolved path leaves the base. */
  const SandboxMessage := "보안 경고: 현재 작업 디렉터리를 벗어난 파일에는 접근할 수 없습니다."

  predicate IsAbsolute(p: string)
  {
    |p| > 0 && p[0] == '/'
  }

  /** A segment that survives normalisation. */
  predicate IsName(seg: string)
  {
    seg != "" && seg != "." && seg != ".." && '/' !in seg
  }

  predicate AllNames(names: seq<string>)
  {
    forall k :: 0 <= k < |names| ==> IsName(names[k])
  }

  /** Apply one segment to the directory names walked so far. */
  function Step(names: seq<string>, seg: string): seq<string>
  {
    if seg == "" || seg == "." then names
    else if seg == ".." then (if |names| == 0 then names else names[..|names| - 1])
    else names + [seg]
  }

  /** Apply the segments left to right. */
  function Walk(names: seq<string>, segs: seq<string>): (r: seq<string>)
    ensures AllNames(names) && NoneContains(segs, '/') ==> AllNames(r)
    decreases |segs|
  {
    if |segs| == 0 then names else Walk(Step(names, segs[0]), segs[1..])
  }

  /** The absolute path whose segments are `names`. */
  function Render(names: seq<string>): (p: string)
    ensures IsAbsolute(p)
  {
    "/" + Join(names, '/')
  }

  /** The directory names a path denotes once `.`, `..` and empty segments are applied. */
  function Segments(p: string): (names: seq<string>)
    ensures AllNames(names)
  {
    Walk([], Split(p, '/'))
  }

  function Normalize(p: string): string
  {
    Render(Segments(p))
  }

  /** A path that normalisation leaves alone. */
  predicate IsCanonical(p: string)
  {
    Normalize(p) == p
  }

  /** `path.resolve(base, target)`. Canonical; an absolute target ignores
      the base; a relative one walks its segments from the base's names. */
  function Resolve(base: string, target: string): (r: string)
    ensures IsCanonical(r)
    ensures IsAbsolute(target) ==> Segments(r) == Segments(target)
    ensures !IsAbsolute(target) ==> Segments(r) == Walk(Segments(base), Split(target, '/'))
  {
    var joined := if IsAbsolute(target) then target else base + "/" + target;
    SegmentsRender(Segments(joined));
    JoinedSegments(base, target);
    Normalize(joined)
  }

  lemma JoinedSegments(base: string, target: string)
    ensures Segments(base + "/" + target) == Walk(Segments(base), Split(target, '/'))
  {
    SplitConcat(base, target, '/');
    WalkAppend([], Split(base, '/'), Split(target, '/'));
  }

  /** `getSafePath(targetPath)` against the base in force at the call.
      It succeeds exactly when the resolved path string-starts with the base. */
  function GetSafePath(base: string, target: string): (r: Result<string, string>)
    ensures r.Ok? <==> StartsWith(Resolve(base, target), base)
    ensures r.Ok? ==> r.value == Resolve(base, target) && IsCanonical(r.value)
    ensures r.Err? ==> r.error == SandboxMessage
  {
    var resolved := Resolve(base, target);
    if StartsWith(resolved, base) then Ok(resolved) else Err(SandboxMessage)
  }

  /** Component-wise containment: the base's names are a prefix of the path's. */
  predicate ComponentWithin(base: string, p: string)
  {
    var b, q := Segments(base), Segments(p);
    |b| <= |q| && q[..|b|] == b
  }

  // ---------------------------------------------------------------
  // lemmas about normalisation
  // ---------------------------------------------------------------

  lemma {:induction false} WalkAppend(names: seq<string>, a: seq<string>, b: seq<string>)
    ensures Walk(names, a + b) == Walk(Walk(names, a), b)
    decreases |a|
  {
    if |a| == 0 {
      assert a + b == b;
    } else {
      assert (a + b)[1..] == a[1..] + b;
      WalkAppend(Step(names, a[0]), a[1..], b);
    }
  }

  /** Walking names only appends them. */
  lemma {:induction false} WalkOverNames(names: seq<string>, segs: seq<string>)
    requires AllNames(segs)
    ensures Walk(names, segs) == names + segs
    decreases |segs|
  {
    if |segs| > 0 {
      WalkOverNames(names + [segs[0]], segs[1..]);
      assert names + [segs[0]] + segs[1..] == names + segs;
    }
  }

  /** Without `..` a walk never climbs above where it started. */
  lemma {:induction false} WalkKeepsPrefix(names: seq<string>, segs: seq<string>)
    requires forall k :: 0 <= k < |segs| ==> segs[k] != ".."
    ensures |names| <= |Walk(names, segs)| && Walk(names, segs)[..|names|] == names
    decreases |segs|
  {
    if |segs| > 0 {
      var next := Step(names, segs[0]);
      WalkKeepsPrefix(next, segs[1..]);
      assert next[..|names|] == names;
    }
  }

  lemma RenderAsJoin(names: seq<string>)
    ensures Render(names) == Join([""] + (if |names| == 0 then [""] else names), '/')
  {
    if |names| == 0 {
      RenderRoot(names);
    } else {
      RenderNonEmpty(names);
    }
  }

  lemma RenderRoot(names: seq<string>)
    requires names == []
    ensures Render(names) == Join(["", ""], '/')
  {
    var parts: seq<string> := ["", ""];
    assert parts[1..] == [""];
    assert Join(parts, '/') == parts[0] + ['/'] + Join([""], '/');
  }

  lemma RenderNonEmpty(names: seq<string>)
    requires |names| > 0
    ensures Render(names) == Join([""] + names, '/')
  {
    var parts := [""] + names;
    assert parts[1..] == names;
    assert Join(parts, '/') == parts[0] + ['/'] + Join(names, '/');
  }

  /** Rendering then reading the segments back gives the names. */
  lemma SegmentsRender(names: seq<string>)
    requires AllNames(names)
    ensures Segments(Render(names)) == names
    ensures IsCanonical(Render(names))
  {
    var parts := [""] + (if |names| == 0 then [""] else names);
    RenderAsJoin(names);
    assert NoneContains(parts, '/') by {
      forall k | 0 <= k < |parts| ensures '/' !in parts[k] {
        if k > 0 && |names| > 0 { assert parts[k] == names[k - 1]; }
      }
    }
    SplitJoin(parts, '/');
    if |names| == 0 {
      assert Walk([], parts) == Walk([], [""]) == [];
    } else {
      assert parts[1..] == names;
      WalkOverNames([], names);
    }
  }

  /** Normalisation is idempotent. */
  lemma NormalizeIdempotent(p: string)
    ensures IsCanonical(Normalize(p))
    ensures Segments(Normalize(p)) == Segments(p)
  {
    SegmentsRender(Segments(p));
  }

  lemma {:induction false} JoinEndsWithLast(parts: seq<string>, sep: char)
    requires |parts| >= 1
    ensures EndsWith(Join(parts, sep), parts[|parts| - 1])
  {
    if |parts| > 1 {
      JoinEndsWithLast(parts[1..], sep);
    }
  }

  /** A canonical path is absolute, has no trailing separator unless it is
      the root, and every segment after the leading one is a plain name. */
  lemma CanonicalShape(p: string)
    requires IsCanonical(p)
    ensures IsAbsolute(p)
    ensures p == "/" || p[|p| - 1] != '/'
    ensures p != "/" ==> Split(p, '/') == [""] + Segments(p) && AllNames(Split(p, '/')[1..])
  {
    var names := Segments(p);
    assert p == Render(names);
    if |names| > 0 {
      RenderLastChar(names);
      RenderSplit(names);
    }
  }

  /** A rendering of names ends with the last name's last character. */
  lemma RenderLastChar(names: seq<string>)
    requires AllNames(names) && |names| > 0
    ensures var p := Render(names); var last := names[|names| - 1];
      |p| > 1 && p[|p| - 1] == last[|last| - 1] && p[|p| - 1] != '/'
  {
    JoinEndsWithLast(names, '/');
    var last := names[|names| - 1];
    assert IsName(last);
  }

  /** Splitting a rendering of names on `/` gives the leading empty part and the names. */
  lemma RenderSplit(names: seq<string>)
    requires AllNames(names) && |names| > 0
    ensures Split(Render(names), '/') == [""] + names
  {
    RenderAsJoin(names);
    var parts := [""] + names;
    assert NoneContains(parts, '/') by {
      forall k | 0 <= k < |parts| ensures '/' !in parts[k] {
        if k > 0 { assert parts[k] == names[k - 1]; }
      }
    }
    SplitJoin(parts, '/');
  }

  /** `..` at the root stays at the root. */
  lemma DotDotAtRoot(segs: seq<string>)
    ensures Walk([], [".."] + segs) == Walk([], segs)
  {
    assert ([".."] + segs)[1..] == segs;
  }

  // ---------------------------------------------------------------
  // lemmas about the sandbox check
  // ---------------------------------------------------------------

  lemma RenderPrefix(a: seq<string>, b: seq<string>)
    ensures StartsWith(Render(a + b), Render(a))
  {
    if |a| > 0 && |b| > 0 {
      JoinAppend(a, b, '/');
    } else if |b| == 0 {
      assert a + b == a;
    }
  }

  /** Every path component-wise inside the base (the base itself included) is accepted. */
  lemma WithinAccepted(base: string, target: string)
    requires IsCanonical(base)
    requires ComponentWithin(base, Resolve(base, target))
    ensures GetSafePath(base, target) == Ok(Resolve(base, target))
  {
    var r := Resolve(base, target);
    var b, q := Segments(base), Segments(r);
    assert q == b + q[|b|..];
    RenderPrefix(b, q[|b|..]);
  }

  /** A relative target with no `..` segment stays inside the base, so it is accepted. */
  lemma RelativeWithoutDotDotAccepted(base: string, target: string)
    requires IsCanonical(base) && !IsAbsolute(target)
    requires forall k :: 0 <= k < |Split(target, '/')| ==> Split(target, '/')[k] != ".."
    ensures ComponentWithin(base, Resolve(base, target))
    ensures GetSafePath(base, target) == Ok(Resolve(base, target))
  {
    WalkKeepsPrefix(Segments(base), Split(target, '/'));
    WithinAccepted(base, target);
  }

  lemma {:induction false} JoinExtendLast(parts: seq<string>, suffix: string, sep: char)
    requires |parts| >= 1
    ensures Join(parts, sep) + suffix == Join(parts[..|parts| - 1] + [parts[|parts| - 1] + suffix], sep)
  {
    if |parts| > 1 {
      var rest := parts[1..];
      var last := parts[|parts| - 1] + suffix;
      JoinExtendLast(rest, suffix, sep);
      var ext := parts[..|parts| - 1] + [last];
      var extRest := rest[..|rest| - 1] + [last];
      assert ext[0] == parts[0] && ext[1..] == extRest;
      calc {
        Join(parts, sep) + suffix;
        parts[0] + [sep] + Join(rest, sep) + suffix;
        parts[0] + [sep] + (Join(rest, sep) + suffix);
        parts[0] + [sep] + Join(extRest, sep);
        Join(ext, sep);
      }
    }
  }

  /** The string-prefix test lets a sibling through: from a non-root base,
      `base + suffix` (e.g. `/base-evil` from `/base`) is accepted although it
      is not component-wise inside the base. */
  lemma SiblingAccepted(base: string, suffix: string, sibling: string)
    requires IsCanonical(base) && base != "/"
    requires suffix != "" && '/' !in suffix && sibling == base + suffix
    ensures GetSafePath(base, sibling) == Ok(sibling)
    ensures !ComponentWithin(base, sibling)
  {
    var names := Segments(base);
    assert base == Render(names);
    assert |names| > 0;
    var init, last := names[..|names| - 1], names[|names| - 1];
    var ext := init + [last + suffix];
    assert IsName(last);
    assert IsName(last + suffix) by {
      assert (last + suffix)[0] == last[0] && |last + suffix| >= 2;
      assert |last| == 1 ==> last == [last[0]];
      assert '/' !in last + suffix by {
        forall k | 0 <= k < |last + suffix| ensures (last + suffix)[k] != '/' {
          if k < |last| { assert (last + suffix)[k] == last[k]; }
          else { assert (last + suffix)[k] == suffix[k - |last|]; }
        }
      }
    }
    assert AllNames(ext) by {
      forall k | 0 <= k < |ext| ensures IsName(ext[k]) {
        if k < |init| { assert ext[k] == names[k]; }
      }
    }
    JoinExtendLast(names, suffix, '/');
    assert base + suffix == Render(ext);
    SegmentsRender(ext);
    assert Resolve(base, base + suffix) == base + suffix;
    assert Segments(base + suffix) == ext;
    assert ext[|ext| - 1] != names[|names| - 1];
  }

  /** The root as base accepts every target. */
  lemma RootAcceptsAll(target: string)
    ensures GetSafePath("/", target).Ok?
  {
  }

  // ---------------------------------------------------------------
  // worked cases from the base `/home/u/proj`
  // ---------------------------------------------------------------

  lemma ProjIsCanonical(base: string)
    requires base == "/home/u/proj"
    ensures IsCanonical(base) && Segments(base) == ["home", "u", "proj"]
  {
    var names := ["home", "u", "proj"];
    assert Join(names, '/') == "home" + "/" + Join(["u", "proj"], '/');
    assert Join(["u", "proj"], '/') == "u" + "/" + Join(["proj"], '/');
    assert Render(names) == base;
    SegmentsRender(names);
  }

  lemma SplitEscape(target: string)
    requires target == "../../etc/passwd"
    ensures Split(target, '/') == ["..", "..", "etc", "passwd"]
  {
    var segs := ["..", "..", "etc", "passwd"];
    assert Join(segs, '/') == ".." + "/" + Join(segs[1..], '/');
    assert Join(segs[1..], '/') == ".." + "/" + Join(segs[2..], '/');
    assert Join(segs[2..], '/') == "etc" + "/" + Join(segs[3..], '/');
    assert Join(segs, '/') == target;
    SplitJoin(segs, '/');
  }

  lemma WalkEscape(names: seq<string>, segs: seq<string>)
    requires names == ["home", "u", "proj"] && segs == ["..", "..", "etc", "passwd"]
    ensures Walk(names, segs) == ["home", "etc", "passwd"]
  {
    assert Step(names, "..") == ["home", "u"];
    assert Walk(names, segs) == Walk(["home", "u"], segs[1..]);
    assert segs[1..] == ["..", "etc", "passwd"];
    assert Step(["home", "u"], "..") == ["home"];
    assert Walk(["home", "u"], segs[1..]) == Walk(["home"], segs[2..]);
    assert segs[2..] == ["etc", "passwd"] && segs[3..] == ["passwd"];
    assert Step(["home"], "etc") == ["home", "etc"];
    assert Walk(["home"], segs[2..]) == Walk(["home", "etc"], segs[3..]);
    assert Walk(["home", "etc"], segs[3..]) == Walk(["home", "etc", "passwd"], []);
  }

  lemma EscapeResolves(base: string, target: string)
    requires base == "/home/u/proj" && target == "../../etc/passwd"
    ensures Resolve(base, target) == Render(["home", "etc", "passwd"])
  {
    ProjIsCanonical(base);
    SplitEscape(target);
    WalkEscape(["home", "u", "proj"], ["..", "..", "etc", "passwd"]);
  }

  lemma RenderEscaped(names: seq<string>)
    requires names == ["home", "etc", "passwd"]
    ensures Render(names) == "/home/etc/passwd"
  {
    assert Join(names, '/') == "home" + "/" + Join(["etc", "passwd"], '/');
    assert Join(["etc", "passwd"], '/') == "etc" + "/" + Join(["passwd"], '/');
  }

  /** `../../etc/passwd` from `/home/u/proj` climbs two levels, to
      `/home/etc/passwd`, and is refused. */
  lemma EscapeRefused(base: string, target: string)
    requires base == "/home/u/proj" && target == "../../etc/passwd"
    ensures Resolve(base, target) == "/home/etc/passwd"
    ensures GetSafePath(base, target) == Err(SandboxMessage)
  {
    EscapeResolves(base, target);
    RenderEscaped(["home", "etc", "passwd"]);
    var r := Resolve(base, target);
    assert r[6] != base[6];
  }

  /** An absolute target ignores the base. */
  lemma AbsoluteIgnoresBase(base1: string, base2: string, target: string)
    requires IsAbsolute(target)
    ensures Resolve(base1, target) == Resolve(base2, target)
    ensures GetSafePath(base1, target).Ok? <==> StartsWith(Normalize(target), base1)
  {
  }

  /** `/home/u/proj-evil` is accepted from `/home/u/proj`. */
  lemma ProjSiblingAccepted(base: string, target: string)
    requires base == "/home/u/proj" && target == "/home/u/proj-evil"
    ensures GetSafePath(base, target) == Ok(target)
    ensures !ComponentWithin(base, target)
  {
    ProjIsCanonical(base);
    SiblingAccepted(base, "-evil", target);
  }
}

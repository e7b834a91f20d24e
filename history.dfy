/** index.js's command history: the in-memory list, bounded by push-then-shift,
    and the history file, to which every saved command is appended as one
    line and which is read back by splitting on line breaks and dropping
    blank lines. */
module History {
  import opened Common
  import opened Text

  const HistoryLimit := 100

  /** `line.trim() !== ''`, stated without the trim (see NonBlankIsTrim). */
  predicate NonBlank(line: string)
  {
    !AllSpace(line)
  }

  lemma NonBlankIsTrim(line: string)
    ensures NonBlank(line) <==> Trim(line) != ""
  {
  }

  /** `loadHistory`: the non-blank lines of the file, untrimmed and in order;
      nothing when the file cannot be read. */
  function LoadHistory(data: Option<string>): (h: seq<string>)
    ensures forall k :: 0 <= k < |h| ==> NonBlank(h[k]) && '\n' !in h[k]
    ensures data.None? ==> h == []
    ensures data.Some? ==> var lines := Split(data.value, '\n');
      (forall k :: 0 <= k < |h| ==> h[k] in lines)
      && (forall k :: 0 <= k < |lines| && NonBlank(lines[k]) ==> lines[k] in h)
  {
    match data
    case None => []
    case Some(text) => Filter(NonBlank, Split(text, '\n'))
  }

  /** `fs.appendFile(HISTORY_FILE, command + '\n')`. */
  function AppendLine(file: string, command: string): (r: string)
    ensures EndsWith(r, "\n") && StartsWith(r, file)
  {
    var r := file + command + "\n";
    assert r[..|file|] == file;
    r
  }

  /** `saveHistory`'s list update: push, then drop the oldest entry when the
      list has grown past the limit. */
  function PushBounded(h: seq<string>, command: string): (r: seq<string>)
    ensures |r| >= 1 && r[|r| - 1] == command
    ensures |h| < HistoryLimit ==> r == h + [command]
    ensures |h| >= HistoryLimit ==> r == h[1..] + [command]
  {
    var pushed := h + [command];
    if |pushed| > HistoryLimit then pushed[1..] else pushed
  }

  /** The in-memory bound is kept once it holds. */
  lemma PushKeepsBound(h: seq<string>, command: string)
    requires |h| <= HistoryLimit
    ensures |PushBounded(h, command)| <= HistoryLimit
  {
  }

  /** The bound is not restored: a list already over the limit (as a long
      history file yields, since loading does not cap it) stays that long. */
  lemma PushOverLimit(h: seq<string>, command: string)
    requires |h| > HistoryLimit
    ensures |PushBounded(h, command)| == |h|
  {
  }

  /** The updated list is a suffix of the old list followed by the command:
      order is kept and at most the single oldest entry is lost. */
  lemma PushIsSuffix(h: seq<string>, command: string)
    ensures var r := PushBounded(h, command); var pushed := h + [command];
      |r| <= |pushed| <= |r| + 1 && r == pushed[|pushed| - |r|..]
  {
  }

  /** A file that is empty or ends with a line break: the only shape appends produce. */
  predicate LineTerminated(file: string)
  {
    file == "" || EndsWith(file, "\n")
  }

  lemma FilterDropsBlank(xs: seq<string>)
    ensures Filter(NonBlank, xs + [""]) == Filter(NonBlank, xs)
  {
    FilterAppend(NonBlank, xs, [""]);
    assert [""][1..] == [];
  }

  lemma FilterKeepsLine(xs: seq<string>, c: string)
    requires NonBlank(c)
    ensures Filter(NonBlank, xs + [c]) == Filter(NonBlank, xs) + [c]
  {
    FilterAppend(NonBlank, xs, [c]);
    assert [c][1..] == [];
  }

  /** A final line break ends the text with an empty last line. */
  lemma SplitTerminated(text: string)
    requires EndsWith(text, "\n")
    ensures Split(text, '\n') == Split(text[..|text| - 1], '\n') + [""]
  {
    var g := text[..|text| - 1];
    assert text[|text| - 1..] == "\n";
    assert text == g + text[|text| - 1..];
    SplitSnocSep(g, '\n');
  }

  /** Appending a single non-blank line adds exactly that line to what is loaded. */
  lemma LoadAfterAppend(file: string, command: string)
    requires LineTerminated(file) && NonBlank(command) && '\n' !in command
    ensures LoadHistory(Some(AppendLine(file, command))) == LoadHistory(Some(file)) + [command]
  {
    var r := AppendLine(file, command);
    SplitTerminated(r);
    assert r[..|r| - 1] == file + command;
    SplitWithoutSep(command, '\n');
    if file == "" {
      assert file + command == command;
      FilterKeepsLine([], command);
      FilterDropsBlank([command]);
      FilterDropsBlank([]);
      assert Split("", '\n') == [""];
    } else {
      var g := file[..|file| - 1];
      SplitTerminated(file);
      assert file + command == g + ['\n'] + command;
      SplitConcat(g, command, '\n');
      FilterKeepsLine(Split(g, '\n'), command);
      FilterDropsBlank(Split(g, '\n') + [command]);
      FilterDropsBlank(Split(g, '\n'));
    }
  }

  predicate IsSuffix(r: seq<string>, s: seq<string>)
  {
    |r| <= |s| && r == s[|s| - |r|..]
  }

  lemma SuffixSnoc(h: seq<string>, s: seq<string>, x: string)
    requires IsSuffix(h, s)
    ensures IsSuffix(h + [x], s + [x])
  {
    assert (s + [x])[|s + [x]| - |h + [x]|..] == s[|s| - |h|..] + [x];
  }

  lemma SuffixTrans(r: seq<string>, h: seq<string>, s: seq<string>)
    requires IsSuffix(r, h) && IsSuffix(h, s)
    ensures IsSuffix(r, s)
  {
    assert s[|s| - |r|..] == s[|s| - |h|..][|h| - |r|..];
  }

  /** The in-memory list always holds the most recent entries of the file:
      if it is a suffix of what the file loads to, it still is after a save. */
  lemma SaveKeepsSuffix(h: seq<string>, file: string, command: string)
    requires LineTerminated(file) && NonBlank(command) && '\n' !in command
    requires IsSuffix(h, LoadHistory(Some(file)))
    ensures IsSuffix(PushBounded(h, command), LoadHistory(Some(AppendLine(file, command))))
  {
    LoadAfterAppend(file, command);
    PushIsSuffix(h, command);
    SuffixSnoc(h, LoadHistory(Some(file)), command);
    SuffixTrans(PushBounded(h, command), h + [command], LoadHistory(Some(file)) + [command]);
  }

  lemma LoadEmpty()
    ensures LoadHistory(Some("")) == []
  {
    assert Split("", '\n') == [""];
    FilterDropsBlank([]);
    assert [] + [""] == [""];
  }

  /** A saved entry that spans several lines (the combined prompt of an
      attachment does) comes back from the file as separate entries. */
  lemma MultiLineEntrySplits(x: string, y: string)
    requires NonBlank(x) && NonBlank(y) && '\n' !in x && '\n' !in y
    ensures LoadHistory(Some(AppendLine("", x + "\n" + y))) == [x, y]
  {
    var f1 := AppendLine("", x);
    LoadEmpty();
    LoadAfterAppend("", x);
    LoadAfterAppend(f1, y);
    assert f1 == x + "\n";
    assert AppendLine(f1, y) == AppendLine("", x + "\n" + y);
  }
}

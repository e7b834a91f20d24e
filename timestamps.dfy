/** The two `getTimestamp` helpers. cli-agent.js concatenates the local
    year with the zero-padded month, day, hours, minutes and seconds;
    index.js takes the ISO-8601 text of the current time and replaces every
    `:` and `.` by `-`. The clock itself is a parameter. */
module Timestamps {
  import opened Text

  /** The fields `Date` reports; `month` is `getMonth()`, counted from 0. */
  datatype LocalTime = LocalTime(year: int, month: nat, day: nat, hours: nat, minutes: nat, seconds: nat)

  /** The ranges the `Date` getters stay within. */
  predicate ValidClock(t: LocalTime)
  {
    t.month < 12 && 1 <= t.day <= 31 && t.hours < 24 && t.minutes < 60 && t.seconds < 60
  }

  /** `s.padStart(2, '0')`. */
  function PadStart2(s: string): (r: string)
    ensures |s| >= 2 ==> r == s
    ensures |s| < 2 ==> |r| == 2 && EndsWith(r, s) && forall k :: 0 <= k < 2 - |s| ==> r[k] == '0'
  {
    if |s| >= 2 then s else seq(2 - |s|, _ => '0') + s
  }

  /** `String(n).padStart(2, '0')`: two digits that read back as `n`, for `n < 100`. */
  function Two(n: nat): (r: string)
    ensures AllDigits(r) && |r| >= 2
    ensures n < 100 ==> |r| == 2 && ParseDigits(r) == n
  {
    var d := NatToString(n);
    ParseNatToString(n);
    var r := PadStart2(d);
    if |d| == 1 then
      assert r == ['0'] + d && r[..1] == ['0'];
      r
    else
      r
  }

  /** cli-agent.js's `YYYYMMDDHHMMSS`. */
  function CompactTimestamp(t: LocalTime): string
  {
    IntToString(t.year) + Two(t.month + 1) + Two(t.day) + Two(t.hours) + Two(t.minutes) + Two(t.seconds)
  }

  lemma FourDigits(n: int)
    requires 1000 <= n <= 9999
    ensures |IntToString(n)| == 4 && AllDigits(IntToString(n))
  {
    assert |NatToString(n / 10 / 10 / 10)| == 1;
    assert |NatToString(n / 10 / 10)| == 2;
    assert |NatToString(n / 10)| == 3;
  }

  /** For a valid clock and a four-digit year the stamp is 14 digits, and each
      field reads back from its fixed position. */
  lemma CompactShape(t: LocalTime)
    requires ValidClock(t) && 1000 <= t.year <= 9999
    ensures var s := CompactTimestamp(t);
      |s| == 14 && AllDigits(s)
      && ParseDigits(s[..4]) == t.year && ParseDigits(s[4..6]) == t.month + 1
      && ParseDigits(s[6..8]) == t.day && ParseDigits(s[8..10]) == t.hours
      && ParseDigits(s[10..12]) == t.minutes && ParseDigits(s[12..14]) == t.seconds
  {
    var y := IntToString(t.year);
    FourDigits(t.year);
    ParseNatToString(t.year);
    var mo, d, h, mi, se := Two(t.month + 1), Two(t.day), Two(t.hours), Two(t.minutes), Two(t.seconds);
    var s := CompactTimestamp(t);
    assert s == y + mo + d + h + mi + se;
    assert s[..4] == y && s[4..6] == mo && s[6..8] == d;
    assert s[8..10] == h && s[10..12] == mi && s[12..14] == se;
    assert AllDigits(s) by {
      forall k | 0 <= k < 14 ensures IsDigit(s[k]) {
        if k < 4 { assert s[k] == y[k]; }
        else if k < 6 { assert s[k] == mo[k - 4]; }
        else if k < 8 { assert s[k] == d[k - 6]; }
        else if k < 10 { assert s[k] == h[k - 8]; }
        else if k < 12 { assert s[k] == mi[k - 10]; }
        else { assert s[k] == se[k - 12]; }
      }
    }
  }

  /** Distinct valid clock readings with four-digit years give distinct stamps. */
  lemma CompactInjective(t1: LocalTime, t2: LocalTime)
    requires ValidClock(t1) && 1000 <= t1.year <= 9999
    requires ValidClock(t2) && 1000 <= t2.year <= 9999
    requires CompactTimestamp(t1) == CompactTimestamp(t2)
    ensures t1 == t2
  {
    CompactShape(t1);
    CompactShape(t2);
  }

  predicate DigitsOrDash(s: string)
  {
    forall k :: 0 <= k < |s| ==> IsDigit(s[k]) || s[k] == '-'
  }

  lemma DigitsOrDashConcat(a: string, b: string)
    requires DigitsOrDash(a) && DigitsOrDash(b)
    ensures DigitsOrDash(a + b)
  {
    forall k | 0 <= k < |a + b| ensures IsDigit((a + b)[k]) || (a + b)[k] == '-' {
      if k < |a| { assert (a + b)[k] == a[k]; } else { assert (a + b)[k] == b[k - |a|]; }
    }
  }

  /** Whatever the clock says, the stamp is digits and at most a minus sign,
      so the file name built from it is a single path component. */
  lemma CompactStampChars(t: LocalTime)
    ensures DigitsOrDash(CompactTimestamp(t)) && '/' !in CompactTimestamp(t)
  {
    var y := IntToString(t.year);
    assert DigitsOrDash(y) by {
      if t.year < 0 {
        var d := NatToString(-t.year);
        DigitsOrDashConcat("-", d);
      }
    }
    var mo, d, h, mi, se := Two(t.month + 1), Two(t.day), Two(t.hours), Two(t.minutes), Two(t.seconds);
    DigitsOrDashConcat(y, mo);
    DigitsOrDashConcat(y + mo, d);
    DigitsOrDashConcat(y + mo + d, h);
    DigitsOrDashConcat(y + mo + d + h, mi);
    DigitsOrDashConcat(y + mo + d + h + mi, se);
    var s := CompactTimestamp(t);
    assert s == y + mo + d + h + mi + se;
    forall k | 0 <= k < |s| ensures s[k] != '/' {
      assert IsDigit(s[k]) || s[k] == '-';
    }
  }

  // ---------------------------------------------------------------
  // index.js: toISOString().replace(/[:.]/g, '-')
  // ---------------------------------------------------------------

  function DashFor(c: char): char
  {
    if c == ':' || c == '.' then '-' else c
  }

  /** Every `:` and `.` becomes `-`; every other character stays where it is. */
  function IsoFileStamp(iso: string): (r: string)
    ensures |r| == |iso| && forall k :: 0 <= k < |iso| ==> r[k] == DashFor(iso[k])
  {
    seq(|iso|, k requires 0 <= k < |iso| => DashFor(iso[k]))
  }

  /** The stamp holds no `:` or `.`, and introduces no `/`. */
  lemma IsoFileStampClean(iso: string)
    ensures ':' !in IsoFileStamp(iso) && '.' !in IsoFileStamp(iso)
    ensures '/' in IsoFileStamp(iso) <==> '/' in iso
  {
    var r := IsoFileStamp(iso);
    if '/' in iso {
      var k :| 0 <= k < |iso| && iso[k] == '/';
      assert r[k] == '/';
    }
  }

  /** Replacing twice is replacing once. */
  lemma IsoFileStampIdempotent(iso: string)
    ensures IsoFileStamp(IsoFileStamp(iso)) == IsoFileStamp(iso)
  {
  }

  /** the characters of `toISOString()`'s `YYYY-MM-DDTHH:mm:ss.sssZ` */
  predicate IsoChar(c: char)
  {
    IsDigit(c) || c == '-' || c == ':' || c == '.' || c == 'T' || c == 'Z'
  }

  /** On ISO text the stamp uses only digits, `-`, `T` and `Z`. */
  lemma IsoFileStampAlphabet(iso: string)
    requires forall k :: 0 <= k < |iso| ==> IsoChar(iso[k])
    ensures var r := IsoFileStamp(iso);
      forall k :: 0 <= k < |r| ==> IsDigit(r[k]) || r[k] == '-' || r[k] == 'T' || r[k] == 'Z'
  {
  }
}

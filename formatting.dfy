/** Text produced by the app: decimal numbers, the recording timer's `m:ss`,
    the sleep-duration split, and download file names built from an
    ISO-8601 timestamp with every `:` and `.` replaced by `-`. */
module Formatting {
  import opened Wrappers

  predicate IsDigit(c: char)
  {
    '0' <= c <= '9'
  }

  predicate AllDigits(s: string)
  {
    forall i :: 0 <= i < |s| ==> IsDigit(s[i])
  }

  function DigitChar(d: nat): (c: char)
    requires d < 10
    ensures IsDigit(c)
  {
    ('0' as int + d) as char
  }

  function DigitValue(c: char): (d: nat)
    requires IsDigit(c)
    ensures d < 10
  {
    c as int - '0' as int
  }

  /** Decimal text of a non-negative integer, as `Number.prototype.toString`
      writes it: no sign, no leading zero. */
  function NatToString(n: nat): (s: string)
    ensures 1 <= |s| && AllDigits(s)
    ensures n < 10 <==> |s| == 1
    ensures |s| > 1 ==> s[0] != '0'
  {
    if n < 10 then [DigitChar(n)] else NatToString(n / 10) + [DigitChar(n % 10)]
  }

  /** Decimal text of an integer, with a leading `-` when it is negative. */
  function IntToString(i: int): (s: string)
    ensures i >= 0 ==> s == NatToString(i)
    ensures i < 0 ==> s == "-" + NatToString(-i)
  {
    if i >= 0 then NatToString(i) else "-" + NatToString(-i)
  }

  /** The value of a string of decimal digits. */
  function ParseNat(s: string): nat
    requires AllDigits(s)
  {
    if s == [] then 0 else ParseNat(s[..|s| - 1]) * 10 + DigitValue(s[|s| - 1])
  }

  /** Reading back the decimal text of `n` gives `n`. */
  lemma {:induction false} ParseNatToString(n: nat)
    ensures ParseNat(NatToString(n)) == n
  {
    var s := NatToString(n);
    if n >= 10 {
      assert s[..|s| - 1] == NatToString(n / 10);
      ParseNatToString(n / 10);
    }
  }

  /** `s.padStart(width, fill)`: `fill` repeated in front of `s` until it is
      `width` long; a string already that long is unchanged. */
  function PadStart(s: string, width: nat, fill: char): (r: string)
    ensures |r| == if |s| >= width then |s| else width
    ensures r[|r| - |s|..] == s
    ensures forall i :: 0 <= i < |r| - |s| ==> r[i] == fill
    decreases width - |s|
  {
    if |s| >= width then s else PadStart([fill] + s, width, fill)
  }

  /** Reads an `m:ss` text back as a number of seconds. */
  function ParseClock(s: string): Option<nat>
  {
    if |s| < 4 || s[|s| - 3] != ':' then None
    else if !AllDigits(s[..|s| - 3]) || !AllDigits(s[|s| - 2..]) then None
    else if ParseNat(s[|s| - 2..]) >= 60 then None
    else Some(ParseNat(s[..|s| - 3]) * 60 + ParseNat(s[|s| - 2..]))
  }

  /** The seconds field of the timer: two digits that read back as the
      number of seconds. */
  lemma PaddedSeconds(seconds: nat)
    requires seconds < 60
    ensures var ss := PadStart(NatToString(seconds), 2, '0');
      |ss| == 2 && AllDigits(ss) && ParseNat(ss) == seconds
  {
    var d := NatToString(seconds);
    var ss := PadStart(d, 2, '0');
    ParseNatToString(seconds);
    if seconds < 10 {
      assert ss == ['0'] + d;
      assert ss[..1] == ['0'];
      assert ParseNat(ss) == ParseNat(ss[..1]) * 10 + DigitValue(ss[1]);
      assert ParseNat(d) == ParseNat(d[..0]) * 10 + DigitValue(d[0]);
    } else {
      assert ss == d;
    }
  }

  /** A digit string, a colon and two digits below 60 read back as the
      first number times 60 plus the second. */
  lemma ParseClockOf(m: string, ss: string, minutes: nat, seconds: nat)
    requires 1 <= |m| && AllDigits(m) && ParseNat(m) == minutes
    requires |ss| == 2 && AllDigits(ss) && ParseNat(ss) == seconds < 60
    ensures ParseClock(m + [':'] + ss) == Some(minutes * 60 + seconds)
  {
    var t := m + [':'] + ss;
    assert t[..|t| - 3] == m;
    assert t[|t| - 2..] == ss;
  }

  /** `<minutes>:<seconds padded to two digits>`. */
  function ClockText(minutes: nat, seconds: nat): string
  {
    NatToString(minutes) + [':'] + PadStart(NatToString(seconds), 2, '0')
  }

  /** `minutes:ss` reads back as minutes times 60 plus seconds. */
  lemma ParseClockText(minutes: nat, seconds: nat)
    requires seconds < 60
    ensures ParseClock(ClockText(minutes, seconds)) == Some(minutes * 60 + seconds)
  {
    var m := NatToString(minutes);
    var ss := PadStart(NatToString(seconds), 2, '0');
    PaddedSeconds(seconds);
    ParseNatToString(minutes);
    ParseClockOf(m, ss, minutes, seconds);
  }

  /** A number of seconds, split into whole minutes and the seconds left
      over and written as `m:ss`, reads back as itself. */
  lemma DurationClock(duration: nat)
    ensures ParseClock(ClockText(duration / 60, duration % 60)) == Some(duration)
  {
    ParseClockText(duration / 60, duration % 60);
  }

  /** The recording timer's text (script.js:523-526): whole seconds elapsed,
      as minutes, a colon and the seconds padded to two digits. Minutes and
      seconds are split without loss: the text reads back as the whole
      seconds elapsed. */
  function FormatClock(elapsedMs: nat): (s: string)
    ensures ParseClock(s) == Some(elapsedMs / 1000)
  {
    DurationClock(elapsedMs / 1000);
    ClockText(elapsedMs / 1000 / 60, elapsedMs / 1000 % 60)
  }

  /** Hours and minutes of a sleep that has lasted `diffMs` milliseconds
      (script.js:766-767): whole hours, then whole minutes of the remainder;
      together they are the whole minutes slept. */
  function SleepSplit(diffMs: nat): (r: (nat, nat))
    ensures r.1 < 60
    ensures r.0 * 3600000 + r.1 * 60000 <= diffMs < r.0 * 3600000 + (r.1 + 1) * 60000
    ensures r.0 * 60 + r.1 == diffMs / 60000
  {
    var r := (diffMs / 3600000, (diffMs % 3600000) / 60000);
    DivBetween(diffMs, r.0 * 60 + r.1, 60000);
    r
  }

  /** A number between `q` and `q + 1` multiples of the divisor divides to `q`. */
  lemma DivBetween(x: nat, q: int, b: int)
    requires b > 0 && q * b <= x < (q + 1) * b
    ensures x / b == q
  {
    var d := x / b - q;
    assert d * b == (x / b) * b - q * b;
    assert d >= 1 ==> d * b >= b;
    assert d <= -1 ==> d * b <= -b;
  }

  /** The length of the run of digits that starts `s`. */
  function DigitPrefix(s: string): (n: nat)
    ensures n <= |s| && AllDigits(s[..n])
    ensures n < |s| ==> !IsDigit(s[n])
  {
    if s == [] || !IsDigit(s[0]) then 0
    else
      var n := 1 + DigitPrefix(s[1..]);
      assert s[..n] == [s[0]] + s[1..][..n - 1];
      n
  }

  /** A digit string followed by a non-digit has its own length as digit run. */
  lemma {:induction false} DigitPrefixOf(a: string, rest: string)
    requires AllDigits(a) && rest != [] && !IsDigit(rest[0])
    ensures DigitPrefix(a + rest) == |a|
  {
    if a != [] {
      assert (a + rest)[1..] == a[1..] + rest;
      DigitPrefixOf(a[1..], rest);
    }
  }

  /** Reads an `<h>h <m>m` label back as its hours and minutes. */
  function ParseSleep(t: string): Option<(nat, nat)>
  {
    var i := DigitPrefix(t);
    if i == 0 || |t| < i + 4 || t[i..i + 2] != "h " || t[|t| - 1] != 'm' then None
    else if !AllDigits(t[i + 2..|t| - 1]) then None
    else Some((ParseNat(t[..i]), ParseNat(t[i + 2..|t| - 1])))
  }

  /** The sleep-duration label, `<h>h <m>m` (script.js:771): it reads back as
      the hours and minutes slept. */
  function SleepText(diffMs: nat): (t: string)
    ensures ParseSleep(t) == Some(SleepSplit(diffMs))
  {
    var (h, m) := SleepSplit(diffMs);
    var hs := NatToString(h);
    var ms := NatToString(m);
    var t := hs + "h " + ms + "m";
    DigitPrefixOf(hs, "h " + ms + "m");
    assert t == hs + ("h " + ms + "m");
    assert t[..|hs|] == hs;
    assert t[|hs|..|hs| + 2] == "h ";
    assert t[|hs| + 2..|t| - 1] == ms;
    ParseNatToString(h);
    ParseNatToString(m);
    t
  }

  /** `toISOString().replace(/[:.]/g, '-')` (script.js:340, 559): every colon
      and every full stop becomes a hyphen, every other character stays. */
  function CleanTimestamp(s: string): (r: string)
    ensures |r| == |s|
    ensures forall i :: 0 <= i < |r| ==> r[i] != ':' && r[i] != '.'
    ensures forall i :: 0 <= i < |s| && s[i] != ':' && s[i] != '.' ==> r[i] == s[i]
    ensures forall i :: 0 <= i < |s| && (s[i] == ':' || s[i] == '.') ==> r[i] == '-'
  {
    if s == [] then []
    else [if s[0] == ':' || s[0] == '.' then '-' else s[0]] + CleanTimestamp(s[1..])
  }

  /** A prefix and a cleaned middle with no colon or full stop, followed by
      an extension whose only full stop is its first character, make a name
      with no colon whose one full stop starts the extension. */
  lemma NameShape(p: string, c: string, ext: string)
    requires forall i :: 0 <= i < |p| ==> p[i] != ':' && p[i] != '.'
    requires forall i :: 0 <= i < |c| ==> c[i] != ':' && c[i] != '.'
    requires |ext| >= 1 && ext[0] == '.'
    requires forall i :: 1 <= i < |ext| ==> ext[i] != ':' && ext[i] != '.'
    ensures var f := p + c + ext;
      forall i :: 0 <= i < |f| ==> f[i] != ':' && (f[i] == '.' <==> i == |f| - |ext|)
  {
    var f := p + c + ext;
    forall i | 0 <= i < |f| ensures f[i] != ':' && (f[i] == '.' <==> i == |f| - |ext|) {
      if i < |p| { assert f[i] == p[i]; }
      else if i < |p| + |c| { assert f[i] == c[i - |p|]; }
      else { assert f[i] == ext[i - |p| - |c|]; }
    }
  }

  /** `baby-monitor-screenshot-<timestamp>.png` (script.js:340-341): a name
      with no colon, whose one full stop starts the `.png` extension,
      whatever the timestamp held. */
  function ScreenshotFilename(iso: string): (f: string)
    ensures |f| == |iso| + 28 && f[|f| - 4..] == ".png"
    ensures f[..24] == "baby-monitor-screenshot-" && f[24..|f| - 4] == CleanTimestamp(iso)
    ensures forall i :: 0 <= i < |f| ==> f[i] != ':' && (f[i] == '.' <==> i == |f| - 4)
  {
    var f := "baby-monitor-screenshot-" + CleanTimestamp(iso) + ".png";
    NameShape("baby-monitor-screenshot-", CleanTimestamp(iso), ".png");
    f
  }

  /** `baby-monitor-recording-<timestamp>.webm` (script.js:559-560): a name
      with no colon, whose one full stop starts the `.webm` extension,
      whatever the timestamp held. */
  function RecordingFilename(iso: string): (f: string)
    ensures |f| == |iso| + 28 && f[|f| - 5..] == ".webm"
    ensures f[..23] == "baby-monitor-recording-" && f[23..|f| - 5] == CleanTimestamp(iso)
    ensures forall i :: 0 <= i < |f| ==> f[i] != ':' && (f[i] == '.' <==> i == |f| - 5)
  {
    var f := "baby-monitor-recording-" + CleanTimestamp(iso) + ".webm";
    NameShape("baby-monitor-recording-", CleanTimestamp(iso), ".webm");
    f
  }
}

/**
  The `HH:MM:SS.hh` timestamps ffmpeg prints, as read by the regular
  expressions of processor.py (the `Duration: ` header of the probe at
  processor.py:22-27 and the `time=` field of progress lines at
  processor.py:96-99), and the `HH:MM:SS` strings the core prints
  (`format_time`, processor.py:32-36).  Times are whole hundredths of a second.
*/
module Timestamps {
  import opened Wrappers
  import opened Text

  /** One `(\d{2}):(\d{2}):(\d{2})\.(\d{2})` match, each group as the number written. */
  datatype Stamp = Stamp(hours: nat, minutes: nat, seconds: nat, hundredths: nat)

  /** `h*3600 + m*60 + s + hh/100` seconds, in hundredths. */
  function Centis(t: Stamp): nat
  {
    t.hours * 360000 + t.minutes * 6000 + t.seconds * 100 + t.hundredths
  }

  const DurationTag: string := "Duration: "
  const TimeTag: string := "time="

  /** The eleven characters `DD:DD:DD.DD` (ASCII digits) start at position j of s. */
  predicate StampShapeAt(s: string, j: nat)
  {
    && j + 11 <= |s|
    && IsDigit(s[j]) && IsDigit(s[j + 1]) && s[j + 2] == ':'
    && IsDigit(s[j + 3]) && IsDigit(s[j + 4]) && s[j + 5] == ':'
    && IsDigit(s[j + 6]) && IsDigit(s[j + 7]) && s[j + 8] == '.'
    && IsDigit(s[j + 9]) && IsDigit(s[j + 10])
  }

  /** The pattern `tag` followed by a stamp matches at position i of s. */
  predicate MatchesAt(s: string, tag: string, i: nat)
  {
    i + |tag| <= |s| && s[i..i + |tag|] == tag && StampShapeAt(s, i + |tag|)
  }

  function PairValue(s: string, j: nat): (v: nat)
    requires j + 2 <= |s| && IsDigit(s[j]) && IsDigit(s[j + 1])
    ensures v < 100
  {
    DigitValue(s[j]) * 10 + DigitValue(s[j + 1])
  }

  /** The four groups of the stamp at position j (`map(int, match.groups())`). */
  function StampAt(s: string, j: nat): Stamp
    requires StampShapeAt(s, j)
  {
    Stamp(PairValue(s, j), PairValue(s, j + 3), PairValue(s, j + 6), PairValue(s, j + 9))
  }

  /** `re.search`: the leftmost position at or after `from` where `tag` and a stamp match. */
  function Search(s: string, tag: string, from: nat): (r: Option<nat>)
    ensures r.Some? ==> from <= r.value && MatchesAt(s, tag, r.value)
    ensures forall j :: from <= j && (r.None? || j < r.value) ==> !MatchesAt(s, tag, j)
    decreases |s| - from
  {
    if from + |tag| + 11 > |s| then None
    else if MatchesAt(s, tag, from) then Some(from)
    else Search(s, tag, from + 1)
  }

  /** The stamp of the first match of `tag` in s, if any. */
  function FirstStamp(s: string, tag: string): Option<Stamp>
  {
    match Search(s, tag, 0)
    case None => None
    case Some(i) => Some(StampAt(s, i + |tag|))
  }

  /** Hours, minutes and seconds as read back from an `H:M:S` string. */
  datatype Clock = Clock(hours: nat, minutes: nat, seconds: nat)

  function ClockSeconds(c: Clock): nat
  {
    c.hours * 3600 + c.minutes * 60 + c.seconds
  }

  /** Reads `digits:digits:digits` back, so that what the core prints can be checked. */
  function ParseClock(s: string): Option<Clock>
  {
    var f := Split(s, ':');
    if |f| == 3 && |f[0]| > 0 && |f[1]| > 0 && |f[2]| > 0 &&
       AllDigits(f[0]) && AllDigits(f[1]) && AllDigits(f[2])
    then Some(Clock(DigitsValue(f[0]), DigitsValue(f[1]), DigitsValue(f[2])))
    else None
  }

  /** `f"{h:02}:{m:02}:{s:02}"`. */
  function ShowClock(h: nat, m: nat, s: nat): (r: string)
    ensures '|' !in r
    ensures ParseClock(r) == Some(Clock(h, m, s))
    ensures Split(r, ':') == [Pad2(h), Pad2(m), Pad2(s)]
  {
    var fields := [Pad2(h), Pad2(m), Pad2(s)];
    var r := Pad2(h) + [':'] + Pad2(m) + [':'] + Pad2(s);
    assert fields[1..][1..] == [Pad2(s)];
    assert Join(fields[1..], ':') == Pad2(m) + [':'] + Pad2(s);
    assert r == Join(fields, ':');
    SplitJoin(fields, ':');
    r
  }

  /**
    `format_time(centis / 100)`: the elapsed time normalised to whole hours,
    minutes below 60 and seconds below 60, hundredths dropped, each field
    written with `:02` so that minutes and seconds take exactly two digits.
  */
  function FormatTime(centis: nat): (r: string)
    ensures '|' !in r
    ensures ParseClock(r).Some?
    ensures ParseClock(r).value.minutes < 60 && ParseClock(r).value.seconds < 60
    ensures ClockSeconds(ParseClock(r).value) == centis / 100
    ensures var c := ParseClock(r).value; Split(r, ':') == [Pad2(c.hours), Pad2(c.minutes), Pad2(c.seconds)]
  {
    var secs := centis / 100;
    var h, m, s := secs / 3600, (secs % 3600) / 60, secs % 60;
    ClockArithmetic(secs);
    ShowClock(h, m, s)
  }

  lemma ClockArithmetic(secs: nat)
    ensures (secs % 3600) / 60 < 60
    ensures (secs / 3600) * 3600 + ((secs % 3600) / 60) * 60 + secs % 60 == secs
  {
    var q, r := secs / 3600, secs % 3600;
    assert secs == q * 3600 + r;
    assert r == (r / 60) * 60 + r % 60;
    assert secs % 60 == r % 60 by {
      assert secs == (q * 60 + r / 60) * 60 + r % 60;
    }
  }

  /** What `get_video_duration` returns: the length in hundredths and its display string. */
  datatype Duration = Duration(centis: nat, display: string)

  /**
    The display string is an `H:M:S` clock without `|`, and it shows the whole
    seconds of the length.
  */
  predicate Consistent(d: Duration)
  {
    && '|' !in d.display
    && ParseClock(d.display).Some?
    && ClockSeconds(ParseClock(d.display).value) == d.centis / 100
  }

  /** The `(0.0, "00:00:00")` returned when the probe fails or nothing matches. */
  const Unknown: Duration := Duration(0, ShowClock(0, 0, 0))

  /** Where the first `Duration: HH:MM:SS.hh` match of the probe output starts, if any. */
  function DurationMatch(probe: Option<string>): Option<nat>
  {
    if probe.None? then None else Search(probe.value, DurationTag, 0)
  }

  /**
    The parsing half of `get_video_duration`, given what the probe wrote to its
    diagnostic stream (None when running the probe raised).
  */
  function ProbeDuration(probe: Option<string>): (d: Duration)
    ensures Consistent(d)
    ensures DurationMatch(probe).None? ==> d == Unknown
  {
    if DurationMatch(probe).None? then
      UnknownConsistent();
      Unknown
    else DurationAt(probe.value, DurationMatch(probe).value + |DurationTag|)
  }

  /**
    With a match, the display string is the matched `HH:MM:SS` text as written
    (not normalised, hundredths dropped) and the length is that of the stamp.
  */
  lemma ProbeDurationMatched(probe: Option<string>)
    requires DurationMatch(probe).Some?
    ensures var j := DurationMatch(probe).value + |DurationTag|;
      && StampShapeAt(probe.value, j)
      && ProbeDuration(probe).display == probe.value[j..j + 8]
      && ProbeDuration(probe).centis == Centis(StampAt(probe.value, j))
  {
  }

  /** The duration read from the stamp at position j. */
  function DurationAt(out: string, j: nat): (d: Duration)
    requires StampShapeAt(out, j)
    ensures Consistent(d)
    ensures d.display == out[j..j + 8]
    ensures d.centis == Centis(StampAt(out, j))
  {
    var t := StampAt(out, j);
    RawPair(out, j);
    RawPair(out, j + 3);
    RawPair(out, j + 6);
    Duration(Centis(t), ShowClock(t.hours, t.minutes, t.seconds))
  }

  lemma UnknownConsistent()
    ensures Consistent(Unknown) && Unknown.display == "00:00:00"
  {
  }

  /** Two digits read as a number and printed back with `:02` give the same two digits. */
  lemma RawPair(s: string, j: nat)
    requires j + 2 <= |s| && IsDigit(s[j]) && IsDigit(s[j + 1])
    ensures Pad2(PairValue(s, j)) == s[j..j + 2]
  {
    var n := PairValue(s, j);
    if n >= 10 {
      assert NatToDigits(n) == NatToDigits(n / 10) + [DigitChar(n % 10)];
    }
  }
}

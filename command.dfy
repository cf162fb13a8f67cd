/**
  Validation of the four numeric options (processor.py:42-50) and the ffmpeg
  argument vector with its filter graph (processor.py:70-72).  A parser for the
  vector reads it back, so that what was built can be stated as a round trip.
*/
module Command {
  import opened Wrappers
  import opened Text
  import FilterPath

  /** The `params` dict the worker receives: option and path names to the text entered. */
  type Params = map<string, string>

  /** The four numeric options once they have been read and checked. */
  datatype Options = Options(logoWidth: nat, marginTop: nat, marginRight: nat, bitrate: nat)

  /** The single message every validation failure collapses into. */
  const InvalidOptions: string := "Các giá trị tùy chọn " + "phải là số nguyên " + "hợp lệ."

  /** `int(params[key])`, None where that raises KeyError or ValueError. */
  function ReadOption(params: Params, key: string): Option<int>
  {
    if key in params then ParseInt(params[key]) else None
  }

  /**
    Reads logo_width, margin_top, margin_right and bitrate.  The widths and the
    bitrate must be positive and the margins non-negative; any missing,
    unreadable or out-of-range value gives the same error.
  */
  function ValidateOptions(params: Params): (r: Result<Options, string>)
    ensures r.Err? ==> r.error == InvalidOptions
    ensures r.Ok? <==>
      && ReadOption(params, "logo_width").Some? && ReadOption(params, "logo_width").value > 0
      && ReadOption(params, "margin_top").Some? && ReadOption(params, "margin_top").value >= 0
      && ReadOption(params, "margin_right").Some? && ReadOption(params, "margin_right").value >= 0
      && ReadOption(params, "bitrate").Some? && ReadOption(params, "bitrate").value > 0
    ensures r.Ok? ==>
      && r.value.logoWidth == ReadOption(params, "logo_width").value
      && r.value.marginTop == ReadOption(params, "margin_top").value
      && r.value.marginRight == ReadOption(params, "margin_right").value
      && r.value.bitrate == ReadOption(params, "bitrate").value
  {
    match (ReadOption(params, "logo_width"), ReadOption(params, "margin_top"),
           ReadOption(params, "margin_right"), ReadOption(params, "bitrate"))
    case (Some(w), Some(t), Some(m), Some(b)) =>
      if w > 0 && b > 0 && t >= 0 && m >= 0 then Ok(Options(w, t, m, b)) else Err(InvalidOptions)
    case _ => Err(InvalidOptions)
  }

  const ScaleHead: string := "[1:v]scale="
  const OverlayHead: string := ":" + "-1[logo];[0:v][logo]overlay=W-w-"
  const SubtitlesHead: string := "[" + "video_with_logo];[video_with_logo]subtitles='"

  /**
    The `filter_complex` string: scale the logo to `logoWidth` keeping its
    aspect ratio, overlay it `marginRight` from the right edge and `marginTop`
    from the top, then burn in the subtitles named by the escaped path.
  */
  function Filter(logoWidth: nat, marginRight: nat, marginTop: nat, escapedSubtitle: string): string
  {
    ScaleHead + (NatToDigits(logoWidth) + (OverlayHead + (NatToDigits(marginRight) + (":" +
    (NatToDigits(marginTop) + (SubtitlesHead + (escapedSubtitle + "'")))))))
  }

  const Overwrite: string := "-y"
  const Input: string := "-i"
  const FilterComplex: string := "-filter_complex"
  const VideoCodec: string := "-c:v"
  const VideoBitrate: string := "-b:v"
  const MaxRate: string := "-maxrate"
  const BufSize: string := "-bufsize"

  /** `f"{n}k"`, a rate argument. */
  function Kbps(n: nat): string
  {
    NatToDigits(n) + "k"
  }

  /** What the parts of a filter string say. */
  datatype FilterSpec = FilterSpec(logoWidth: nat, marginRight: nat, marginTop: nat, subtitle: string)

  /** What the parts of an argument vector say. */
  datatype Invocation = Invocation(
    exe: string, video: string, logo: string, filter: string, codec: string,
    bitrate: nat, maxrate: nat, bufsize: nat, output: string)

  /**
    The argument vector handed to `Popen`: 17 elements in a fixed order.  It
    reads back to the given paths, the codec, the filter built from the options
    and the escaped subtitle path, `-b:v` and `-maxrate` equal to the bitrate
    and `-bufsize` twice the bitrate; the subtitle path is recovered by
    unescaping.
  */
  function BuildCommand(exe: string, video: string, logo: string, subtitle: string, codec: string,
                        output: string, opts: Options, onWindows: bool): (cmd: seq<string>)
    ensures |cmd| == 17
    ensures ParseCommand(cmd).Some?
    ensures var inv := ParseCommand(cmd).value;
      && inv.exe == exe && inv.video == video && inv.logo == logo && inv.codec == codec && inv.output == output
      && inv.bitrate == opts.bitrate && inv.maxrate == opts.bitrate && inv.bufsize == 2 * opts.bitrate
      && ParseFilter(inv.filter) == Some(FilterSpec(opts.logoWidth, opts.marginRight, opts.marginTop,
                                                      FilterPath.Escape(subtitle, onWindows)))
      && FilterPath.Unescape(ParseFilter(inv.filter).value.subtitle, onWindows) == subtitle
  {
    var escaped := FilterPath.Escape(subtitle, onWindows);
    var filter := Filter(opts.logoWidth, opts.marginRight, opts.marginTop, escaped);
    FilterRoundTrip(opts.logoWidth, opts.marginRight, opts.marginTop, escaped);
    Vector(exe, video, logo, filter, codec, opts.bitrate, output)
  }

  function Vector(exe: string, video: string, logo: string, filter: string, codec: string,
                  bitrate: nat, output: string): (cmd: seq<string>)
    ensures |cmd| == 17
    ensures ParseCommand(cmd) == Some(Invocation(exe, video, logo, filter, codec, bitrate, bitrate, 2 * bitrate, output))
  {
    var cmd := [exe, Overwrite, Input, video, Input, logo, FilterComplex, filter,
     VideoCodec, codec, VideoBitrate, Kbps(bitrate), MaxRate, Kbps(bitrate),
     BufSize, Kbps(bitrate * 2), output];
    KbpsRoundTrip(bitrate);
    KbpsRoundTrip(bitrate * 2);
    assert ParseRate(cmd[11]) == Some(bitrate) && ParseRate(cmd[13]) == Some(bitrate);
    assert ParseRate(cmd[15]) == Some(2 * bitrate);
    cmd
  }

  function StripPrefix(s: string, prefix: string): Option<string>
  {
    if StartsWith(s, prefix) then Some(s[|prefix|..]) else None
  }

  /** The number of leading ASCII digits of s. */
  function LeadingDigits(s: string): (n: nat)
    ensures n <= |s| && AllDigits(s[..n])
    ensures n < |s| ==> !IsDigit(s[n])
    decreases |s|
  {
    if s != [] && IsDigit(s[0]) then
      var n := 1 + LeadingDigits(s[1..]);
      assert s[..n] == [s[0]] + s[1..][..n - 1];
      n
    else 0
  }

  /** A maximal non-empty run of digits at the start of s, read as a number, and what follows it. */
  function TakeNumber(s: string): Option<(nat, string)>
  {
    var n := LeadingDigits(s);
    if n == 0 then None else Some((DigitsValue(s[..n]), s[n..]))
  }

  /** Reads a filter string of the shape Filter builds. */
  function ParseFilter(f: string): Option<FilterSpec>
  {
    var rest :- StripPrefix(f, ScaleHead);
    ParseWidth(rest)
  }

  function ParseWidth(s: string): Option<FilterSpec>
  {
    var w :- TakeNumber(s);
    var rest :- StripPrefix(w.1, OverlayHead);
    ParseMargins(w.0, rest)
  }

  function ParseMargins(w: nat, s: string): Option<FilterSpec>
  {
    var right :- TakeNumber(s);
    var rest :- StripPrefix(right.1, ":");
    ParseTop(w, right.0, rest)
  }

  function ParseTop(w: nat, right: nat, s: string): Option<FilterSpec>
  {
    var top :- TakeNumber(s);
    var rest :- StripPrefix(top.1, SubtitlesHead);
    if |rest| >= 1 && rest[|rest| - 1] == '\'' then Some(FilterSpec(w, right, top.0, rest[..|rest| - 1]))
    else None
  }

  /** Reads a `<digits>k` rate argument. */
  function ParseRate(arg: string): Option<nat>
  {
    if |arg| >= 2 && arg[|arg| - 1] == 'k' && AllDigits(arg[..|arg| - 1])
    then Some(DigitsValue(arg[..|arg| - 1]))
    else None
  }

  /** Reads an argument vector of the shape BuildCommand builds. */
  function ParseCommand(cmd: seq<string>): Option<Invocation>
  {
    if |cmd| == 17 && cmd[1] == Overwrite && cmd[2] == Input && cmd[4] == Input && cmd[6] == FilterComplex
       && cmd[8] == VideoCodec && cmd[10] == VideoBitrate && cmd[12] == MaxRate && cmd[14] == BufSize
    then
      match (ParseRate(cmd[11]), ParseRate(cmd[13]), ParseRate(cmd[15]))
      case (Some(rate), Some(maxrate), Some(bufsize)) =>
        Some(Invocation(cmd[0], cmd[3], cmd[5], cmd[7], cmd[9], rate, maxrate, bufsize, cmd[16]))
      case _ => None
    else None
  }

  lemma KbpsRoundTrip(n: nat)
    ensures ParseRate(Kbps(n)) == Some(n)
  {
    var k := Kbps(n);
    assert k[..|k| - 1] == NatToDigits(n);
  }

  /** A numeral followed by something that is not a digit is read back whole. */
  lemma {:induction false} TakeNumberOf(n: nat, rest: string)
    requires rest == [] || !IsDigit(rest[0])
    ensures TakeNumber(NatToDigits(n) + rest) == Some((n, rest))
  {
    var d := NatToDigits(n);
    var s := d + rest;
    LeadingDigitsOf(d, rest);
    assert s[..|d|] == d && s[|d|..] == rest;
  }

  lemma {:induction false} LeadingDigitsOf(d: string, rest: string)
    requires AllDigits(d)
    requires rest == [] || !IsDigit(rest[0])
    ensures LeadingDigits(d + rest) == |d|
    decreases |d|
  {
    if d == [] {
      assert d + rest == rest;
    } else {
      assert (d + rest)[1..] == d[1..] + rest;
      LeadingDigitsOf(d[1..], rest);
    }
  }

  lemma StripPrefixOf(a: string, b: string)
    ensures StripPrefix(a + b, a) == Some(b)
  {
    assert (a + b)[..|a|] == a && (a + b)[|a|..] == b;
  }

  /** The filter string reads back to what it was built from. */
  lemma FilterRoundTrip(w: nat, right: nat, top: nat, e: string)
    ensures ParseFilter(Filter(w, right, top, e)) == Some(FilterSpec(w, right, top, e))
  {
    var tail := NatToDigits(w) + (OverlayHead + (NatToDigits(right) + (":" +
      (NatToDigits(top) + (SubtitlesHead + (e + "'"))))));
    StripPrefixOf(ScaleHead, tail);
    ParseWidthRoundTrip(w, right, top, e);
  }

  lemma ParseWidthRoundTrip(w: nat, right: nat, top: nat, e: string)
    ensures ParseWidth(NatToDigits(w) + (OverlayHead + (NatToDigits(right) + (":" +
      (NatToDigits(top) + (SubtitlesHead + (e + "'"))))))) == Some(FilterSpec(w, right, top, e))
  {
    var tail := NatToDigits(right) + (":" + (NatToDigits(top) + (SubtitlesHead + (e + "'"))));
    assert (OverlayHead + tail)[0] == ':';
    TakeNumberOf(w, OverlayHead + tail);
    StripPrefixOf(OverlayHead, tail);
    ParseMarginsRoundTrip(w, right, top, e);
  }

  lemma ParseMarginsRoundTrip(w: nat, right: nat, top: nat, e: string)
    ensures ParseMargins(w, NatToDigits(right) + (":" +
      (NatToDigits(top) + (SubtitlesHead + (e + "'"))))) == Some(FilterSpec(w, right, top, e))
  {
    var tail := NatToDigits(top) + (SubtitlesHead + (e + "'"));
    assert (":" + tail)[0] == ':';
    TakeNumberOf(right, ":" + tail);
    StripPrefixOf(":", tail);
    ParseTopRoundTrip(w, right, top, e);
  }

  lemma ParseTopRoundTrip(w: nat, right: nat, top: nat, e: string)
    ensures ParseTop(w, right, NatToDigits(top) + (SubtitlesHead + (e + "'"))) == Some(FilterSpec(w, right, top, e))
  {
    var tail := e + "'";
    assert (SubtitlesHead + tail)[0] == '[';
    TakeNumberOf(top, SubtitlesHead + tail);
    StripPrefixOf(SubtitlesHead, tail);
    assert tail[..|tail| - 1] == e;
  }
}

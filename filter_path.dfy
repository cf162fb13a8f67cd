/**
  Escaping the subtitle path before it is embedded, between single quotes,
  in the `subtitles=` stage of the filter graph (processor.py:8-12).  On
  Windows every backslash is doubled and then every colon gets a backslash in
  front of it; elsewhere the path is used as it is.
*/
module FilterPath {
  import opened Text

  /** What the two replacements do to one character of the original path. */
  function EscapeChar(c: char): string
  {
    if c == '\\' then "\\\\" else if c == ':' then "\\:" else [c]
  }

  /** The two replacements as one left-to-right pass over the path. */
  function EscapeEach(path: string): string
    decreases |path|
  {
    if path == [] then [] else EscapeChar(path[0]) + EscapeEach(path[1..])
  }

  /** The filter-graph path for `path`; `onWindows` stands for `sys.platform == "win32"`. */
  function Escape(path: string, onWindows: bool): (r: string)
    ensures !onWindows ==> r == path
    ensures onWindows ==> |r| == |path| + Count(path, '\\') + Count(path, ':')
    ensures Unescape(r, onWindows) == path
  {
    if onWindows then
      TwoPassesAreOnePass(path);
      EscapeEachLength(path);
      UnescapeEscapeEach(path);
      ReplaceChar(ReplaceChar(path, '\\', "\\\\"), ':', "\\:")
    else path
  }

  /**
    The inverse of Escape: on Windows a backslash takes the character after it
    literally; elsewhere nothing was escaped.
  */
  function Unescape(s: string, onWindows: bool): string
  {
    if onWindows then UnescapeWindows(s) else s
  }

  function UnescapeWindows(s: string): string
    decreases |s|
  {
    if s == [] then []
    else if |s| >= 2 && s[0] == '\\' then [s[1]] + UnescapeWindows(s[2..])
    else [s[0]] + UnescapeWindows(s[1..])
  }

  /** Replacing backslashes first and colons second never escapes a backslash that was added. */
  lemma {:induction false} TwoPassesAreOnePass(path: string)
    ensures ReplaceChar(ReplaceChar(path, '\\', "\\\\"), ':', "\\:") == EscapeEach(path)
    decreases |path|
  {
    if path != [] {
      var head := if path[0] == '\\' then "\\\\" else [path[0]];
      var tail := ReplaceChar(path[1..], '\\', "\\\\");
      assert ReplaceChar(path, '\\', "\\\\") == head + tail;
      ReplaceCharConcat(head, tail, ':', "\\:");
      assert ReplaceChar(head, ':', "\\:") == EscapeChar(path[0]);
      TwoPassesAreOnePass(path[1..]);
    }
  }

  lemma {:induction false} EscapeEachLength(path: string)
    ensures |EscapeEach(path)| == |path| + Count(path, '\\') + Count(path, ':')
    decreases |path|
  {
    if path != [] {
      EscapeEachLength(path[1..]);
    }
  }

  lemma {:induction false} UnescapeEscapeEach(path: string)
    ensures UnescapeWindows(EscapeEach(path)) == path
    decreases |path|
  {
    if path != [] {
      var e := EscapeEach(path);
      assert e == EscapeChar(path[0]) + EscapeEach(path[1..]);
      UnescapeEscapeEach(path[1..]);
      if path[0] == '\\' || path[0] == ':' {
        assert e[2..] == EscapeEach(path[1..]);
      } else {
        assert e[1..] == EscapeEach(path[1..]);
      }
      assert [path[0]] + path[1..] == path;
    }
  }
}

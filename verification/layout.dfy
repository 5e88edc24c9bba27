/** The overlay layout file: four fixed lines naming one full-screen overlay
    image with no input descriptors, and a reader that gets the image back. */
module Layout {
  import opened Values

  /** A `key = value` line of the layout format. */
  function Line(key: string, value: string): string
  {
    key + " = " + value
  }

  /** The four lines of the layout for image `png`: one overlay, shown full
      screen, with no input descriptors. */
  function LayoutLines(png: string): (lines: seq<string>)
    ensures |lines| == 4
  {
    [Line("overlays", "1"), Line("overlay0_overlay", png), Line("overlay0_full_screen", "true"), Line("overlay0_descs", "0")]
  }

  /** The text written to the overlay configuration file for image `png`. */
  function Text(png: string): string
  {
    Terminated(LayoutLines(png))
  }

  /** Each line followed by a line break, in order. */
  function Terminated(lines: seq<string>): (t: string)
    ensures |lines| > 0 ==> lines[0] + "\n" <= t
  {
    if |lines| == 0 then "" else lines[0] + "\n" + Terminated(lines[1..])
  }

  /** The position of the first line break in `t`, or |t| when there is none. */
  function LineEnd(t: string): (i: nat)
    ensures i <= |t|
    ensures forall j :: 0 <= j < i ==> t[j] != '\n'
    ensures i < |t| ==> t[i] == '\n'
  {
    if |t| == 0 || t[0] == '\n' then 0 else 1 + LineEnd(t[1..])
  }

  /** The lines of `t`, each without its terminating line break; a final
      line without a break counts too. */
  function Lines(t: string): seq<string>
    decreases |t|
  {
    if |t| == 0 then []
    else
      var i := LineEnd(t);
      if i == |t| then [t] else [t[..i]] + Lines(t[i + 1..])
  }

  /** The value of the first line `key = value`, if any. */
  function Setting(lines: seq<string>, key: string): (r: Option<string>)
    ensures r.Some? ==> exists i :: 0 <= i < |lines| && lines[i] == key + " = " + r.value
  {
    if |lines| == 0 then None
    else
      var prefix := key + " = ";
      if prefix <= lines[0] then
        assert lines[0] == prefix + lines[0][|prefix|..];
        Some(lines[0][|prefix|..])
      else Setting(lines[1..], key)
  }

  /** A line followed by a line break splits off as the first line. */
  lemma {:induction false} LinesCons(line: string, rest: string)
    requires '\n' !in line
    ensures Lines(line + "\n" + rest) == [line] + Lines(rest)
  {
    var t := line + "\n" + rest;
    var i := LineEnd(t);
    assert t[|line|] == '\n';
    assert forall j :: 0 <= j < |line| ==> t[j] == line[j];
    assert i == |line|;
    assert t[..i] == line;
    assert t[i + 1..] == rest;
  }

  /** Splitting terminated lines gives the lines back, as long as none of
      them holds a line break. */
  lemma {:induction false} LinesTerminated(lines: seq<string>)
    requires forall i :: 0 <= i < |lines| ==> '\n' !in lines[i]
    ensures Lines(Terminated(lines)) == lines
    decreases |lines|
  {
    if |lines| > 0 {
      LinesCons(lines[0], Terminated(lines[1..]));
      LinesTerminated(lines[1..]);
    }
  }

  /** Two strings that differ at a position inside both are not prefixes of one another. */
  lemma NotPrefix(a: string, b: string, i: nat)
    requires i < |a| && i < |b| && a[i] != b[i]
    ensures !(a <= b)
  {
  }

  /** A line for `key` first in the list is the one read back. */
  lemma SettingFirst(key: string, value: string, rest: seq<string>)
    ensures Setting([Line(key, value)] + rest, key) == Some(value)
  {
    var prefix := key + " = ";
    assert Line(key, value) == prefix + value;
    assert Line(key, value)[|prefix|..] == value;
  }

  /** The layout text has exactly its four lines, the second naming the image. */
  lemma {:induction false} TextLines(png: string)
    requires '\n' !in png
    ensures Lines(Text(png)) == LayoutLines(png)
  {
    LinesTerminated(LayoutLines(png));
  }

  /** Reading the layout text back gives the overlay image it was written for. */
  lemma {:induction false} TextRoundTrip(png: string)
    requires '\n' !in png
    ensures Setting(Lines(Text(png)), "overlay0_overlay") == Some(png)
  {
    TextLines(png);
    var lines := LayoutLines(png);
    NotPrefix("overlay0_overlay = ", lines[0], 7);
    assert Setting(lines, "overlay0_overlay") == Setting(lines[1..], "overlay0_overlay");
    SettingFirst("overlay0_overlay", png, lines[2..]);
    assert lines[1..] == [Line("overlay0_overlay", png)] + lines[2..];
  }

  /** The layout declares exactly one overlay. */
  lemma {:induction false} TextCount(png: string)
    requires '\n' !in png
    ensures Setting(Lines(Text(png)), "overlays") == Some("1")
  {
    TextLines(png);
    var lines := LayoutLines(png);
    SettingFirst("overlays", "1", lines[1..]);
    assert lines == [Line("overlays", "1")] + lines[1..];
  }
}

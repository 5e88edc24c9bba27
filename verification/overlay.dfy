/** The overlay (bezel) step: it disables overlays by default, searches six
    candidate (description, image) file pairs in a fixed order, and, when the
    first pair found fits the current display, enables the overlay with the
    viewport its description gives and writes the overlay layout file. */
module Overlay {
  import opened Values
  import opened Frontend
  import opened Tables
  import Layout

  /** A parsed ".info" description: the members of its JSON object, by name.
      A JSON integer is an `Int`, a string a `Str`, a decimal a `Num`. The
      step reads members lazily, so a description may lack any of them. */
  type Description = map<string, Value>

  /** Member `name` is present and an integer. */
  predicate IntMember(d: Description, name: string)
  {
    name in d && d[name].Int?
  }

  /** The integer value of a member known to be one. */
  function IntOf(d: Description, name: string): int
    requires IntMember(d, name)
  {
    d[name].n
  }

  /** Everything the shown overlay reads is present, and the six members whose
      differences give the viewport are integers. */
  predicate Complete(d: Description)
  {
    && "opacity" in d && "messagex" in d && "messagey" in d
    && IntMember(d, "width") && IntMember(d, "height")
    && IntMember(d, "left") && IntMember(d, "right") && IntMember(d, "top") && IntMember(d, "bottom")
  }

  /** A display mode as the display query reports it. */
  datatype Resolution = Resolution(width: int, height: int)

  /** What the overlay step observes of the machine: the files that exist,
      the parsed contents of the description files that parse, and the list
      of display modes the display query returns. */
  datatype Environment = Environment(
    files: set<string>,
    infos: map<string, Description>,
    displayModes: seq<Resolution>)

  /** The ways the overlay step can fail: a description that cannot be read
      or parsed, a display query that reports no mode, or a description
      lacking a member the step reads (or whose viewport members are not
      integers, so that their differences cannot be taken). */
  datatype OverlayError = InfoUnreadable(path: string) | NoCurrentResolution | BadDescription(path: string)

  /** The settings after the overlay step, and the layout text written to the
      overlay configuration file when an overlay was enabled. */
  datatype OverlayResult = OverlayResult(settings: Settings, layout: Option<string>)

  /** The current resolution is the first display mode reported. */
  function CurrentResolution(modes: seq<Resolution>): (r: Result<Resolution, OverlayError>)
    ensures r.Failure? <==> |modes| == 0
    ensures r.Failure? ==> r.error == NoCurrentResolution
    ensures r.Success? ==> r.value == modes[0]
  {
    if |modes| == 0 then Failure(NoCurrentResolution) else Success(modes[0])
  }

  /** The six candidate file stems, in search order: the rom (its whole path
      as given, extension included) under the user then the system bezel
      directory, then the system name likewise, then the bezel's default. */
  function CandidateStems(paths: Paths, bezel: string, systemName: string, rom: string): (c: seq<string>)
    ensures |c| == 6
  {
    [ paths.overlayUser + "/" + bezel + "/games/" + rom,
      paths.overlaySystem + "/" + bezel + "/games/" + rom,
      paths.overlayUser + "/" + bezel + "/system/" + systemName,
      paths.overlaySystem + "/" + bezel + "/system/" + systemName,
      paths.overlayUser + "/" + bezel + "/default",
      paths.overlaySystem + "/" + bezel + "/default" ]
  }

  /** Both the description and the image of a candidate exist. */
  predicate PairExists(files: set<string>, stem: string)
  {
    stem + ".info" in files && stem + ".png" in files
  }

  /** The position of the first candidate whose pair exists. */
  function FirstExisting(stems: seq<string>, files: set<string>): (r: Option<nat>)
    ensures r.Some? ==> r.value < |stems| && PairExists(files, stems[r.value])
    ensures r.Some? ==> forall j :: 0 <= j < r.value ==> !PairExists(files, stems[j])
    ensures r.None? ==> forall j :: 0 <= j < |stems| ==> !PairExists(files, stems[j])
  {
    if |stems| == 0 then None
    else if PairExists(files, stems[0]) then Some(0)
    else
      match FirstExisting(stems[1..], files)
      case None => None
      case Some(i) => Some(i + 1)
  }

  /** The stem of the bezel files that will be used, if a bezel is
      configured and one of its candidates exists. */
  function Selected(bezel: Option<string>, systemName: string, rom: string, paths: Paths, files: set<string>): (r: Option<string>)
    ensures bezel.None? ==> r.None?
    ensures bezel.Some? ==>
      var stems := CandidateStems(paths, bezel.value, systemName, rom);
      && (r.None? <==> forall j :: 0 <= j < 6 ==> !PairExists(files, stems[j]))
      && (r.Some? ==> exists i :: 0 <= i < 6 && r.value == stems[i] && PairExists(files, stems[i])
                        && forall j :: 0 <= j < i ==> !PairExists(files, stems[j]))
  {
    match bezel
    case None => None
    case Some(b) =>
      var stems := CandidateStems(paths, b, systemName, rom);
      match FirstExisting(stems, files)
      case None => None
      case Some(i) => Some(stems[i])
  }

  /** The display's dimension `n` and a description member differ: an
      integer differs when its value does, any other value always does. */
  predicate Differs(n: int, v: Value)
  {
    !(v.Int? && v.n == n)
  }

  /** The resolution gate: Some(true) when the description is accepted,
      Some(false) when it is rejected, None when a member it needs is missing.
      The width is read first and the height only when the width differs, so
      a description is rejected only when both dimensions differ. */
  function Admits(res: Resolution, d: Description): (r: Option<bool>)
    ensures r.None? <==> "width" !in d || (Differs(res.width, d["width"]) && "height" !in d)
    ensures r == Some(false) <==>
      "width" in d && "height" in d && Differs(res.width, d["width"]) && Differs(res.height, d["height"])
    ensures "width" in d && !Differs(res.width, d["width"]) ==> r == Some(true)
  {
    if "width" !in d then None
    else if !Differs(res.width, d["width"]) then Some(true)
    else if "height" !in d then None
    else Some(!Differs(res.height, d["height"]))
  }

  /** `s` differs from `acc` at most in the keys the step always writes:
      the overlay switch, its menu visibility and the message position. */
  predicate ChangesDefaultKeysOnly(acc: Settings, s: Settings)
  {
    s == acc.(inputOverlayHideInMenu := s.inputOverlayHideInMenu, inputOverlayEnable := s.inputOverlayEnable,
              videoMessagePosX := s.videoMessagePosX, videoMessagePosY := s.videoMessagePosY)
  }

  /** `s` differs from `acc` at most in the overlay keys and the aspect-ratio
      index. */
  predicate ChangesOverlayKeysOnly(acc: Settings, s: Settings)
  {
    s == acc.(inputOverlayHideInMenu := s.inputOverlayHideInMenu, inputOverlayEnable := s.inputOverlayEnable,
              videoMessagePosX := s.videoMessagePosX, videoMessagePosY := s.videoMessagePosY,
              inputOverlayScale := s.inputOverlayScale, inputOverlay := s.inputOverlay,
              inputOverlayOpacity := s.inputOverlayOpacity,
              customViewportX := s.customViewportX, customViewportY := s.customViewportY,
              customViewportWidth := s.customViewportWidth, customViewportHeight := s.customViewportHeight,
              aspectRatioIndex := s.aspectRatioIndex)
  }

  /** Overlays are off: not enabled, not hidden in menus, messages at the
      default position (0.05, 0.05). */
  predicate OverlayOff(s: Settings)
  {
    && s.inputOverlayEnable == Some(Str("false")) && s.inputOverlayHideInMenu == Some(Str("false"))
    && s.videoMessagePosX == Some(Num("0.05")) && s.videoMessagePosY == Some(Num("0.05"))
  }

  /** The overlay of description `info` is shown: the overlay file at scale
      1.0, hidden in menus, the description's opacity and message position,
      the viewport inside the description's margins, and the overlay-driven
      aspect ratio. */
  predicate ShowsOverlay(s: Settings, d: Description, configFile: string)
  {
    && Complete(d)
    && s.inputOverlayEnable == Some(Str("true")) && s.inputOverlayHideInMenu == Some(Str("true"))
    && s.inputOverlay == Some(Str(configFile)) && s.inputOverlayScale == Some(Str("1.0"))
    && s.inputOverlayOpacity == Some(d["opacity"])
    && s.aspectRatioIndex == Some(Int(OverlayAspectIndex))
    && s.customViewportX == Some(d["left"]) && s.customViewportY == Some(d["top"])
    && s.customViewportWidth.Some? && s.customViewportWidth.value.Int?
    && s.customViewportHeight.Some? && s.customViewportHeight.value.Int?
    && IntOf(d, "left") + s.customViewportWidth.value.n + IntOf(d, "right") == IntOf(d, "width")
    && IntOf(d, "top") + s.customViewportHeight.value.n + IntOf(d, "bottom") == IntOf(d, "height")
    && s.videoMessagePosX == Some(d["messagex"]) && s.videoMessagePosY == Some(d["messagey"])
  }

  /** The defaults written before any search. */
  function Defaults(acc: Settings): (r: Settings)
    ensures ChangesDefaultKeysOnly(acc, r)
    ensures OverlayOff(r)
  {
    acc.(inputOverlayHideInMenu := Some(Str("false")),
         inputOverlayEnable := Some(Str("false")),
         videoMessagePosX := Some(Num("0.05")),
         videoMessagePosY := Some(Num("0.05")))
  }

  /** The settings of an enabled overlay. */
  function Enable(acc: Settings, d: Description, configFile: string): (r: Settings)
    requires Complete(d)
    ensures ChangesOverlayKeysOnly(acc, r)
    ensures ShowsOverlay(r, d, configFile)
  {
    acc.(inputOverlayEnable := Some(Str("true")),
         inputOverlayScale := Some(Str("1.0")),
         inputOverlay := Some(Str(configFile)),
         inputOverlayHideInMenu := Some(Str("true")),
         inputOverlayOpacity := Some(d["opacity"]),
         customViewportX := Some(d["left"]),
         customViewportY := Some(d["top"]),
         customViewportWidth := Some(Int(IntOf(d, "width") - IntOf(d, "left") - IntOf(d, "right"))),
         customViewportHeight := Some(Int(IntOf(d, "height") - IntOf(d, "top") - IntOf(d, "bottom"))),
         aspectRatioIndex := Some(Int(OverlayAspectIndex)),
         videoMessagePosX := Some(d["messagex"]),
         videoMessagePosY := Some(d["messagey"]))
  }

  /** The overlay step applied to the settings built so far. It fails only
      once a candidate is found: when its description cannot be read, when
      the display reports no mode, or when the description lacks a member
      the step goes on to read. Otherwise the overlay is shown exactly when
      the resolution gate accepts the description, and then the layout file
      names the candidate's image; in every other case overlays are off and
      only the default keys change. */
  function WriteBezelConfig(bezel: Option<string>, acc: Settings, systemName: string, rom: string,
                            paths: Paths, env: Environment): (r: Result<OverlayResult, OverlayError>)
    ensures r.Failure? ==> Selected(bezel, systemName, rom, paths, env.files).Some?
    ensures var stem := Selected(bezel, systemName, rom, paths, env.files);
      stem.Some? ==>
        var path := stem.value + ".info";
        && (path !in env.infos ==> r == Failure(InfoUnreadable(path)))
        && (path in env.infos && |env.displayModes| == 0 ==> r == Failure(NoCurrentResolution))
        && (path in env.infos && |env.displayModes| > 0 ==>
              var gate := Admits(env.displayModes[0], env.infos[path]);
              && (r.Failure? <==> gate.None? || (gate == Some(true) && !Complete(env.infos[path])))
              && (r.Failure? ==> r.error == BadDescription(path))
              && (r.Success? ==> (r.value.layout.Some? <==> gate == Some(true))))
    ensures r.Success? && r.value.layout.None? ==>
      ChangesDefaultKeysOnly(acc, r.value.settings) && OverlayOff(r.value.settings)
    ensures r.Success? && r.value.layout.Some? ==>
      var stem := Selected(bezel, systemName, rom, paths, env.files);
      && stem.Some? && stem.value + ".info" in env.infos
      && ChangesOverlayKeysOnly(acc, r.value.settings)
      && ShowsOverlay(r.value.settings, env.infos[stem.value + ".info"], paths.overlayConfigFile)
      && r.value.layout == Some(Layout.Text(stem.value + ".png"))
  {
    var disabled := Defaults(acc);
    match Selected(bezel, systemName, rom, paths, env.files)
    case None => Success(OverlayResult(disabled, None))
    case Some(stem) =>
      var infoFile := stem + ".info";
      if infoFile !in env.infos then Failure(InfoUnreadable(infoFile))
      else
        var d := env.infos[infoFile];
        match CurrentResolution(env.displayModes)
        case Failure(e) => Failure(e)
        case Success(res) =>
          match Admits(res, d)
          case None => Failure(BadDescription(infoFile))
          case Some(false) => Success(OverlayResult(disabled, None))
          case Some(true) =>
            if !Complete(d) then Failure(BadDescription(infoFile))
            else
              Success(OverlayResult(Enable(disabled, d, paths.overlayConfigFile),
                                    Some(Layout.Text(stem + ".png"))))
  }

  /** Outside the overlay keys and the aspect-ratio index, the overlay step
      leaves every key as the mapper wrote it. */
  lemma OverlayStepFrame(acc: Settings, s: Settings)
    requires ChangesOverlayKeysOnly(acc, s)
    ensures forall k :: k !in OverlayKeys && k != AspectRatioIndex ==> Field(s, k) == Field(acc, k)
  {
  }

  /** A description is accepted when one dimension matches the display,
      even if the other does not: with a candidate found, a complete
      description and a display mode reported, matching the width alone
      shows the overlay. */
  lemma OneMatchingDimensionSuffices(bezel: Option<string>, acc: Settings, systemName: string, rom: string,
                                     paths: Paths, env: Environment)
    requires Selected(bezel, systemName, rom, paths, env.files).Some?
    requires var path := Selected(bezel, systemName, rom, paths, env.files).value + ".info";
      && path in env.infos && Complete(env.infos[path])
      && |env.displayModes| > 0 && env.infos[path]["width"] == Int(env.displayModes[0].width)
    ensures WriteBezelConfig(bezel, acc, systemName, rom, paths, env).Success?
    ensures WriteBezelConfig(bezel, acc, systemName, rom, paths, env).value.layout.Some?
  {
  }

  /** A description whose width and height both differ from the display's
      is rejected before any other member is read: the step succeeds with
      overlays off, however incomplete the rest of the description is. */
  lemma RejectionReadsOnlyDimensions(bezel: Option<string>, acc: Settings, systemName: string, rom: string,
                                     paths: Paths, env: Environment)
    requires Selected(bezel, systemName, rom, paths, env.files).Some?
    requires var path := Selected(bezel, systemName, rom, paths, env.files).value + ".info";
      && path in env.infos && |env.displayModes| > 0
      && "width" in env.infos[path] && Differs(env.displayModes[0].width, env.infos[path]["width"])
      && "height" in env.infos[path] && Differs(env.displayModes[0].height, env.infos[path]["height"])
    ensures var r := WriteBezelConfig(bezel, acc, systemName, rom, paths, env);
      r.Success? && r.value.layout.None? && OverlayOff(r.value.settings)
  {
  }

  /** A bezel made for the rom in the user directory is used whenever both
      of its files exist; the bezel's system-wide default only when none of
      the five more specific candidates exists. */
  lemma SearchOrder(b: string, systemName: string, rom: string, paths: Paths, files: set<string>)
    ensures var stems := CandidateStems(paths, b, systemName, rom);
      PairExists(files, stems[0]) ==> Selected(Some(b), systemName, rom, paths, files) == Some(stems[0])
    ensures var stems := CandidateStems(paths, b, systemName, rom);
      Selected(Some(b), systemName, rom, paths, files) == Some(stems[5]) && stems[5] !in stems[..5] ==>
        forall j :: 0 <= j < 5 ==> !PairExists(files, stems[j])
  {
  }
}

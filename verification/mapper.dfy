/** The core settings mapper: the rules that turn a system's settings into
    the frontend configuration, each an update of the settings built so far
    that changes only the keys it names, applied in the generator's order so
    that a later write wins. The overlay step that follows them lives in
    module Overlay. */
module Mapper {
  import opened Values
  import opened Options
  import opened Tables
  import opened Frontend

  /** The emulated system: its name (a key into the static tables) and its settings. */
  datatype SystemDescriptor = SystemDescriptor(name: string, config: Config)

  /** What the mapper produces: the frontend settings and the options saved
      to the separate per-core settings file. */
  datatype BaseConfig = BaseConfig(settings: Settings, coreSettings: map<string, string>)

  /** The selected core is read unconditionally, so it must be configured. */
  predicate HasCore(sys: SystemDescriptor)
  {
    "core" in sys.config
  }

  /** Netplay is requested with a recognised mode. */
  predicate NetplayActive(cfg: Config)
  {
    "netplaymode" in cfg && cfg["netplaymode"] in NetplayModes
  }

  /** Retro-achievements are requested on a system that supports them. */
  predicate CheevosActive(sys: SystemDescriptor)
  {
    Enabled("retroachievements", sys.config) && sys.name in SystemToRetroachievements
  }

  /** The system is one of the bluemsx core's and that core is selected. */
  predicate BluemsxSelected(sys: SystemDescriptor)
    requires HasCore(sys)
  {
    sys.name in SystemToBluemsx && sys.config["core"] == "bluemsx"
  }


  /** Smoothing and shaders: a configured shader turns smoothing off. */
  function VideoFilter(cfg: Config, acc: Settings): (r: Settings)
    ensures r == acc.(videoSmooth := r.videoSmooth, videoShader := r.videoShader,
                      videoShaderEnable := r.videoShaderEnable)
    ensures r.videoShaderEnable == Some(Flag(Defined("shaders", cfg)))
    ensures r.videoShader == if Defined("shaders", cfg) then Some(Str(cfg["shaders"])) else acc.videoShader
    ensures r.videoSmooth == Some(Flag(Enabled("smooth", cfg) && !Defined("shaders", cfg)))
  {
    var smoothed := acc.(videoSmooth := if Enabled("smooth", cfg) then Some(Str("true")) else Some(Str("false")));
    if Defined("shaders", cfg) then
      smoothed.(videoShader := Some(Str(cfg["shaders"])),
                videoShaderEnable := Some(Str("true")),
                videoSmooth := Some(Str("false")))
    else
      smoothed.(videoShaderEnable := Some(Str("false")))
  }

  /** Aspect ratio: the index is reset, then set to the ratio's position in
      the ratio table `ratios`; "custom" and table ratios turn automatic
      aspect off, any other defined ratio turns it on, and an undefined ratio
      leaves automatic aspect as it was. The generator passes RatioIndexes. */
  function AspectRatio(cfg: Config, ratios: seq<string>, acc: Settings): (r: Settings)
    ensures r == acc.(aspectRatioIndex := r.aspectRatioIndex, videoAspectRatioAuto := r.videoAspectRatioAuto)
    ensures r.aspectRatioIndex.Some?
    ensures r.aspectRatioIndex.value.Int? <==> Defined("ratio", cfg) && IndexOf(ratios, cfg["ratio"]).Some?
    ensures r.aspectRatioIndex.value.Int? ==>
      && 0 <= r.aspectRatioIndex.value.n < |ratios|
      && ratios[r.aspectRatioIndex.value.n] == cfg["ratio"]
      && forall j :: 0 <= j < r.aspectRatioIndex.value.n ==> ratios[j] != cfg["ratio"]
    ensures !r.aspectRatioIndex.value.Int? ==> r.aspectRatioIndex == Some(Str(""))
    ensures !Defined("ratio", cfg) ==> r.videoAspectRatioAuto == acc.videoAspectRatioAuto
    ensures Defined("ratio", cfg) ==>
      r.videoAspectRatioAuto == Some(Flag(IndexOf(ratios, cfg["ratio"]).None? && cfg["ratio"] != "custom"))
  {
    var reset := acc.(aspectRatioIndex := Some(Str("")));
    if !Defined("ratio", cfg) then reset
    else
      match IndexOf(ratios, cfg["ratio"])
      case Some(i) =>
        reset.(aspectRatioIndex := Some(Int(i)), videoAspectRatioAuto := Some(Str("false")))
      case None =>
        if cfg["ratio"] == "custom" then reset.(videoAspectRatioAuto := Some(Str("false")))
        else reset.(videoAspectRatioAuto := Some(Str("true")), aspectRatioIndex := Some(Str("")))
  }

  /** Rewind is on only when requested and the system supports it. */
  function Rewind(sys: SystemDescriptor, acc: Settings): (r: Settings)
    ensures r == acc.(rewindEnable := r.rewindEnable)
    ensures r.rewindEnable == Some(Flag(Enabled("rewind", sys.config) && sys.name !in SystemNoRewind))
  {
    var off := acc.(rewindEnable := Some(Str("false")));
    if Enabled("rewind", sys.config) then
      if sys.name !in SystemNoRewind then off.(rewindEnable := Some(Str("true"))) else off
    else
      off.(rewindEnable := Some(Str("false")))
  }

  /** Automatic save and automatic load of states go together. */
  function Autosave(cfg: Config, acc: Settings): (r: Settings)
    ensures r == acc.(savestateAutoSave := r.savestateAutoSave, savestateAutoLoad := r.savestateAutoLoad)
    ensures r.savestateAutoSave == r.savestateAutoLoad == Some(Flag(Enabled("autosave", cfg)))
  {
    if Enabled("autosave", cfg) then
      acc.(savestateAutoSave := Some(Str("true")), savestateAutoLoad := Some(Str("true")))
    else
      acc.(savestateAutoSave := Some(Str("false")), savestateAutoLoad := Some(Str("false")))
  }

  /** The joypad driver: the configured one, "udev" when none is defined;
      never empty. */
  function InputDriver(cfg: Config, acc: Settings): (r: Settings)
    ensures r == acc.(inputJoypadDriver := r.inputJoypadDriver)
    ensures r.inputJoypadDriver.Some? && r.inputJoypadDriver.value.Str?
    ensures Defined("inputdriver", cfg) ==> r.inputJoypadDriver.value.text == cfg["inputdriver"]
    ensures !Defined("inputdriver", cfg) ==> r.inputJoypadDriver.value.text == "udev"
    ensures r.inputJoypadDriver.value.text != ""
  {
    if Defined("inputdriver", cfg) then acc.(inputJoypadDriver := Some(Str(cfg["inputdriver"])))
    else acc.(inputJoypadDriver := Some(Str("udev")))
  }

  /** Save states and save files both go to the system's directory under
      the saves root. */
  function SaveDirectories(sys: SystemDescriptor, savesDir: string, acc: Settings): (r: Settings)
    ensures r == acc.(savestateDirectory := r.savestateDirectory, savefileDirectory := r.savefileDirectory)
    ensures r.savestateDirectory == r.savefileDirectory
    ensures r.savestateDirectory.Some? && r.savestateDirectory.value.Str?
    ensures var dir := r.savestateDirectory.value.text;
      |dir| == |savesDir| + |sys.name| && dir[..|savesDir|] == savesDir && dir[|savesDir|..] == sys.name
  {
    acc.(savestateDirectory := Some(Str(savesDir + sys.name)),
         savefileDirectory := Some(Str(savesDir + sys.name)))
  }

  /** The device code a core table gives `core`, or the default '1'. */
  function DeviceOr1(table: map<string, string>, core: string): string
  {
    if core in table then table[core] else "1"
  }

  /** Player device codes: '1' by default, each player overridden from its
      own core table, and player 2 forced to '257' for snes9x_next with more
      than two controllers. */
  function ControllerDevices(sys: SystemDescriptor, controllers: nat, acc: Settings): (r: Settings)
    requires HasCore(sys)
    ensures r == acc.(inputLibretroDeviceP1 := r.inputLibretroDeviceP1,
                      inputLibretroDeviceP2 := r.inputLibretroDeviceP2)
    ensures r.inputLibretroDeviceP1 == Some(Str(DeviceOr1(CoreToP1Device, sys.config["core"])))
    ensures r.inputLibretroDeviceP2 ==
      if controllers > 2 && sys.config["core"] == "snes9x_next" then Some(Str("257"))
      else Some(Str(DeviceOr1(CoreToP2Device, sys.config["core"])))
  {
    var core := sys.config["core"];
    var defaults := acc.(inputLibretroDeviceP1 := Some(Str("1")), inputLibretroDeviceP2 := Some(Str("1")));
    var p1 := if core in CoreToP1Device then defaults.(inputLibretroDeviceP1 := Some(Str(CoreToP1Device[core])))
              else defaults;
    var p2 := if core in CoreToP2Device then p1.(inputLibretroDeviceP2 := Some(Str(CoreToP2Device[core])))
              else p1;
    if controllers > 2 && core == "snes9x_next" then p2.(inputLibretroDeviceP2 := Some(Str("257")))
    else p2
  }

  /** Retro-achievements: off by default; on a supported system with the
      option enabled, the credentials (empty when unset) and the hardcore flag. */
  function Retroachievements(sys: SystemDescriptor, acc: Settings): (r: Settings)
    ensures r == acc.(cheevosEnable := r.cheevosEnable, cheevosHardcoreModeEnable := r.cheevosHardcoreModeEnable,
                      cheevosUsername := r.cheevosUsername, cheevosPassword := r.cheevosPassword)
    ensures r.cheevosEnable == Some(Flag(CheevosActive(sys)))
    ensures r.cheevosHardcoreModeEnable ==
      Some(Flag(CheevosActive(sys) && Enabled("retroachievements.hardcore", sys.config)))
    ensures CheevosActive(sys) ==>
      && r.cheevosUsername == Some(Str(Get(sys.config, "retroachievements.username", "")))
      && r.cheevosPassword == Some(Str(Get(sys.config, "retroachievements.password", "")))
    ensures !CheevosActive(sys) ==>
      r.cheevosUsername == acc.cheevosUsername && r.cheevosPassword == acc.cheevosPassword
  {
    var cfg := sys.config;
    var off := acc.(cheevosEnable := Some(Str("false")), cheevosHardcoreModeEnable := Some(Str("false")));
    if Enabled("retroachievements", cfg) then
      if sys.name in SystemToRetroachievements then
        off.(cheevosEnable := Some(Str("true")),
             cheevosUsername := Some(Str(Get(cfg, "retroachievements.username", ""))),
             cheevosPassword := Some(Str(Get(cfg, "retroachievements.password", ""))),
             cheevosHardcoreModeEnable :=
               if Enabled("retroachievements.hardcore", cfg) then Some(Str("true")) else Some(Str("false")))
      else off
    else
      off.(cheevosEnable := Some(Str("false")))
  }

  /** Integer scaling passes the boolean option through. */
  function IntegerScale(cfg: Config, acc: Settings): (r: Settings)
    ensures r == acc.(videoScaleInteger := r.videoScaleInteger)
    ensures r.videoScaleInteger == Some(Flag(Enabled("integerscale", cfg)))
  {
    if Enabled("integerscale", cfg) then acc.(videoScaleInteger := Some(Str("true")))
    else acc.(videoScaleInteger := Some(Str("false")))
  }

  /** Under the bluemsx core, the system decides both device codes; any
      other case changes nothing. */
  function BluemsxDevices(sys: SystemDescriptor, acc: Settings): (r: Settings)
    requires HasCore(sys)
    ensures !BluemsxSelected(sys) ==> r == acc
    ensures BluemsxSelected(sys) ==>
      && sys.name in SystemToP1Device && sys.name in SystemToP2Device
      && r == acc.(inputLibretroDeviceP1 := Some(Str(SystemToP1Device[sys.name])),
                   inputLibretroDeviceP2 := Some(Str(SystemToP2Device[sys.name])))
  {
    if sys.name in SystemToBluemsx && sys.config["core"] == "bluemsx" then
      BluemsxTablesAgree(sys.name);
      acc.(inputLibretroDeviceP1 := Some(Str(SystemToP1Device[sys.name])),
           inputLibretroDeviceP2 := Some(Str(SystemToP2Device[sys.name])))
    else acc
  }

  /** Under the bluemsx core, the machine type saved to the core's own
      settings file; nothing otherwise. */
  function BluemsxCoreSettings(sys: SystemDescriptor): (r: map<string, string>)
    requires HasCore(sys)
    ensures BluemsxSelected(sys) <==> "bluemsx_msxtype" in r
    ensures r.Keys <= {"bluemsx_msxtype"}
    ensures BluemsxSelected(sys) ==> r["bluemsx_msxtype"] == SystemToBluemsx[sys.name]
  {
    if sys.name in SystemToBluemsx && sys.config["core"] == "bluemsx" then
      map["bluemsx_msxtype" := SystemToBluemsx[sys.name]]
    else map[]
  }

  /** Netplay with a recognised mode: hardcore off, port, frames and nick
      copied (empty when unset), and mode flag, peer address and input swap
      only for a client. Any other mode changes nothing. */
  function Netplay(cfg: Config, acc: Settings): (r: Settings)
    ensures !NetplayActive(cfg) ==> r == acc
    ensures r == acc.(cheevosHardcoreModeEnable := r.cheevosHardcoreModeEnable,
                      netplayMode := r.netplayMode, netplayIpPort := r.netplayIpPort,
                      netplayDelayFrames := r.netplayDelayFrames, netplayNickname := r.netplayNickname,
                      netplayClientSwapInput := r.netplayClientSwapInput, netplayIpAddress := r.netplayIpAddress)
    ensures NetplayActive(cfg) ==>
      && r.cheevosHardcoreModeEnable == Some(Str("false"))
      && r.netplayMode == Some(Flag(cfg["netplaymode"] == "client"))
      && r.netplayClientSwapInput == Some(Flag(cfg["netplaymode"] == "client"))
      && r.netplayIpPort == Some(Str(Get(cfg, "netplay.server.port", "")))
      && r.netplayDelayFrames == Some(Str(Get(cfg, "netplay.frames", "")))
      && r.netplayNickname == Some(Str(Get(cfg, "netplay.nick", "")))
      && r.netplayIpAddress ==
           if cfg["netplaymode"] == "client" then Some(Str(Get(cfg, "netplay.server.ip", "")))
           else acc.netplayIpAddress
  {
    if "netplaymode" in cfg && cfg["netplaymode"] in NetplayModes then
      var host := acc.(cheevosHardcoreModeEnable := Some(Str("false")),
                       netplayMode := Some(Str("false")),
                       netplayIpPort := Some(Str(Get(cfg, "netplay.server.port", ""))),
                       netplayDelayFrames := Some(Str(Get(cfg, "netplay.frames", ""))),
                       netplayNickname := Some(Str(Get(cfg, "netplay.nick", ""))),
                       netplayClientSwapInput := Some(Str("false")));
      if cfg["netplaymode"] == "client" then
        host.(netplayMode := Some(Str("true")),
              netplayIpAddress := Some(Str(Get(cfg, "netplay.server.ip", ""))),
              netplayClientSwapInput := Some(Str("true")))
      else host
    else acc
  }

  /** The frame-rate display passes the boolean option through. */
  function ShowFps(cfg: Config, acc: Settings): (r: Settings)
    ensures r == acc.(fpsShow := r.fpsShow)
    ensures r.fpsShow == Some(Flag(Enabled("showFPS", cfg)))
  {
    if Enabled("showFPS", cfg) then acc.(fpsShow := Some(Str("true")))
    else acc.(fpsShow := Some(Str("false")))
  }

  /** All rules, in the generator's order, starting from empty settings. */
  function CreateBaseConfig(sys: SystemDescriptor, controllers: nat, paths: Paths): (out: BaseConfig)
    requires HasCore(sys)
  {
    var cfg := sys.config;
    var s0 := VideoFilter(cfg, Empty);
    var s1 := AspectRatio(cfg, RatioIndexes, s0);
    var s2 := Rewind(sys, s1);
    var s3 := Autosave(cfg, s2);
    var s4 := InputDriver(cfg, s3);
    var s5 := SaveDirectories(sys, paths.savesDir, s4);
    var s6 := ControllerDevices(sys, controllers, s5);
    var s7 := Retroachievements(sys, s6);
    var s8 := IntegerScale(cfg, s7);
    var s9 := BluemsxDevices(sys, s8);
    var s10 := Netplay(cfg, s9);
    var s11 := ShowFps(cfg, s10);
    BaseConfig(s11, BluemsxCoreSettings(sys))
  }

  /** The keys every run writes, whatever the settings. */
  const AlwaysKeys: set<Key> := {
    VideoSmooth, VideoShaderEnable, AspectRatioIndex, RewindEnable,
    SavestateAutoSave, SavestateAutoLoad, InputJoypadDriver, SavestateDirectory, SavefileDirectory,
    InputLibretroDeviceP1, InputLibretroDeviceP2, CheevosEnable, CheevosHardcoreModeEnable,
    VideoScaleInteger, FpsShow}

  /** Every key of AlwaysKeys is written. */
  predicate AlwaysWritten(s: Settings)
  {
    && s.videoSmooth.Some? && s.videoShaderEnable.Some? && s.aspectRatioIndex.Some?
    && s.rewindEnable.Some? && s.savestateAutoSave.Some? && s.savestateAutoLoad.Some?
    && s.inputJoypadDriver.Some? && s.savestateDirectory.Some? && s.savefileDirectory.Some?
    && s.inputLibretroDeviceP1.Some? && s.inputLibretroDeviceP2.Some?
    && s.cheevosEnable.Some? && s.cheevosHardcoreModeEnable.Some?
    && s.videoScaleInteger.Some? && s.fpsShow.Some?
  }

  /** No key of OverlayKeys is written. */
  predicate NoOverlay(s: Settings)
  {
    && s.inputOverlayHideInMenu.None? && s.inputOverlayEnable.None?
    && s.videoMessagePosX.None? && s.videoMessagePosY.None?
    && s.inputOverlayScale.None? && s.inputOverlay.None? && s.inputOverlayOpacity.None?
    && s.customViewportX.None? && s.customViewportY.None?
    && s.customViewportWidth.None? && s.customViewportHeight.None?
  }

  /** The record-level predicates say what they promise about keys. */
  lemma WrittenKeys(s: Settings)
    ensures AlwaysWritten(s) ==> forall k :: k in AlwaysKeys ==> Field(s, k).Some?
    ensures NoOverlay(s) ==> forall k :: k in OverlayKeys ==> Field(s, k).None?
  {
  }

  /** The mapper writes the fixed keys, plus the shader path when a shader is
      defined, the automatic-aspect flag when a ratio is defined, the
      credentials when retro-achievements are active, and the netplay keys
      only when netplay is requested with a recognised mode, the peer
      address only for a client. It leaves the overlay keys to the overlay
      step. */
  lemma BaseKeys(sys: SystemDescriptor, controllers: nat, paths: Paths)
    requires HasCore(sys)
    ensures var s := CreateBaseConfig(sys, controllers, paths).settings;
      var netplay := NetplayActive(sys.config);
      && AlwaysWritten(s)
      && NoOverlay(s)
      && (s.videoShader.Some? <==> Defined("shaders", sys.config))
      && (s.videoAspectRatioAuto.Some? <==> Defined("ratio", sys.config))
      && (s.cheevosUsername.Some? <==> CheevosActive(sys))
      && (s.cheevosPassword.Some? <==> CheevosActive(sys))
      && (s.netplayMode.Some? <==> netplay) && (s.netplayIpPort.Some? <==> netplay)
      && (s.netplayDelayFrames.Some? <==> netplay) && (s.netplayNickname.Some? <==> netplay)
      && (s.netplayClientSwapInput.Some? <==> netplay)
      && (s.netplayIpAddress.Some? <==> netplay && sys.config["netplaymode"] == "client")
  {
  }

  /** A defined shader forces smoothing off, whatever `smooth` says;
      without one, smoothing follows `smooth` and shaders are off. */
  lemma ShaderOverridesSmoothing(sys: SystemDescriptor, controllers: nat, paths: Paths)
    requires HasCore(sys)
    ensures var s := CreateBaseConfig(sys, controllers, paths).settings;
      && (Defined("shaders", sys.config) ==>
            && s.videoShaderEnable == Some(Str("true"))
            && s.videoShader == Some(Str(sys.config["shaders"]))
            && s.videoSmooth == Some(Str("false")))
      && (!Defined("shaders", sys.config) ==>
            && s.videoShaderEnable == Some(Str("false"))
            && s.videoSmooth == Some(Flag(Enabled("smooth", sys.config))))
  {
  }

  /** Before the overlay step: a ratio found in the table gives its
      position there and fixed aspect, any other defined ratio but "custom"
      an empty index and automatic aspect, and an undefined ratio an empty
      index with the automatic flag left unset. (Being found is being a
      member: Tables.IndexOfFinds.) */
  lemma AspectRatioSetting(sys: SystemDescriptor, controllers: nat, paths: Paths)
    requires HasCore(sys)
    ensures var s := CreateBaseConfig(sys, controllers, paths).settings;
      var cfg := sys.config;
      var found := if Defined("ratio", cfg) then IndexOf(RatioIndexes, cfg["ratio"]) else None;
      && (found.Some? ==>
            s.aspectRatioIndex == Some(Int(found.value)) && s.videoAspectRatioAuto == Some(Str("false")))
      && (Defined("ratio", cfg) && found.None? && cfg["ratio"] != "custom" ==>
            s.aspectRatioIndex == Some(Str("")) && s.videoAspectRatioAuto == Some(Str("true")))
      && (!Defined("ratio", cfg) ==> s.aspectRatioIndex == Some(Str("")) && s.videoAspectRatioAuto == None)
  {
  }

  /** The ratio "custom" is not in the table: it leaves the index empty and
      turns automatic aspect off. */
  lemma CustomRatio(sys: SystemDescriptor, controllers: nat, paths: Paths)
    requires HasCore(sys)
    requires "ratio" in sys.config && sys.config["ratio"] == "custom"
    ensures var s := CreateBaseConfig(sys, controllers, paths).settings;
      s.aspectRatioIndex == Some(Str("")) && s.videoAspectRatioAuto == Some(Str("false"))
  {
    CustomIsNotARatio();
  }

  /** Rewind is on exactly when requested on a system that supports it. */
  lemma RewindEligibility(sys: SystemDescriptor, controllers: nat, paths: Paths)
    requires HasCore(sys)
    ensures CreateBaseConfig(sys, controllers, paths).settings.rewindEnable ==
      Some(Flag(Enabled("rewind", sys.config) && sys.name !in SystemNoRewind))
  {
  }

  /** Device codes: the bluemsx system tables decide both players when that
      core runs one of its systems; otherwise player 1 comes from its core
      table (default '1'), and player 2 is '257' for snes9x_next with more
      than two controllers, else from its own core table (default '1'). */
  lemma ControllerDeviceCodes(sys: SystemDescriptor, controllers: nat, paths: Paths)
    requires HasCore(sys)
    ensures var s := CreateBaseConfig(sys, controllers, paths).settings;
      var core := sys.config["core"];
      && (BluemsxSelected(sys) ==>
            && s.inputLibretroDeviceP1 == Some(Str(SystemToP1Device[sys.name]))
            && s.inputLibretroDeviceP2 == Some(Str(SystemToP2Device[sys.name])))
      && (!BluemsxSelected(sys) ==>
            s.inputLibretroDeviceP1 == Some(Str(if core in CoreToP1Device then CoreToP1Device[core] else "1")))
      && (!BluemsxSelected(sys) && controllers > 2 && core == "snes9x_next" ==>
            s.inputLibretroDeviceP2 == Some(Str("257")))
      && (!BluemsxSelected(sys) && !(controllers > 2 && core == "snes9x_next") ==>
            s.inputLibretroDeviceP2 == Some(Str(if core in CoreToP2Device then CoreToP2Device[core] else "1")))
  {
  }

  /** Retro-achievements are on exactly when requested on a supported
      system, with the credentials copied; hardcore mode needs, on top of
      that, its own option and no netplay session. */
  lemma RetroachievementsAndHardcore(sys: SystemDescriptor, controllers: nat, paths: Paths)
    requires HasCore(sys)
    ensures var s := CreateBaseConfig(sys, controllers, paths).settings;
      && s.cheevosEnable == Some(Flag(CheevosActive(sys)))
      && s.cheevosHardcoreModeEnable ==
           Some(Flag(CheevosActive(sys) && Enabled("retroachievements.hardcore", sys.config)
                     && !NetplayActive(sys.config)))
      && (CheevosActive(sys) ==>
            && s.cheevosUsername == Some(Str(Get(sys.config, "retroachievements.username", "")))
            && s.cheevosPassword == Some(Str(Get(sys.config, "retroachievements.password", ""))))
  {
  }

  /** Netplay: the mode flag and input swap are "true" only for a client
      (a host gets "false"), the peer address is set only for a client, and
      port, frames and nick are copied with empty defaults. */
  lemma NetplaySettings(sys: SystemDescriptor, controllers: nat, paths: Paths)
    requires HasCore(sys)
    ensures var s := CreateBaseConfig(sys, controllers, paths).settings;
      var cfg := sys.config;
      NetplayActive(cfg) ==>
        && s.netplayMode == Some(Flag(cfg["netplaymode"] == "client"))
        && s.netplayClientSwapInput == Some(Flag(cfg["netplaymode"] == "client"))
        && s.netplayIpPort == Some(Str(Get(cfg, "netplay.server.port", "")))
        && s.netplayDelayFrames == Some(Str(Get(cfg, "netplay.frames", "")))
        && s.netplayNickname == Some(Str(Get(cfg, "netplay.nick", "")))
        && s.netplayIpAddress ==
             if cfg["netplaymode"] == "client" then Some(Str(Get(cfg, "netplay.server.ip", ""))) else None
  {
  }

  /** The pass-through options: autosave drives both save-state flags,
      integer scaling and the frame-rate display follow their options, the
      joypad driver defaults to udev, and both save directories are the
      saves root followed by the system name. */
  lemma PassThroughOptions(sys: SystemDescriptor, controllers: nat, paths: Paths)
    requires HasCore(sys)
    ensures var s := CreateBaseConfig(sys, controllers, paths).settings;
      var cfg := sys.config;
      && s.savestateAutoSave == Some(Flag(Enabled("autosave", cfg)))
      && s.savestateAutoLoad == Some(Flag(Enabled("autosave", cfg)))
      && s.videoScaleInteger == Some(Flag(Enabled("integerscale", cfg)))
      && s.fpsShow == Some(Flag(Enabled("showFPS", cfg)))
      && s.inputJoypadDriver == Some(Str(if Defined("inputdriver", cfg) then cfg["inputdriver"] else "udev"))
      && s.savestateDirectory == Some(Str(paths.savesDir + sys.name))
      && s.savefileDirectory == Some(Str(paths.savesDir + sys.name))
  {
  }

  /** The per-core settings file receives the bluemsx machine type exactly
      when the bluemsx core runs one of its systems. */
  lemma BluemsxMachineType(sys: SystemDescriptor, controllers: nat, paths: Paths)
    requires HasCore(sys)
    ensures var c := CreateBaseConfig(sys, controllers, paths).coreSettings;
      && (BluemsxSelected(sys) ==> c == map["bluemsx_msxtype" := SystemToBluemsx[sys.name]])
      && (!BluemsxSelected(sys) ==> c == map[])
  {
  }

  /** After all rules, every key of AlwaysKeys is written and no overlay key
      is, stated key by key. */
  lemma BaseKeyFields(sys: SystemDescriptor, controllers: nat, paths: Paths)
    requires HasCore(sys)
    ensures var s := CreateBaseConfig(sys, controllers, paths).settings;
      && (forall k :: k in AlwaysKeys ==> Field(s, k).Some?)
      && (forall k :: k in OverlayKeys ==> Field(s, k).None?)
  {
    BaseKeys(sys, controllers, paths);
    WrittenKeys(CreateBaseConfig(sys, controllers, paths).settings);
  }
}

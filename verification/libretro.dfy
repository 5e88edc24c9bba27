/** The whole generator: the settings mapper followed by the overlay step,
    giving the frontend configuration, the per-core settings and, when an
    overlay is shown, the text of its layout file. */
module LibretroConfig {
  import opened Values
  import opened Frontend
  import opened Tables
  import opened Mapper
  import opened Overlay

  /** Everything one run produces. */
  datatype LibretroOutput = LibretroOutput(
    settings: Settings,
    coreSettings: map<string, string>,
    overlayLayout: Option<string>)

  /** The configuration for running `rom` on `sys` with `controllers` pads
      and bezel set `bezel` (None when bezels are off). It fails only in the
      overlay step, and only when a bezel is configured; the overlay step
      changes nothing the mapper wrote but the overlay keys and the
      aspect-ratio index. */
  function CreateLibretroConfig(sys: SystemDescriptor, controllers: nat, rom: string, bezel: Option<string>,
                                paths: Paths, env: Environment): (r: Result<LibretroOutput, OverlayError>)
    requires HasCore(sys)
    ensures r.Failure? ==> bezel.Some?
    ensures bezel.None? ==> r.Success? && r.value.overlayLayout.None?
    ensures r.Success? ==> ChangesOverlayKeysOnly(CreateBaseConfig(sys, controllers, paths).settings, r.value.settings)
  {
    var base := CreateBaseConfig(sys, controllers, paths);
    match WriteBezelConfig(bezel, base.settings, sys.name, rom, paths, env)
    case Failure(e) => Failure(e)
    case Success(o) => Success(LibretroOutput(o.settings, base.coreSettings, o.layout))
  }

  /** Without a shown overlay, overlays are off and the aspect-ratio index is
      the mapper's; with one, overlays are on and the index is the overlay
      index, whatever ratio was configured. */
  lemma OverlayOutcome(sys: SystemDescriptor, controllers: nat, rom: string, bezel: Option<string>,
                       paths: Paths, env: Environment)
    requires HasCore(sys)
    ensures var r := CreateLibretroConfig(sys, controllers, rom, bezel, paths, env);
      var base := CreateBaseConfig(sys, controllers, paths).settings;
      r.Success? ==>
        && (r.value.overlayLayout.None? ==>
              OverlayOff(r.value.settings) && r.value.settings.aspectRatioIndex == base.aspectRatioIndex)
        && (r.value.overlayLayout.Some? ==>
              && r.value.settings.inputOverlayEnable == Some(Str("true"))
              && r.value.settings.aspectRatioIndex == Some(Int(OverlayAspectIndex)))
  {
  }

  /** The per-core settings carry the bluemsx machine type exactly when the
      bluemsx core runs one of its systems. */
  lemma CoreSettingsOutcome(sys: SystemDescriptor, controllers: nat, rom: string, bezel: Option<string>,
                            paths: Paths, env: Environment)
    requires HasCore(sys)
    ensures var r := CreateLibretroConfig(sys, controllers, rom, bezel, paths, env);
      r.Success? ==>
        && (BluemsxSelected(sys) ==> r.value.coreSettings == map["bluemsx_msxtype" := SystemToBluemsx[sys.name]])
        && (!BluemsxSelected(sys) ==> r.value.coreSettings == map[])
  {
    BluemsxMachineType(sys, controllers, paths);
  }

  /** Without bezels, the ratio "16/9" reaches the output as index 1 of the
      frontend's aspect-ratio enumeration. */
  lemma WidescreenWithoutBezel(sys: SystemDescriptor, controllers: nat, rom: string, paths: Paths, env: Environment)
    requires HasCore(sys)
    requires "ratio" in sys.config && sys.config["ratio"] == "16/9"
    ensures var r := CreateLibretroConfig(sys, controllers, rom, None, paths, env);
      r.Success? && r.value.settings.aspectRatioIndex == Some(Int(1))
      && r.value.settings.videoAspectRatioAuto == Some(Str("false"))
  {
    SixteenByNineIsOne();
    AspectRatioSetting(sys, controllers, paths);
  }

  /** A netplay session turns hardcore retro-achievements off in the final
      configuration, whatever the options say. */
  lemma NetplayDisablesHardcore(sys: SystemDescriptor, controllers: nat, rom: string, bezel: Option<string>,
                                paths: Paths, env: Environment)
    requires HasCore(sys)
    requires NetplayActive(sys.config)
    ensures var r := CreateLibretroConfig(sys, controllers, rom, bezel, paths, env);
      r.Success? ==> r.value.settings.cheevosHardcoreModeEnable == Some(Str("false"))
  {
    RetroachievementsAndHardcore(sys, controllers, paths);
  }

  /** Without a recognised netplay mode the final configuration holds no
      netplay key at all. */
  lemma NoNetplayKeysWithoutNetplay(sys: SystemDescriptor, controllers: nat, rom: string, bezel: Option<string>,
                                    paths: Paths, env: Environment)
    requires HasCore(sys)
    requires !NetplayActive(sys.config)
    ensures var r := CreateLibretroConfig(sys, controllers, rom, bezel, paths, env);
      r.Success? ==> forall k :: IsNetplayKey(k) ==> Field(r.value.settings, k).None?
  {
    var r := CreateLibretroConfig(sys, controllers, rom, bezel, paths, env);
    if r.Success? {
      BaseKeys(sys, controllers, paths);
      assert NoNetplay(r.value.settings);
      NoNetplayKeys(r.value.settings);
    }
  }

  /** Without a recognised netplay mode, no key whose file name starts with
      "netplay_" appears in the final configuration. */
  lemma NoPrefixedKeysWithoutNetplay(sys: SystemDescriptor, controllers: nat, rom: string, bezel: Option<string>,
                                     paths: Paths, env: Environment)
    requires HasCore(sys)
    requires !NetplayActive(sys.config)
    ensures var r := CreateLibretroConfig(sys, controllers, rom, bezel, paths, env);
      r.Success? ==> forall k :: "netplay_" <= Name(k) ==> Field(r.value.settings, k).None?
  {
    NoNetplayKeysWithoutNetplay(sys, controllers, rom, bezel, paths, env);
    forall k | "netplay_" <= Name(k) ensures IsNetplayKey(k) {
      PrefixedKeysAreNetplay(k);
    }
  }

  /** Outside the overlay keys and the aspect-ratio index, every key of the
      final configuration holds the value the mapper gave it. */
  lemma MapperKeysSurvive(sys: SystemDescriptor, controllers: nat, rom: string, bezel: Option<string>,
                          paths: Paths, env: Environment)
    requires HasCore(sys)
    ensures var r := CreateLibretroConfig(sys, controllers, rom, bezel, paths, env);
      var base := CreateBaseConfig(sys, controllers, paths).settings;
      r.Success? ==> forall k :: k !in OverlayKeys && k != AspectRatioIndex ==> Field(r.value.settings, k) == Field(base, k)
  {
    var r := CreateLibretroConfig(sys, controllers, rom, bezel, paths, env);
    if r.Success? {
      OverlayStepFrame(CreateBaseConfig(sys, controllers, paths).settings, r.value.settings);
    }
  }

  /** Every key the mapper always writes is present in the final
      configuration, whether or not an overlay is shown. */
  lemma AlwaysKeysWritten(sys: SystemDescriptor, controllers: nat, rom: string, bezel: Option<string>,
                          paths: Paths, env: Environment)
    requires HasCore(sys)
    ensures var r := CreateLibretroConfig(sys, controllers, rom, bezel, paths, env);
      r.Success? ==> forall k :: k in AlwaysKeys ==> Field(r.value.settings, k).Some?
  {
    var r := CreateLibretroConfig(sys, controllers, rom, bezel, paths, env);
    if r.Success? {
      BaseKeys(sys, controllers, paths);
      OverlayOutcome(sys, controllers, rom, bezel, paths, env);
      assert AlwaysWritten(r.value.settings);
      WrittenKeys(r.value.settings);
    }
  }
}

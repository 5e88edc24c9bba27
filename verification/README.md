# libretro configuration generator, modelled in Dafny

This project models the core of the libretro configuration generator of the
Recalbox configgen (`configgen/generators/libretro/libretroConfig.py`). Given
one emulated system, it produces the frontend configuration used to launch
a rom in RetroArch. The system is described by its name and its per-system
settings map.

The generator works in two steps:

- The **settings mapper** (`createLibretroConfig` up to line 165) applies
  rules in a fixed order:
  1. smoothing and shaders;
  2. aspect-ratio index;
  3. rewind;
  4. autosave;
  5. joypad driver;
  6. save directories;
  7. controller device codes;
  8. retro-achievements;
  9. integer scaling;
  10. the bluemsx overrides;
  11. netplay;
  12. frame-rate display.

  Each rule overwrites some keys of the configuration being built, and a
  later write wins.
- The **overlay (bezel) step** (`writeBezelConfig`) first writes the
  overlay defaults. It then searches six candidate description/image file
  pairs in a fixed order. If the first pair found fits the display's
  current resolution, it enables the overlay:
  - it sets the viewport from the description's margins;
  - it sets the aspect-ratio index to the overlay sentinel 22;
  - it writes the four-line overlay layout file (`writeBezelCfgConfig`).

Modules:

- `values.dfy` (`Values`): `Option` and `Result`; the scalar values of the
  configuration file (`Str`, `Int`, and `Num` for decimals such as 0.05);
  the installation paths.
- `frontend.dfy` (`Frontend`): the configuration keys with their file
  names, and `Settings`. `Settings` is a record holding, for every key, the
  value written last, or `None` when the key was never written.
- `options.dfy` (`Options`): `enabled`, `defined`, and `dict.get` with a
  default.
- `tables.dfy` (`Tables`): the static tables and the positional lookup in
  the aspect-ratio table.
- `mapper.dfy` (`Mapper`): one function per rule, `CreateBaseConfig`
  chaining them, and lemmas about the chained result.
- `overlay.dfy` (`Overlay`): the current resolution, the candidate
  search, and the overlay step.
- `layout.dfy` (`Layout`): the overlay layout text, and a line reader that
  recovers its settings.
- `libretro.dfy` (`LibretroConfig`): the whole generator, `CreateLibretroConfig`.

The generator's external dependencies become parameters:

- Installation paths (`recalboxFiles.savesDir`, `overlayUser`,
  `overlaySystem`, `overlayConfigFile`) are a `Paths` record.
- The file system seen by `os.path.isfile` is a set of existing paths.
- The parsed `.info` descriptions are a map from path to `Description`, the
  members of the description's JSON object by name. A path without an entry
  is a description that cannot be read or parsed. The step reads members
  lazily, as the code does: the width first, the height only when the
  width differs, and the rest only once the resolution gate passes. A member
  that is read but missing fails the run.
- The display modes reported by `tvservice.current` are a sequence of
  resolutions.
- The controllers list enters only through its length, so it is a count.

The per-core settings file write (`coreSettings.save('bluemsx_msxtype', …)`)
is returned as a map. The overlay layout file is returned as its text.

An absent or empty `ratio` only resets `aspect_ratio_index` and leaves
`video_aspect_ratio_auto` unwritten (lines 73-82). Only a defined ratio that
is neither a table name nor "custom" turns automatic aspect on.
`Mapper.AspectRatioSetting` states this.

## Model

| member | source | states |
|---|---|---|
| Options.Enabled | configgen/generators/libretro/libretroConfig.py:18-19 | an option is enabled exactly when present with value "1" or "true"; an enabled option is also defined |
| Options.Defined | configgen/generators/libretro/libretroConfig.py:23-24 | an option is defined exactly when present with a non-empty value |
| Options.Get | configgen/generators/libretro/libretroConfig.py:125-126 | `get` with a default returns the stored value when the key is present (even an empty one) and the default otherwise |
| Tables.IndexOf | configgen/generators/libretro/libretroConfig.py:75-76 | the lookup returns the position of the first occurrence of the ratio, or nothing when the ratio does not occur |
| Tables.IndexOfFinds | configgen/generators/libretro/libretroConfig.py:75-76 | the membership test and the lookup agree: a ratio is found exactly when it is in the table |
| Tables.IndexOfDistinct | configgen/generators/libretro/libretroConfig.py:27-30 | in a table without repeats, looking up entry i gives back i |
| Tables.RatioIndexesDistinct | configgen/generators/libretro/libretroConfig.py:29-30 | the ratio table has 21 names and none is repeated |
| Tables.RatioIndexRoundTrip | configgen/generators/libretro/libretroConfig.py:27-30 | every table name maps back to its own position, so the written index names the configured ratio; no table position equals the overlay sentinel 22 |
| Tables.SixteenByNineIsOne | configgen/generators/libretro/libretroConfig.py:29-30 | "16/9" is index 1 of the frontend enumeration |
| Tables.CustomIsNotARatio | configgen/generators/libretro/libretroConfig.py:78-79 | "custom" is not a table name, so the "custom" branch is reachable |
| Tables.BluemsxTablesAgree | configgen/generators/libretro/libretroConfig.py:43-48 | every bluemsx system has device codes for both players, so the lookups at lines 142-143 cannot fail |
| Frontend.NoNetplayKeys | configgen/generators/libretro/libretroConfig.py:146-159 | a configuration with none of the six netplay fields set holds no netplay key |
| Frontend.NetplayKeysArePrefixed | configgen/generators/libretro/libretroConfig.py:150-158 | every netplay key's file name starts with "netplay_" |
| Frontend.PrefixedKeysAreNetplay | configgen/generators/libretro/libretroConfig.py:150-158 | only netplay keys have a file name starting with "netplay_" |
| Mapper.VideoFilter | configgen/generators/libretro/libretroConfig.py:61-71 | a defined shader writes its path, enables shaders and forces smoothing off; otherwise shaders are off and smoothing follows `smooth`; only the three video keys change |
| Mapper.AspectRatio | configgen/generators/libretro/libretroConfig.py:73-82 | the index is an integer exactly when a defined ratio is found in the table, and then it is the ratio's first position; otherwise it is ""; automatic aspect is off for table ratios and "custom", on for other defined ratios, and untouched when the ratio is undefined; only the two aspect keys change |
| Mapper.Rewind | configgen/generators/libretro/libretroConfig.py:84-90 | rewind is "true" exactly when enabled and the system is not in the no-rewind table; only the rewind key changes |
| Mapper.Autosave | configgen/generators/libretro/libretroConfig.py:92-97 | automatic save and load are equal and follow `autosave`; only those two keys change |
| Mapper.InputDriver | configgen/generators/libretro/libretroConfig.py:99-102 | the joypad driver is the defined one, else "udev", and is never empty; only that key changes |
| Mapper.SaveDirectories | configgen/generators/libretro/libretroConfig.py:104-105 | both save directories are the same string, the saves root followed by the system name; only those keys change |
| Mapper.ControllerDevices | configgen/generators/libretro/libretroConfig.py:107-117 | player 1 is the core's p1 table code or "1"; player 2 is "257" for snes9x_next with more than two controllers, else the core's p2 table code or "1"; only the two device keys change |
| Mapper.Retroachievements | configgen/generators/libretro/libretroConfig.py:119-132 | retro-achievements are "true" exactly on a supported system with the option enabled; the credentials are copied (default "") only then; hardcore also needs its own option; only the four cheevos keys change |
| Mapper.IntegerScale | configgen/generators/libretro/libretroConfig.py:134-137 | integer scaling follows `integerscale`; only that key changes |
| Mapper.BluemsxDevices | configgen/generators/libretro/libretroConfig.py:139-143 | for a bluemsx system under the bluemsx core, both device codes come from the system tables; otherwise the configuration is unchanged |
| Mapper.BluemsxCoreSettings | configgen/generators/libretro/libretroConfig.py:139-141 | the per-core settings receive the system's machine type exactly when the bluemsx core runs a bluemsx system, and nothing else |
| Mapper.Netplay | configgen/generators/libretro/libretroConfig.py:145-159 | with a recognised mode, hardcore is forced off, the mode flag and input swap are "true" only for a client, port, frames and nick are copied with default "", and the peer address is written only for a client; otherwise nothing changes |
| Mapper.ShowFps | configgen/generators/libretro/libretroConfig.py:161-165 | the frame-rate display follows `showFPS`; only that key changes |
| Mapper.WrittenKeys | configgen/generators/libretro/libretroConfig.py:59-165 | the field-level predicates AlwaysWritten and NoOverlay mean the key-level statements: every fixed key written, no overlay key written |
| Mapper.BaseKeyFields | configgen/generators/libretro/libretroConfig.py:59-165 | after all rules, every always-written key is present and no overlay key is, key by key |
| Mapper.BaseKeys | configgen/generators/libretro/libretroConfig.py:59-165 | after all rules, the fixed keys are written; the shader path, the automatic-aspect flag, the credentials and each netplay key are written exactly under their conditions; no overlay key is written |
| Mapper.ShaderOverridesSmoothing | configgen/generators/libretro/libretroConfig.py:61-71 | in the final mapping, a defined shader means shaders on and smoothing off, whatever `smooth` says |
| Mapper.AspectRatioSetting | configgen/generators/libretro/libretroConfig.py:73-82 | in the final mapping, a table ratio gives its position with fixed aspect, any other defined ratio except "custom" gives "" with automatic aspect, and an undefined ratio gives "" with the automatic flag unwritten |
| Mapper.CustomRatio | configgen/generators/libretro/libretroConfig.py:78-79 | in the final mapping, "custom" gives an empty index with automatic aspect off |
| Mapper.RewindEligibility | configgen/generators/libretro/libretroConfig.py:84-90 | in the final mapping, rewind is on exactly when requested on a system that supports it |
| Mapper.ControllerDeviceCodes | configgen/generators/libretro/libretroConfig.py:107-143 | in the final mapping, the bluemsx tables decide both players under the bluemsx core; otherwise each player takes its own core table or "1", and the snes9x_next override applies to player 2 only |
| Mapper.RetroachievementsAndHardcore | configgen/generators/libretro/libretroConfig.py:119-148 | in the final mapping, hardcore mode is on exactly when retro-achievements are active, hardcore is enabled, and no netplay mode is recognised |
| Mapper.NetplaySettings | configgen/generators/libretro/libretroConfig.py:146-159 | in the final mapping under netplay, the flags, copied options and peer address are as the netplay rule writes them |
| Mapper.PassThroughOptions | configgen/generators/libretro/libretroConfig.py:92-165 | in the final mapping, autosave, integer scaling, the frame-rate display, the joypad driver and both save directories hold the values their rules compute |
| Mapper.BluemsxMachineType | configgen/generators/libretro/libretroConfig.py:139-141 | the per-core settings hold exactly the bluemsx machine type, or are empty |
| Overlay.CurrentResolution | configgen/generators/libretro/libretroConfig.py:247-255 | the current resolution is the first display mode; with no mode the query fails |
| Overlay.FirstExisting | configgen/generators/libretro/libretroConfig.py:199-217 | returns the position of the first candidate whose description and image both exist, or nothing when no candidate has both files |
| Overlay.Selected | configgen/generators/libretro/libretroConfig.py:188-217 | no bezel selects nothing; otherwise the selected stem is the first of the six candidates whose two files exist, and nothing is selected exactly when none of them exists |
| Overlay.SearchOrder | configgen/generators/libretro/libretroConfig.py:191-217 | the user directory's rom bezel wins whenever both of its files exist; the system directory's default is used only when the five earlier candidates are all missing |
| Overlay.Defaults | configgen/generators/libretro/libretroConfig.py:179-186 | overlays off, not hidden in menus, messages at 0.05/0.05; only those four keys change |
| Overlay.Admits | configgen/generators/libretro/libretroConfig.py:222-223 | the gate fails on a missing width, and on a missing height only when the width differs; it rejects exactly when both dimensions are present and both differ from the display's; a matching width accepts without the height being read |
| Overlay.Enable | configgen/generators/libretro/libretroConfig.py:225-236 | overlay on at scale 1.0 and hidden in menus, with the layout file, the description's opacity and message position, a viewport whose x/y are the left/top margins and whose width/height leave exactly the margins, and aspect index 22; only overlay keys and the aspect index change |
| Overlay.WriteBezelConfig | configgen/generators/libretro/libretroConfig.py:176-237 | fails only after a candidate is found: an unreadable description, then no display mode, then a member missing at the gate or, once the gate accepts, a member the shown overlay needs; the layout is produced exactly when the gate accepts; otherwise overlays are off and only the four default keys change |
| Overlay.OverlayStepFrame | configgen/generators/libretro/libretroConfig.py:176-237 | the overlay step leaves every key other than the overlay keys and the aspect index as it was |
| Overlay.OneMatchingDimensionSuffices | configgen/generators/libretro/libretroConfig.py:220-223 | a complete description whose width matches the display is accepted even if its height does not |
| Overlay.RejectionReadsOnlyDimensions | configgen/generators/libretro/libretroConfig.py:218-223 | a description whose width and height both differ from the display's turns overlays off without failing, whatever other members it lacks |
| Layout.LinesTerminated | configgen/generators/libretro/libretroConfig.py:239-245 | splitting newline-terminated lines gives them back, as long as no line contains a newline |
| Layout.TextLines | configgen/generators/libretro/libretroConfig.py:239-245 | the layout text consists of exactly its four lines |
| Layout.TextRoundTrip | configgen/generators/libretro/libretroConfig.py:242 | reading the `overlay0_overlay` setting back from the layout gives the image path it was written for |
| Layout.TextCount | configgen/generators/libretro/libretroConfig.py:241 | the layout declares one overlay |
| LibretroConfig.CreateLibretroConfig | configgen/generators/libretro/libretroConfig.py:58-170 | a run fails only when a bezel is configured; with no bezel it succeeds without a layout; the overlay step changes only the overlay keys and the aspect index of the mapper's output |
| LibretroConfig.OverlayOutcome | configgen/generators/libretro/libretroConfig.py:176-237 | without a shown overlay, overlays are off and the aspect index is the mapper's; with one, overlays are on and the index is 22 whatever the ratio |
| LibretroConfig.CoreSettingsOutcome | configgen/generators/libretro/libretroConfig.py:139-141 | the run's per-core settings are exactly the system's bluemsx machine type under the bluemsx core on a bluemsx system, and empty otherwise |
| LibretroConfig.WidescreenWithoutBezel | configgen/generators/libretro/libretroConfig.py:73-77 | with "16/9" and no bezel, the final index is 1 and automatic aspect is off |
| LibretroConfig.NetplayDisablesHardcore | configgen/generators/libretro/libretroConfig.py:146-148 | under a recognised netplay mode, the final configuration has hardcore mode off |
| LibretroConfig.NoNetplayKeysWithoutNetplay | configgen/generators/libretro/libretroConfig.py:146-159 | without a recognised netplay mode, the final configuration has no netplay key |
| LibretroConfig.NoPrefixedKeysWithoutNetplay | configgen/generators/libretro/libretroConfig.py:146-159 | without a recognised netplay mode, no key whose file name starts with "netplay_" is written |
| LibretroConfig.MapperKeysSurvive | configgen/generators/libretro/libretroConfig.py:176-237 | outside the overlay keys and the aspect index, every key of the final configuration holds the mapper's value |
| LibretroConfig.AlwaysKeysWritten | configgen/generators/libretro/libretroConfig.py:59-237 | the keys the mapper always writes are all present in the final configuration, with or without an overlay |

## Left out

- Persistence of the configuration is not modelled: `writeLibretroConfig`, `writeLibretroConfigToFile` and the `UnixSettings` handles (lines 13-14, 53-54, 172-174) are file I/O. The model returns the settings instead.
- The `sys.path` manipulation (lines 10-11) does not affect the generated configuration.
- The `coreSettings.save` side effect (line 141) is returned as a map. Because the model's run is all-or-nothing, a run that later fails in the overlay step does not show this save. In the code, the save has already happened at that point.
- A missing `core` option makes the code raise (line 110). The model turns this into the precondition `HasCore` and does not model the exception.
- Decimal values (0.05, the description's opacity and message position) are opaque `Num` tokens or pass-through `Value`s. No arithmetic is done on them.
- Overlay.WriteBezelConfig: a description member is an integer, a string or a decimal token; JSON booleans, null, arrays and objects are not represented. A decimal width or height is taken to differ from the display's integer one, where Python compares numerically (1920.0 equals 1920). A decimal viewport member makes the model fail with `BadDescription`, where the code would compute a decimal viewport; a string one fails in both.
- `getCurrentResolution` (lines 247-255) runs a subprocess and parses its JSON. The model takes the list of display modes as a parameter instead. An empty list is the "No current resolution found" failure.
- `json.load` of a description (line 218) is a lookup in a map of parsed descriptions. Any read or parse error is the single `InfoUnreadable` failure. A member missing when read (a `KeyError`) and a viewport member that cannot be subtracted (a `TypeError`) are the single `BadDescription` failure; which of several such members is read first is not distinguished.
- `romBase` (line 198) is computed but never used. As in the code, the rom candidates use the `rom` string as given, extension included.
- The bezel check is modelled as `None` versus a name (line 188). Any name, including an empty string, proceeds to the search, as in the code.
- `defined` checks `isinstance(…, str)` (line 24). Every configuration value is a string here, so the check always holds.
- Options.Enabled: compares values as exact strings. No case folding or trimming is done, which matches the code.

/** The keys of the frontend configuration file the generator writes, each
    with the name it has in that file, and the configuration being built:
    at most one value per key, a later write replacing an earlier one. */
module Frontend {
  import opened Values

  datatype Key =
    // video filtering
    | VideoSmooth
    | VideoShader
    | VideoShaderEnable
    // aspect ratio
    | AspectRatioIndex
    | VideoAspectRatioAuto
    // rewind and save states
    | RewindEnable
    | SavestateAutoSave
    | SavestateAutoLoad
    | InputJoypadDriver
    | SavestateDirectory
    | SavefileDirectory
    // controllers
    | InputLibretroDeviceP1
    | InputLibretroDeviceP2
    // retro-achievements
    | CheevosEnable
    | CheevosHardcoreModeEnable
    | CheevosUsername
    | CheevosPassword
    // scaling
    | VideoScaleInteger
    // netplay
    | NetplayMode
    | NetplayIpPort
    | NetplayDelayFrames
    | NetplayNickname
    | NetplayClientSwapInput
    | NetplayIpAddress
    // frame-rate display
    | FpsShow
    // overlay
    | InputOverlayHideInMenu
    | InputOverlayEnable
    | VideoMessagePosX
    | VideoMessagePosY
    | InputOverlayScale
    | InputOverlay
    | InputOverlayOpacity
    | CustomViewportX
    | CustomViewportY
    | CustomViewportWidth
    | CustomViewportHeight

  /** The frontend configuration being built: for every key, the value
      written last, or None when the key has not been written. */
  datatype Settings = Settings(
    // video filtering
    videoSmooth: Option<Value>,
    videoShader: Option<Value>,
    videoShaderEnable: Option<Value>,
    // aspect ratio
    aspectRatioIndex: Option<Value>,
    videoAspectRatioAuto: Option<Value>,
    // rewind and save states
    rewindEnable: Option<Value>,
    savestateAutoSave: Option<Value>,
    savestateAutoLoad: Option<Value>,
    inputJoypadDriver: Option<Value>,
    savestateDirectory: Option<Value>,
    savefileDirectory: Option<Value>,
    // controllers
    inputLibretroDeviceP1: Option<Value>,
    inputLibretroDeviceP2: Option<Value>,
    // retro-achievements
    cheevosEnable: Option<Value>,
    cheevosHardcoreModeEnable: Option<Value>,
    cheevosUsername: Option<Value>,
    cheevosPassword: Option<Value>,
    // scaling
    videoScaleInteger: Option<Value>,
    // netplay
    netplayMode: Option<Value>,
    netplayIpPort: Option<Value>,
    netplayDelayFrames: Option<Value>,
    netplayNickname: Option<Value>,
    netplayClientSwapInput: Option<Value>,
    netplayIpAddress: Option<Value>,
    // frame-rate display
    fpsShow: Option<Value>,
    // overlay
    inputOverlayHideInMenu: Option<Value>,
    inputOverlayEnable: Option<Value>,
    videoMessagePosX: Option<Value>,
    videoMessagePosY: Option<Value>,
    inputOverlayScale: Option<Value>,
    inputOverlay: Option<Value>,
    inputOverlayOpacity: Option<Value>,
    customViewportX: Option<Value>,
    customViewportY: Option<Value>,
    customViewportWidth: Option<Value>,
    customViewportHeight: Option<Value>)

  /** No key written yet. */
  const Empty: Settings := Settings(None, None, None, None, None, None, None, None, None, None, None, None, None, None, None, None, None, None, None, None, None, None, None, None, None, None, None, None, None, None, None, None, None, None, None, None)

  /** The value stored under `k`. */
  function Field(s: Settings, k: Key): Option<Value>
  {
    match k
    case VideoSmooth => s.videoSmooth
    case VideoShader => s.videoShader
    case VideoShaderEnable => s.videoShaderEnable
    case AspectRatioIndex => s.aspectRatioIndex
    case VideoAspectRatioAuto => s.videoAspectRatioAuto
    case RewindEnable => s.rewindEnable
    case SavestateAutoSave => s.savestateAutoSave
    case SavestateAutoLoad => s.savestateAutoLoad
    case InputJoypadDriver => s.inputJoypadDriver
    case SavestateDirectory => s.savestateDirectory
    case SavefileDirectory => s.savefileDirectory
    case InputLibretroDeviceP1 => s.inputLibretroDeviceP1
    case InputLibretroDeviceP2 => s.inputLibretroDeviceP2
    case CheevosEnable => s.cheevosEnable
    case CheevosHardcoreModeEnable => s.cheevosHardcoreModeEnable
    case CheevosUsername => s.cheevosUsername
    case CheevosPassword => s.cheevosPassword
    case VideoScaleInteger => s.videoScaleInteger
    case NetplayMode => s.netplayMode
    case NetplayIpPort => s.netplayIpPort
    case NetplayDelayFrames => s.netplayDelayFrames
    case NetplayNickname => s.netplayNickname
    case NetplayClientSwapInput => s.netplayClientSwapInput
    case NetplayIpAddress => s.netplayIpAddress
    case FpsShow => s.fpsShow
    case InputOverlayHideInMenu => s.inputOverlayHideInMenu
    case InputOverlayEnable => s.inputOverlayEnable
    case VideoMessagePosX => s.videoMessagePosX
    case VideoMessagePosY => s.videoMessagePosY
    case InputOverlayScale => s.inputOverlayScale
    case InputOverlay => s.inputOverlay
    case InputOverlayOpacity => s.inputOverlayOpacity
    case CustomViewportX => s.customViewportX
    case CustomViewportY => s.customViewportY
    case CustomViewportWidth => s.customViewportWidth
    case CustomViewportHeight => s.customViewportHeight
  }

  /** The overlay keys, which only the overlay step writes. */
  const OverlayKeys: set<Key> := {
    InputOverlayHideInMenu, InputOverlayEnable, VideoMessagePosX, VideoMessagePosY,
    InputOverlayScale, InputOverlay, InputOverlayOpacity,
    CustomViewportX, CustomViewportY, CustomViewportWidth, CustomViewportHeight}

  /** The key's name in the configuration file. */
  function Name(k: Key): string
  {
    match k
    case VideoSmooth => "video_smooth"
    case VideoShader => "video_shader"
    case VideoShaderEnable => "video_shader_enable"
    case AspectRatioIndex => "aspect_ratio_index"
    case VideoAspectRatioAuto => "video_aspect_ratio_auto"
    case RewindEnable => "rewind_enable"
    case SavestateAutoSave => "savestate_auto_save"
    case SavestateAutoLoad => "savestate_auto_load"
    case InputJoypadDriver => "input_joypad_driver"
    case SavestateDirectory => "savestate_directory"
    case SavefileDirectory => "savefile_directory"
    case InputLibretroDeviceP1 => "input_libretro_device_p1"
    case InputLibretroDeviceP2 => "input_libretro_device_p2"
    case CheevosEnable => "cheevos_enable"
    case CheevosHardcoreModeEnable => "cheevos_hardcore_mode_enable"
    case CheevosUsername => "cheevos_username"
    case CheevosPassword => "cheevos_password"
    case VideoScaleInteger => "video_scale_integer"
    case NetplayMode => "netplay_mode"
    case NetplayIpPort => "netplay_ip_port"
    case NetplayDelayFrames => "netplay_delay_frames"
    case NetplayNickname => "netplay_nickname"
    case NetplayClientSwapInput => "netplay_client_swap_input"
    case NetplayIpAddress => "netplay_ip_address"
    case FpsShow => "fps_show"
    case InputOverlayHideInMenu => "input_overlay_hide_in_menu"
    case InputOverlayEnable => "input_overlay_enable"
    case VideoMessagePosX => "video_message_pos_x"
    case VideoMessagePosY => "video_message_pos_y"
    case InputOverlayScale => "input_overlay_scale"
    case InputOverlay => "input_overlay"
    case InputOverlayOpacity => "input_overlay_opacity"
    case CustomViewportX => "custom_viewport_x"
    case CustomViewportY => "custom_viewport_y"
    case CustomViewportWidth => "custom_viewport_width"
    case CustomViewportHeight => "custom_viewport_height"
  }

  /** The keys that belong to netplay. */
  predicate IsNetplayKey(k: Key)
  {
    k in {NetplayMode, NetplayIpPort, NetplayDelayFrames, NetplayNickname, NetplayClientSwapInput, NetplayIpAddress}
  }

  /** No netplay key is written. */
  predicate NoNetplay(s: Settings)
  {
    && s.netplayMode.None? && s.netplayIpPort.None? && s.netplayDelayFrames.None?
    && s.netplayNickname.None? && s.netplayClientSwapInput.None? && s.netplayIpAddress.None?
  }

  /** NoNetplay says what it promises about the netplay keys. */
  lemma NoNetplayKeys(s: Settings)
    requires NoNetplay(s)
    ensures forall k :: IsNetplayKey(k) ==> Field(s, k).None?
  {
  }

  /** Every netplay key is named "netplay_..." in the file. */
  lemma NetplayKeysArePrefixed(k: Key)
    requires IsNetplayKey(k)
    ensures "netplay_" <= Name(k)
  {
  }

  /** Only netplay keys are named "netplay_..." in the file. */
  lemma PrefixedKeysAreNetplay(k: Key)
    requires "netplay_" <= Name(k)
    ensures IsNetplayKey(k)
  {
    // only the netplay names begin with 'n'
    assert Name(k)[0] == 'n';
  }
}

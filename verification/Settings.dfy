/** The six advanced settings: their values, their published names, and what makes a request acceptable. */
module Settings {
  import opened Prelude

  datatype MicrophoneMode = Auto | LeftSide | RightSide
  datatype PressSpeed = DefaultSpeed | Slower | Slowest
  datatype HoldDuration = DefaultHold | Shorter | Shortest
  datatype CallControls = MuteOnceHangupTwice | HangupOnceMuteTwice
  datatype NoiseMode = Off | Anc | Transparency | Adaptive

  datatype Setting =
    | Microphone(mic: MicrophoneMode)
    | PressSpeedIs(speed: PressSpeed)
    | HoldDurationIs(hold: HoldDuration)
    | ListeningModeCycle(modes: seq<NoiseMode>)
    | CallControlsAre(calls: CallControls)
    | PersonalizedVolume(on: bool)

  /** The keys of the requested, status and report maps. */
  datatype Key =
    | MicrophoneKey | PressSpeedKey | HoldDurationKey | ListeningModeCycleKey | CallControlsKey
    | PersonalizedVolumeKey | NameKey

  /** A requested or reported value in its published shape. */
  datatype Value = Text(text: string) | Names(names: seq<string>) | Flag(flag: bool)

  function KeyOf(setting: Setting): Key {
    match setting
    case Microphone(_) => MicrophoneKey
    case PressSpeedIs(_) => PressSpeedKey
    case HoldDurationIs(_) => HoldDurationKey
    case ListeningModeCycle(_) => ListeningModeCycleKey
    case CallControlsAre(_) => CallControlsKey
    case PersonalizedVolume(_) => PersonalizedVolumeKey
  }

  function MicText(m: MicrophoneMode): string {
    match m case Auto => "auto" case LeftSide => "left" case RightSide => "right"
  }

  function SpeedText(p: PressSpeed): string {
    match p case DefaultSpeed => "default" case Slower => "slower" case Slowest => "slowest"
  }

  function HoldText(h: HoldDuration): string {
    match h case DefaultHold => "default" case Shorter => "shorter" case Shortest => "shortest"
  }

  function CallText(c: CallControls): string {
    match c case MuteOnceHangupTwice => "mute_once_hangup_twice" case HangupOnceMuteTwice => "hangup_once_mute_twice"
  }

  function ModeText(m: NoiseMode): string {
    match m case Off => "off" case Anc => "anc" case Transparency => "transparency" case Adaptive => "adaptive"
  }

  function ModeTexts(modes: seq<NoiseMode>): seq<string> {
    seq(|modes|, i requires 0 <= i < |modes| => ModeText(modes[i]))
  }

  function ValueOf(setting: Setting): Value {
    match setting
    case Microphone(m) => Text(MicText(m))
    case PressSpeedIs(p) => Text(SpeedText(p))
    case HoldDurationIs(h) => Text(HoldText(h))
    case ListeningModeCycle(modes) => Names(ModeTexts(modes))
    case CallControlsAre(c) => Text(CallText(c))
    case PersonalizedVolume(on) => Flag(on)
  }

  /** The settings the accessory has reported. */
  datatype DeviceSettings = DeviceSettings(
    microphone: Option<MicrophoneMode>,
    pressSpeed: Option<PressSpeed>,
    holdDuration: Option<HoldDuration>,
    listeningModeCycle: Option<seq<NoiseMode>>,
    callControls: Option<CallControls>,
    personalizedVolume: Option<bool>)

  const NO_SETTINGS := DeviceSettings(None, None, None, None, None, None)

  function ApplySetting(d: DeviceSettings, setting: Setting): DeviceSettings {
    match setting
    case Microphone(m) => d.(microphone := Some(m))
    case PressSpeedIs(p) => d.(pressSpeed := Some(p))
    case HoldDurationIs(h) => d.(holdDuration := Some(h))
    case ListeningModeCycle(modes) => d.(listeningModeCycle := Some(modes))
    case CallControlsAre(c) => d.(callControls := Some(c))
    case PersonalizedVolume(on) => d.(personalizedVolume := Some(on))
  }

  /** The published value of one setting; nothing for one never reported, and the name is not a setting. */
  function Reported(d: DeviceSettings, key: Key): Option<Value> {
    match key
    case MicrophoneKey => if d.microphone.Some? then Some(Text(MicText(d.microphone.value))) else None
    case PressSpeedKey => if d.pressSpeed.Some? then Some(Text(SpeedText(d.pressSpeed.value))) else None
    case HoldDurationKey => if d.holdDuration.Some? then Some(Text(HoldText(d.holdDuration.value))) else None
    case ListeningModeCycleKey =>
      if d.listeningModeCycle.Some? then Some(Names(ModeTexts(d.listeningModeCycle.value))) else None
    case CallControlsKey => if d.callControls.Some? then Some(Text(CallText(d.callControls.value))) else None
    case PersonalizedVolumeKey => if d.personalizedVolume.Some? then Some(Flag(d.personalizedVolume.value)) else None
    case NameKey => None
  }

  /** What the daemon accepts: a listening-mode cycle needs two to four different modes. */
  predicate ValidSetting(setting: Setting) {
    setting.ListeningModeCycle? ==>
      2 <= |setting.modes| <= 4
      && forall i, j :: 0 <= i < j < |setting.modes| ==> setting.modes[i] != setting.modes[j]
  }
}

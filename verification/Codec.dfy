/** AAP messages: decoding one datagram, and the control and smart-routing messages the daemon sends. */
module Codec {
  import opened Prelude
  import opened Settings
  import opened Opack
  import EarMedia
  import Utf8

  const PREFIX: seq<byte> := [0x04, 0x00, 0x04, 0x00]
  const ACK_PREFIX: seq<byte> := [0x01, 0x00, 0x04, 0x00]
  const HEADER_LEN: nat := 6

  const OP_BATTERY: nat := 0x0004
  const OP_EAR_DETECTION: nat := 0x0006
  const OP_CONTROL: nat := 0x0009
  const OP_ADDRESS_REPORT: nat := 0x000C
  const OP_AUDIO_SOURCE: nat := 0x000E
  const OP_SMART_ROUTING: nat := 0x0010
  const OP_SMART_ROUTING_RELAY: nat := 0x0011
  const OP_METADATA: nat := 0x001D
  const OP_FEATURES_ACK: nat := 0x002B
  const OP_CONNECTED_DEVICES: nat := 0x002E
  const OP_CONV_AWARENESS_EVENT: nat := 0x004B

  const CTL_MICROPHONE: byte := 0x01
  const CTL_OWNS_CONNECTION: byte := 0x06
  const CTL_NOISE_CONTROL: byte := 0x0D
  const CTL_PRESS_SPEED: byte := 0x17
  const CTL_HOLD_DURATION: byte := 0x18
  const CTL_LISTENING_MODE_CYCLE: byte := 0x1A
  const CTL_CALL_CONTROLS: byte := 0x24
  const CTL_PERSONALIZED_VOLUME: byte := 0x26
  const CTL_CONV_AWARENESS: byte := 0x28
  const CTL_ADAPTIVE_LEVEL: byte := 0x2E

  datatype BatteryComponent = RightBud | LeftBud | CaseCell | OtherCell(code: byte)

  datatype BatteryEntry = BatteryEntry(component: BatteryComponent, level: Option<byte>, charging: bool, present: bool)

  datatype AudioSourceState = IdleSource | CallSource | MediaSource | OtherSource(code: byte)

  datatype ConnectedDevice = ConnectedDevice(address: Address, info0: byte, info1: byte)

  datatype ControlState =
    | NoiseControl(mode: NoiseMode)
    | ConversationalAwareness(on: bool)
    | AdaptiveLevel(level: byte)
    | SettingIs(setting: Setting)
    | OwnsConnection(owns: bool)
    | OtherControl(id: byte, value: byte)

  datatype Packet =
    | HandshakeAck
    | FeaturesAck
    | Battery(entries: seq<BatteryEntry>)
    | EarDetection(primary: EarMedia.EarState, secondary: EarMedia.EarState)
    | Control(state: ControlState)
    /** The name, model and serial strings stay undecoded. */
    | Metadata(strings: seq<byte>)
    | ConversationalAwarenessLevel(duck: byte)
    | AddressReport(address: Address, extra0: byte, extra1: byte)
    | AudioSource(source: Address, doing: AudioSourceState)
    | ConnectedDevices(header0: byte, header1: byte, devices: seq<ConnectedDevice>)
    | SmartRouting(sender: Address, body: seq<byte>)
    | Unknown(opcode: nat, payload: seq<byte>)

  datatype Decoded<T> = Ok(value: T) | Truncated

  function Le16(low: byte, high: byte): nat {
    low as nat + 256 * (high as nat)
  }

  /** A 16-bit value, least significant octet first. */
  function ToLe16(v: nat): seq<byte>
    requires v < 0x1_0000
  {
    [v % 256, v / 256]
  }

  function AddressBytes(a: Address): seq<byte> {
    [a.b0, a.b1, a.b2, a.b3, a.b4, a.b5]
  }

  /** Address octets as sent in most messages: least significant first. */
  function AddressReversed(b: seq<byte>): Address
    requires |b| >= 6
  {
    Address(b[5], b[4], b[3], b[2], b[1], b[0])
  }

  // ---- decoding

  function Ear(b: byte): EarMedia.EarState {
    if b == 0 then EarMedia.In else if b == 1 then EarMedia.Out else if b == 2 then EarMedia.Case else EarMedia.Unknown
  }

  function Component(b: byte): BatteryComponent {
    if b == 2 then RightBud else if b == 4 then LeftBud else if b == 8 then CaseCell else OtherCell(b)
  }

  /** `[component] 01 [level] [status] 01`. */
  function Entry(chunk: seq<byte>): BatteryEntry
    requires |chunk| == 5
  {
    var present := chunk[3] != 0x04;
    BatteryEntry(Component(chunk[0]), if present && chunk[2] <= 100 then Some(chunk[2]) else None,
                 chunk[3] == 0x01, present)
  }

  function DecodeBattery(payload: seq<byte>): Decoded<seq<BatteryEntry>> {
    if payload == [] || |payload| - 1 < payload[0] as nat * 5 then Truncated
    else Ok(seq(payload[0], i requires 0 <= i < payload[0] as nat => Entry(payload[1 + 5 * i..6 + 5 * i])))
  }

  /** The loop behind `DecodeBattery`. */
  method ReadBattery(payload: seq<byte>) returns (r: Decoded<seq<BatteryEntry>>)
    ensures r == DecodeBattery(payload)
  {
    if payload == [] {
      return Truncated;
    }
    var count: nat := payload[0];
    var body := payload[1..];
    if |body| < count * 5 {
      return Truncated;
    }
    var entries: seq<BatteryEntry> := [];
    for i := 0 to count
      invariant |entries| == i
      invariant forall j :: 0 <= j < i ==> entries[j] == Entry(payload[1 + 5 * j..6 + 5 * j])
    {
      assert body[5 * i..5 * i + 5] == payload[1 + 5 * i..6 + 5 * i];
      entries := entries + [Entry(body[5 * i..5 * i + 5])];
    }
    assert entries == DecodeBattery(payload).value;
    r := Ok(entries);
  }

  function Source(b: byte): AudioSourceState {
    if b == 0 then IdleSource else if b == 1 then CallSource else if b == 2 then MediaSource else OtherSource(b)
  }

  function Mode(b: byte): Option<NoiseMode> {
    if b == 1 then Some(Off) else if b == 2 then Some(Anc) else if b == 3 then Some(Transparency)
    else if b == 4 then Some(Adaptive) else None
  }

  predicate TypedSetting(id: byte) {
    id in {CTL_MICROPHONE, CTL_PRESS_SPEED, CTL_HOLD_DURATION, CTL_LISTENING_MODE_CYCLE, CTL_CALL_CONTROLS,
           CTL_PERSONALIZED_VOLUME}
  }

  /** The bit of a mode in the listening-mode mask. */
  function BitOf(mode: NoiseMode): byte {
    match mode case Off => 1 case Anc => 2 case Transparency => 4 case Adaptive => 8
  }

  predicate HasBit(mask: byte, bit: byte)
    requires bit > 0
  {
    mask / bit % 2 == 1
  }

  function ModeIf(mask: byte, mode: NoiseMode): seq<NoiseMode> {
    if HasBit(mask, BitOf(mode)) then [mode] else []
  }

  function ModesFromMask(mask: byte): seq<NoiseMode> {
    ModeIf(mask, Off) + ModeIf(mask, Anc) + ModeIf(mask, Transparency) + ModeIf(mask, Adaptive)
  }

  function DecodeTyped(id: byte, payload: seq<byte>): Option<Setting>
    requires |payload| == 5
  {
    var value := payload[1];
    if id == CTL_CALL_CONTROLS then
      if payload[1..5] == [0x00, 0x03, 0x00, 0x00] then Some(CallControlsAre(MuteOnceHangupTwice))
      else if payload[1..5] == [0x00, 0x02, 0x00, 0x00] then Some(CallControlsAre(HangupOnceMuteTwice))
      else None
    else if payload[2..5] != [0, 0, 0] then None
    else if id == CTL_MICROPHONE then
      if value == 0 then Some(Microphone(Auto)) else if value == 1 then Some(Microphone(RightSide))
      else if value == 2 then Some(Microphone(LeftSide)) else None
    else if id == CTL_PRESS_SPEED then
      if value == 0 then Some(PressSpeedIs(DefaultSpeed)) else if value == 1 then Some(PressSpeedIs(Slower))
      else if value == 2 then Some(PressSpeedIs(Slowest)) else None
    else if id == CTL_HOLD_DURATION then
      if value == 0 then Some(HoldDurationIs(DefaultHold)) else if value == 1 then Some(HoldDurationIs(Shorter))
      else if value == 2 then Some(HoldDurationIs(Shortest)) else None
    else if id == CTL_LISTENING_MODE_CYCLE then
      if value != 0 && value < 16 then Some(ListeningModeCycle(ModesFromMask(value))) else None
    else if id == CTL_PERSONALIZED_VOLUME then
      if value == 1 then Some(PersonalizedVolume(true))
      else if value == 2 then Some(PersonalizedVolume(false))
      else None
    else None
  }

  function DecodeControl(payload: seq<byte>): Decoded<ControlState>
    requires |payload| >= 2
  {
    var id, value := payload[0], payload[1];
    if TypedSetting(id) then
      if |payload| < 5 then Truncated
      else if |payload| != 5 || DecodeTyped(id, payload).None? then Ok(OtherControl(id, value))
      else Ok(SettingIs(DecodeTyped(id, payload).value))
    else if id == CTL_NOISE_CONTROL && Mode(value).Some? then Ok(NoiseControl(Mode(value).value))
    else if id == CTL_CONV_AWARENESS then Ok(ConversationalAwareness(value == 1))
    else if id == CTL_ADAPTIVE_LEVEL then Ok(AdaptiveLevel(if value < 100 then value else 100))
    else if id == CTL_OWNS_CONNECTION && value <= 1 then Ok(OwnsConnection(value == 1))
    else Ok(OtherControl(id, value))
  }

  /** A short list keeps what is complete. */
  function DecodeConnected(payload: seq<byte>): Decoded<Packet> {
    if |payload| < 3 then Truncated
    else
      var whole := (|payload| - 3) / 8;
      var count: nat := if payload[2] < whole then payload[2] else whole;
      Ok(ConnectedDevices(payload[0], payload[1], seq(count, i requires 0 <= i < count =>
        var c := payload[3 + 8 * i..11 + 8 * i];
        ConnectedDevice(Address(c[0], c[1], c[2], c[3], c[4], c[5]), c[6], c[7]))))
  }

  function DecodeRelay(payload: seq<byte>): Decoded<Packet> {
    if |payload| < 8 then Truncated
    else
      var declared := Le16(payload[6], payload[7]);
      var body := payload[8..];
      Ok(SmartRouting(AddressReversed(payload[..6]), body[..if declared < |body| then declared else |body|]))
  }

  function DecodePayload(opcode: nat, payload: seq<byte>): Decoded<Packet> {
    if opcode == OP_BATTERY then
      (match DecodeBattery(payload) case Ok(entries) => Ok(Battery(entries)) case Truncated => Truncated)
    else if opcode == OP_EAR_DETECTION then
      if |payload| < 2 then Truncated else Ok(EarDetection(Ear(payload[0]), Ear(payload[1])))
    else if opcode == OP_CONTROL then
      if |payload| < 2 then Truncated
      else (match DecodeControl(payload) case Ok(state) => Ok(Control(state)) case Truncated => Truncated)
    else if opcode == OP_METADATA then Ok(Metadata(payload))
    else if opcode == OP_FEATURES_ACK then Ok(FeaturesAck)
    else if opcode == OP_CONV_AWARENESS_EVENT then
      if payload == [] then Truncated else Ok(ConversationalAwarenessLevel(payload[|payload| - 1]))
    else if opcode == OP_ADDRESS_REPORT then
      if |payload| < 8 then Truncated else Ok(AddressReport(AddressReversed(payload[..6]), payload[6], payload[7]))
    else if opcode == OP_AUDIO_SOURCE then
      if |payload| < 7 then Truncated else Ok(AudioSource(AddressReversed(payload[..6]), Source(payload[6])))
    else if opcode == OP_CONNECTED_DEVICES then DecodeConnected(payload)
    else if opcode == OP_SMART_ROUTING_RELAY then DecodeRelay(payload)
    else Ok(Unknown(opcode, payload))
  }

  /** Decode one datagram. */
  function Decode(buf: seq<byte>): Decoded<Packet> {
    if |buf| < HEADER_LEN then Truncated
    else if buf[..4] == ACK_PREFIX then Ok(HandshakeAck)
    else
      var opcode := Le16(buf[4], buf[5]);
      if buf[..4] != PREFIX then Ok(Unknown(opcode, buf[HEADER_LEN..])) else DecodePayload(opcode, buf[HEADER_LEN..])
  }

  // ---- settings on the wire

  function Frame(opcode: nat, payload: seq<byte>): seq<byte>
    requires opcode < 0x1_0000
  {
    PREFIX + ToLe16(opcode) + payload
  }

  /** A control write is padded with zeros to eleven octets. */
  function ControlFrame(id: byte, data: seq<byte>): seq<byte>
    requires |data| <= 4
  {
    Frame(OP_CONTROL, [id] + data + seq(4 - |data|, _ => 0))
  }

  function WithBit(mask: byte, bit: byte): byte
    requires bit in {1, 2, 4, 8} && mask < 16
  {
    if HasBit(mask, bit) then mask else mask + bit
  }

  function MaskOf(modes: seq<NoiseMode>): (mask: byte)
    ensures mask < 16
  {
    if modes == [] then 0 else
      var before := MaskOf(modes[..|modes| - 1]);
      WithBit(before, BitOf(modes[|modes| - 1]))
  }

  function SettingId(setting: Setting): byte {
    match setting
    case Microphone(_) => CTL_MICROPHONE
    case PressSpeedIs(_) => CTL_PRESS_SPEED
    case HoldDurationIs(_) => CTL_HOLD_DURATION
    case ListeningModeCycle(_) => CTL_LISTENING_MODE_CYCLE
    case CallControlsAre(_) => CTL_CALL_CONTROLS
    case PersonalizedVolume(_) => CTL_PERSONALIZED_VOLUME
  }

  function SettingData(setting: Setting): seq<byte> {
    match setting
    case Microphone(m) => [match m case Auto => 0 case RightSide => 1 case LeftSide => 2]
    case PressSpeedIs(p) => [match p case DefaultSpeed => 0 case Slower => 1 case Slowest => 2]
    case HoldDurationIs(h) => [match h case DefaultHold => 0 case Shorter => 1 case Shortest => 2]
    case ListeningModeCycle(modes) => [MaskOf(modes)]
    case CallControlsAre(c) => (match c case MuteOnceHangupTwice => [0, 3] case HangupOnceMuteTwice => [0, 2])
    case PersonalizedVolume(on) => [if on then 1 else 2]
  }

  /** Encode one typed setting, or refuse it. */
  function EncodeSetting(setting: Setting): Option<seq<byte>> {
    if ValidSetting(setting) then Some(ControlFrame(SettingId(setting), SettingData(setting))) else None
  }

  // ---- smart routing

  /** The frame the accessory relays to `target`; the length field stops at 65535. */
  function SmartRoutingFrame(target: Address, body: seq<byte>): seq<byte> {
    var a := AddressBytes(target);
    var len := if |body| < 0x1_0000 then |body| else 0xFFFF;
    Frame(OP_SMART_ROUTING, [a[5], a[4], a[3], a[2], a[1], a[0]] + ToLe16(len) + body)
  }

  method EncodeSmartRouting(target: Address, body: seq<byte>) returns (v: seq<byte>)
    ensures v == SmartRoutingFrame(target, body)
  {
    v := PREFIX;
    v := v + ToLe16(OP_SMART_ROUTING);
    v := v + [target.b5, target.b4, target.b3, target.b2, target.b1, target.b0];
    v := v + ToLe16(if |body| < 0x1_0000 then |body| else 0xFFFF);
    v := v + body;
  }

  function HexDigit(d: nat): (c: char)
    requires d < 16
    ensures c < 128 as char
  {
    "0123456789ABCDEF"[d]
  }

  function HexByte(b: byte): (s: string)
    ensures |s| == 2 && Utf8.Ascii(s)
  {
    [HexDigit(b / 16), HexDigit(b % 16)]
  }

  /** The address as text, six pairs of hex digits. */
  function AddressText(a: Address): (s: string)
    ensures |s| == 17 && Utf8.Ascii(s)
  {
    HexByte(a.b0) + ":" + HexByte(a.b1) + ":" + HexByte(a.b2) + ":" + HexByte(a.b3) + ":" + HexByte(a.b4) + ":"
    + HexByte(a.b5)
  }

  const PLAYING_APP_UNKNOWN: string := "NA"
  const OWNERSHIP_TO_FALSE: string := "audioRoutingSetOwnershipToFalse"

  function HijackNodes(): (ns: seq<Node>)
    ensures |ns| == 10 && AllPrintable(ns) && RefsResolve(ns)
  {
    [Str("localscore"), Num(100)] + [Str("reason"), Str("Hijackv2")] + [Str("audioRoutingScore"), Num(301)]
    + [Str(OWNERSHIP_TO_FALSE), Yes] + [Str("remotescore"), Ref(5)]
  }

  function MediaInfoNodes(local: Address, app: string, streaming: bool, btName: string): (ns: seq<Node>)
    ensures |ns| == 10 && AllPrintable(ns) && RefsResolve(ns)
  {
    [Str("PlayingApp"), Str(app)] + [Str("HostStreamingState"), Str(if streaming then "YES" else "NO")]
    + [Str("btAddress"), Str(AddressText(local))] + [Str("btName"), Str(btName)]
    + [Str("otherDeviceAudioCategory"), Num(301)]
  }

  function NewDeviceNodes(local: Address, btName: string): (ns: seq<Node>)
    ensures |ns| == 10 && AllPrintable(ns) && RefsResolve(ns)
  {
    [Str("playingApp"), Str(PLAYING_APP_UNKNOWN)] + [Str("hostStreamingState"), Str("NO")]
    + [Str("btAddress"), Str(AddressText(local))] + [Str("btName"), Str(btName)]
    + [Str("otherDeviceAudioCategory"), Num(100)]
  }

  function NewTipiNodes(local: Address, btName: string): (ns: seq<Node>)
    ensures |ns| == 10 && AllPrintable(ns) && RefsResolve(ns)
  {
    [Str("idleTime"), Num(0)] + [Str("newTipi"), Yes] + [Str("btAddress"), Str(AddressText(local))]
    + [Str("btName"), Str(btName)] + [Str("nearbyAudioScore"), Num(6)]
  }

  /** The request to yield, addressed to one host. */
  method EncodeHijackV2(target: Address) returns (v: seq<byte>)
    ensures v == SmartRoutingFrame(target, Body(HijackNodes()))
  {
    hide Body, PrintNodes, AddressText, PrintNode;
    var b := new Buffer(5);
    b.PutPair("localscore", Num(100));
    b.PutPair("reason", Str("Hijackv2"));
    b.PutPair("audioRoutingScore", Num(301));
    b.PutPair(OWNERSHIP_TO_FALSE, Yes);
    // Refers back to object five, counted from zero: the score.
    b.PutPair("remotescore", Ref(5));
    assert b.nodes == HijackNodes();
    b.IsBody();
    v := EncodeSmartRouting(target, b.data);
  }

  /** The message behind streaming YES and NO: player, names and state, for one host. */
  method EncodeMediaInfo(target: Address, local: Address, app: string, streaming: bool, btName: string)
    returns (v: seq<byte>)
    ensures v == SmartRoutingFrame(target, Body(MediaInfoNodes(local, app, streaming, btName)))
  {
    hide Body, PrintNodes, AddressText, PrintNode;
    var b := new Buffer(5);
    b.PutPair("PlayingApp", Str(app));
    b.PutPair("HostStreamingState", Str(if streaming then "YES" else "NO"));
    b.PutPair("btAddress", Str(AddressText(local)));
    b.PutPair("btName", Str(btName));
    b.PutPair("otherDeviceAudioCategory", Num(301));
    assert b.nodes == MediaInfoNodes(local, app, streaming, btName);
    b.IsBody();
    v := EncodeSmartRouting(target, b.data);
  }

  /** What a newcomer is told first: nothing plays here. */
  method EncodeMediaInfoNewDevice(target: Address, local: Address, btName: string) returns (v: seq<byte>)
    ensures v == SmartRoutingFrame(target, Body(NewDeviceNodes(local, btName)))
  {
    hide Body, PrintNodes, AddressText, PrintNode;
    var b := new Buffer(5);
    b.PutPair("playingApp", Str(PLAYING_APP_UNKNOWN));
    b.PutPair("hostStreamingState", Str("NO"));
    b.PutPair("btAddress", Str(AddressText(local)));
    b.PutPair("btName", Str(btName));
    b.PutPair("otherDeviceAudioCategory", Num(100));
    assert b.nodes == NewDeviceNodes(local, btName);
    b.IsBody();
    v := EncodeSmartRouting(target, b.data);
  }

  /** Introduce this host to one that just joined. */
  method EncodeNewTipi(target: Address, local: Address, btName: string) returns (v: seq<byte>)
    ensures v == SmartRoutingFrame(target, Body(NewTipiNodes(local, btName)))
  {
    hide Body, PrintNodes, AddressText, PrintNode;
    var b := new Buffer(5);
    b.PutPair("idleTime", Num(0));
    b.PutPair("newTipi", Yes);
    b.PutPair("btAddress", Str(AddressText(local)));
    b.PutPair("btName", Str(btName));
    b.PutPair("nearbyAudioScore", Num(6));
    assert b.nodes == NewTipiNodes(local, btName);
    b.IsBody();
    v := EncodeSmartRouting(target, b.data);
  }

  /** What a receiver looks for in a relayed body. */
  function Key(): seq<byte> {
    Utf8.Bytes(OWNERSHIP_TO_FALSE)
  }

  /** `key` occurs somewhere in `body`. */
  ghost predicate Occurs(key: seq<byte>, body: seq<byte>) {
    exists i: nat :: OccursAt(key, body, i)
  }

  predicate OccursAt(key: seq<byte>, body: seq<byte>, i: nat) {
    i + |key| <= |body| && body[i..i + |key|] == key
  }

  method Search(key: seq<byte>, body: seq<byte>) returns (found: bool)
    ensures found <==> Occurs(key, body)
  {
    var i := 0;
    while i + |key| <= |body|
      invariant forall j :: 0 <= j < i ==> !OccursAt(key, body, j)
    {
      if OccursAt(key, body, i) {
        return true;
      }
      i := i + 1;
    }
    found := false;
  }

  /** The receiver's test is an occurrence of the key anywhere in the body, in a value as well as in a key. */
  method RequestsYield(body: seq<byte>) returns (yes: bool)
    ensures yes <==> Occurs(Key(), body)
  {
    yes := Search(Key(), body);
  }
}

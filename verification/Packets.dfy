/** The accessory's side of the wire: each kind of packet as it is sent, and what the decoder makes of it. */
module Packets {
  import opened Prelude
  import opened Settings
  import opened Codec
  import EarMedia

  // ---- as sent

  /** The controls that report a typed setting. */
  predicate Typed(id: byte) {
    id in {0x01, 0x17, 0x18, 0x1A, 0x24, 0x26}
  }

  /** Every octet above two is read as unknown. */
  ghost predicate SaysEar(b: byte, e: EarMedia.EarState) {
    match e
    case In => b == 0
    case Out => b == 1
    case Case => b == 2
    case Unknown => b > 2
  }

  function CellCode(c: BatteryComponent): byte {
    match c case RightBud => 2 case LeftBud => 4 case CaseCell => 8 case OtherCell(code) => code
  }

  function SourceCode(s: AudioSourceState): byte {
    match s case IdleSource => 0 case CallSource => 1 case MediaSource => 2 case OtherSource(code) => code
  }

  function ModeCode(m: NoiseMode): byte {
    match m case Off => 1 case Anc => 2 case Transparency => 3 case Adaptive => 4
  }

  /** Codes with a meaning of their own are no others. */
  predicate Proper(c: BatteryComponent) {
    c.OtherCell? ==> c.code !in {2, 4, 8}
  }

  predicate ProperSource(s: AudioSourceState) {
    s.OtherSource? ==> s.code > 2
  }

  /**
   Five octets tell one battery: its code, the level in percent, and a status of four when it is absent and one when
   it charges. An absent battery has no level, nor has one that reports more than a hundred.
   */
  ghost predicate SaysBattery(c: seq<byte>, e: BatteryEntry) {
    |c| == 5 && Proper(e.component) && c[0] == CellCode(e.component)
    && (e.present <==> c[3] != 4) && (e.charging <==> c[3] == 1)
    && (e.level == if c[3] == 4 || c[2] > 100 then None else Some(c[2]))
  }

  /** Eight octets name one connected host: its address in display order, and two more. */
  function HostOctets(d: ConnectedDevice): (c: seq<byte>)
    ensures |c| == 8
  {
    [d.address.b0, d.address.b1, d.address.b2, d.address.b3, d.address.b4, d.address.b5, d.info0, d.info1]
  }

  function HostList(ds: seq<ConnectedDevice>): (c: seq<byte>)
    ensures |c| == 8 * |ds|
  {
    if ds == [] then [] else HostOctets(ds[0]) + HostList(ds[1..])
  }

  /** An address with its last octet first. */
  function Backwards(a: Address): (c: seq<byte>)
    ensures |c| == 6
  {
    [a.b5, a.b4, a.b3, a.b2, a.b1, a.b0]
  }

  function Message(opcode: nat, payload: seq<byte>): seq<byte>
    requires opcode < 0x1_0000
  {
    [0x04, 0x00, 0x04, 0x00, opcode % 256, opcode / 256] + payload
  }

  // ---- headers

  lemma MessageHeader(opcode: nat, payload: seq<byte>)
    requires opcode < 0x1_0000
    ensures Decode(Message(opcode, payload)) == DecodePayload(opcode, payload)
  {
    hide DecodePayload;
    var m := Message(opcode, payload);
    assert m[..4] == PREFIX && ACK_PREFIX[0] != PREFIX[0];
    assert m[HEADER_LEN..] == payload;
  }

  /** Whatever carries the acknowledgement's first four octets acknowledges the handshake. */
  lemma AckReadsBack(rest: seq<byte>)
    requires |rest| >= 2
    ensures Decode([0x01, 0x00, 0x04, 0x00] + rest) == Ok(HandshakeAck)
  {
    hide DecodePayload;
    assert ([0x01, 0x00, 0x04, 0x00] + rest)[..4] == ACK_PREFIX;
  }

  /** Nothing shorter than a header is a message. */
  lemma ShortIsRefused(buf: seq<byte>)
    requires |buf| < 6
    ensures Decode(buf) == Truncated
  {
    hide DecodePayload;
  }

  /** A message under a foreign prefix or an opcode outside the eleven is kept as it came. */
  lemma ForeignReadsBack(prefix: seq<byte>, opcode: nat, payload: seq<byte>)
    requires |prefix| == 4 && opcode < 0x1_0000
    requires prefix != [0x01, 0x00, 0x04, 0x00]
    requires prefix == [0x04, 0x00, 0x04, 0x00] ==>
      opcode !in {0x04, 0x06, 0x09, 0x0C, 0x0E, 0x11, 0x1D, 0x2B, 0x2E, 0x4B}
    ensures Decode(prefix + [opcode % 256, opcode / 256] + payload) == Ok(Unknown(opcode, payload))
  {
    hide DecodeBattery, DecodeControl, DecodeConnected, DecodeRelay;
    var m := prefix + [opcode % 256, opcode / 256] + payload;
    assert m[..4] == prefix && m[HEADER_LEN..] == payload;
    assert m[4] == opcode % 256 && m[5] == opcode / 256;
  }

  // ---- what each message says

  lemma EarReadsBack(p: byte, s: byte, primary: EarMedia.EarState, secondary: EarMedia.EarState, rest: seq<byte>)
    requires SaysEar(p, primary) && SaysEar(s, secondary)
    ensures Decode(Message(0x06, [p, s] + rest)) == Ok(EarDetection(primary, secondary))
  {
    MessageHeader(0x06, [p, s] + rest);
    hide Decode, Message, DecodeBattery, DecodeControl, DecodeConnected, DecodeRelay;
  }

  /** The metadata message and the acknowledgement of features are read whatever their length. */
  lemma OpenReadsBack(payload: seq<byte>)
    ensures Decode(Message(0x1D, payload)) == Ok(Metadata(payload))
    ensures Decode(Message(0x2B, payload)) == Ok(FeaturesAck)
  {
    MessageHeader(0x1D, payload);
    MessageHeader(0x2B, payload);
    hide Decode, Message, DecodeBattery, DecodeControl, DecodeConnected, DecodeRelay;
  }

  /** Of an awareness event only the last octet counts. */
  lemma DuckReadsBack(before: seq<byte>, duck: byte)
    ensures Decode(Message(0x4B, before + [duck])) == Ok(ConversationalAwarenessLevel(duck))
  {
    MessageHeader(0x4B, before + [duck]);
    hide Decode, Message, DecodeBattery, DecodeControl, DecodeConnected, DecodeRelay;
  }

  lemma Unreversed(a: Address, rest: seq<byte>)
    ensures AddressReversed((Backwards(a) + rest)[..6]) == a
  {
    assert (Backwards(a) + rest)[..6] == Backwards(a);
  }

  lemma AddressReadsBack(a: Address, extra0: byte, extra1: byte, rest: seq<byte>)
    ensures Decode(Message(0x0C, Backwards(a) + [extra0, extra1] + rest)) == Ok(AddressReport(a, extra0, extra1))
  {
    var payload := Backwards(a) + [extra0, extra1] + rest;
    MessageHeader(0x0C, payload);
    Unreversed(a, [extra0, extra1] + rest);
    assert payload == Backwards(a) + ([extra0, extra1] + rest);
    hide Decode, Message, AddressReversed, Backwards, DecodeBattery, DecodeControl, DecodeConnected, DecodeRelay;
    assert payload[6] == extra0 && payload[7] == extra1;
  }

  lemma SourceReadsBack(a: Address, doing: AudioSourceState, rest: seq<byte>)
    requires ProperSource(doing)
    ensures Decode(Message(0x0E, Backwards(a) + [SourceCode(doing)] + rest)) == Ok(AudioSource(a, doing))
  {
    var payload := Backwards(a) + [SourceCode(doing)] + rest;
    MessageHeader(0x0E, payload);
    Unreversed(a, [SourceCode(doing)] + rest);
    assert payload == Backwards(a) + ([SourceCode(doing)] + rest);
    hide Decode, Message, AddressReversed, Backwards, DecodeBattery, DecodeControl, DecodeConnected, DecodeRelay;
    assert payload[6] == SourceCode(doing);
  }

  /** Noise control, awareness, the adaptive level and ownership, as the accessory echoes them. */
  lemma ControlReadsBack(id: byte, value: byte, rest: seq<byte>)
    ensures forall m: NoiseMode :: Decode(Message(0x09, [0x0D, ModeCode(m)] + rest)) == Ok(Control(NoiseControl(m)))
    ensures value <= 100 ==> Decode(Message(0x09, [0x2E, value] + rest)) == Ok(Control(AdaptiveLevel(value)))
    ensures value > 100 ==> Decode(Message(0x09, [0x2E, value] + rest)) == Ok(Control(AdaptiveLevel(100)))
    ensures Decode(Message(0x09, [0x28, value] + rest)) == Ok(Control(ConversationalAwareness(value == 1)))
    ensures Decode(Message(0x09, [0x06, 1] + rest)) == Ok(Control(OwnsConnection(true)))
    ensures Decode(Message(0x09, [0x06, 0] + rest)) == Ok(Control(OwnsConnection(false)))
    ensures (id == 0x0D && (value == 0 || value > 4)) || (id == 0x06 && value > 1)
            || id !in {0x01, 0x06, 0x0D, 0x17, 0x18, 0x1A, 0x24, 0x26, 0x28, 0x2E} ==>
              Decode(Message(0x09, [id, value] + rest)) == Ok(Control(OtherControl(id, value)))
  {
    forall m: NoiseMode ensures Decode(Message(0x09, [0x0D, ModeCode(m)] + rest)) == Ok(Control(NoiseControl(m))) {
      ControlHeader(0x0D, ModeCode(m), rest);
    }
    ControlHeader(0x2E, value, rest);
    ControlHeader(0x28, value, rest);
    ControlHeader(0x06, 1, rest);
    ControlHeader(0x06, 0, rest);
    if !Typed(id) {
      ControlHeader(id, value, rest);
    }
    hide Decode, Message;
  }

  /** What a control says when it is no typed setting. */
  function PlainControl(id: byte, value: byte): ControlState {
    if id == 0x0D && 1 <= value <= 4 then
      NoiseControl(if value == 1 then Off else if value == 2 then Anc
                   else if value == 3 then Transparency else Adaptive)
    else if id == 0x28 then ConversationalAwareness(value == 1)
    else if id == 0x2E then AdaptiveLevel(if value < 100 then value else 100)
    else if id == 0x06 && value <= 1 then OwnsConnection(value == 1)
    else OtherControl(id, value)
  }

  lemma ControlHeader(id: byte, value: byte, rest: seq<byte>)
    requires !Typed(id)
    ensures Decode(Message(0x09, [id, value] + rest)) == Ok(Control(PlainControl(id, value)))
  {
    MessageHeader(0x09, [id, value] + rest);
    hide Decode, Message, DecodeBattery, DecodeConnected, DecodeRelay, DecodeTyped;
  }

  /** A battery message reads entry by entry as what its octets say, and each entry is the one they can say. */
  lemma BatteryReadsBack(cells: seq<byte>, entries: seq<BatteryEntry>, rest: seq<byte>)
    requires |entries| < 256 && |cells| == 5 * |entries|
    ensures Decode(Message(0x04, [|entries|] + cells + rest)) == Ok(Battery(entries))
       <==> (forall i :: 0 <= i < |entries| ==> SaysBattery(cells[5 * i..5 * i + 5], entries[i]))
  {
    var payload := [|entries|] + cells + rest;
    MessageHeader(0x04, payload);
    BatteryDecodes(payload);
    hide Decode, Message, DecodeControl, DecodeConnected, DecodeRelay, Entry, SaysBattery, DecodeBattery;
    assert payload[0] == |entries|;
    var read := DecodeBattery(payload).value;
    forall i | 0 <= i < |entries|
      ensures read[i] == entries[i] <==> SaysBattery(cells[5 * i..5 * i + 5], entries[i])
    {
      assert payload[1 + 5 * i..6 + 5 * i] == cells[5 * i..5 * i + 5];
      EntryIff(cells[5 * i..5 * i + 5], entries[i]);
    }
    if forall i :: 0 <= i < |entries| ==> SaysBattery(cells[5 * i..5 * i + 5], entries[i]) {
      assert read == entries;
    }
  }

  lemma BatteryDecodes(payload: seq<byte>)
    requires payload != [] && |payload| - 1 >= payload[0] as nat * 5
    ensures DecodeBattery(payload).Ok? && |DecodeBattery(payload).value| == payload[0]
    ensures forall i :: 0 <= i < payload[0] ==>
      DecodeBattery(payload).value[i] == Entry(payload[1 + 5 * i..6 + 5 * i])
  {
    hide Entry;
  }

  lemma EntryIff(c: seq<byte>, e: BatteryEntry)
    requires |c| == 5
    ensures Entry(c) == e <==> SaysBattery(c, e)
  {}

  /** A battery message with fewer octets than its count needs is refused. */
  lemma ShortBatteryIsRefused(count: byte, cells: seq<byte>)
    requires |cells| < 5 * count
    ensures Decode(Message(0x04, [count] + cells)) == Truncated && Decode(Message(0x04, [])) == Truncated
  {
    MessageHeader(0x04, [count] + cells);
    MessageHeader(0x04, []);
    hide Decode, Message, DecodeControl, DecodeConnected, DecodeRelay, Entry;
  }

  lemma {:induction false} HostAt(ds: seq<ConnectedDevice>, i: nat)
    requires i < |ds|
    ensures HostList(ds)[8 * i..8 * i + 8] == HostOctets(ds[i])
  {
    if i > 0 {
      HostAt(ds[1..], i - 1);
      assert HostList(ds)[8 * i..8 * i + 8] == HostList(ds[1..])[8 * (i - 1)..8 * (i - 1) + 8];
    }
  }

  lemma HostsDecode(payload: seq<byte>)
    requires |payload| >= 3
    ensures var whole := (|payload| - 3) / 8;
            var count := if payload[2] < whole then payload[2] else whole;
            var d := DecodeConnected(payload);
            d.Ok? && d.value.ConnectedDevices? && d.value.header0 == payload[0] && d.value.header1 == payload[1]
            && |d.value.devices| == count
            && forall i :: 0 <= i < count ==> HostOctets(d.value.devices[i]) == payload[3 + 8 * i..11 + 8 * i]
  {
    var d := DecodeConnected(payload);
    forall i | 0 <= i < |d.value.devices|
      ensures HostOctets(d.value.devices[i]) == payload[3 + 8 * i..11 + 8 * i]
    {}
  }

  lemma HostIs(a: ConnectedDevice, b: ConnectedDevice)
    requires HostOctets(a) == HostOctets(b)
    ensures a == b
  {
    var x, y := HostOctets(a), HostOctets(b);
    assert forall i :: 0 <= i < 8 ==> x[i] == y[i];
    assert x[0] == y[0] && x[1] == y[1] && x[2] == y[2] && x[3] == y[3];
    assert x[4] == y[4] && x[5] == y[5] && x[6] == y[6] && x[7] == y[7];
  }

  /** The octets of a list, as far as `n` of them arrived, in a message of its length. */
  function HostPayload(header0: byte, header1: byte, ds: seq<ConnectedDevice>, n: nat, rest: seq<byte>):
    (payload: seq<byte>)
    requires |ds| < 256 && n <= 8 * |ds|
  {
    [header0, header1, |ds|] + HostList(ds)[..n] + rest
  }

  lemma HostSent(header0: byte, header1: byte, ds: seq<ConnectedDevice>, n: nat, rest: seq<byte>, i: nat)
    requires |ds| < 256 && n <= 8 * |ds| && 8 * i + 8 <= n
    ensures HostPayload(header0, header1, ds, n, rest)[3 + 8 * i..11 + 8 * i] == HostOctets(ds[i])
  {
    HostAt(ds, i);
    hide HostList, HostOctets;
    var list, a, b := HostList(ds), 8 * i, 8 * i + 8;
    var payload := HostPayload(header0, header1, ds, n, rest);
    forall k | a <= k < b ensures payload[3 + k] == list[k] {}
    assert payload[3 + a..3 + b] == list[a..b];
  }

  lemma HostPayloadIs(header0: byte, header1: byte, ds: seq<ConnectedDevice>, n: nat, rest: seq<byte>)
    requires |ds| < 256 && n <= 8 * |ds|
    ensures var payload := HostPayload(header0, header1, ds, n, rest);
            |payload| == 3 + n + |rest| && payload[0] == header0 && payload[1] == header1 && payload[2] == |ds|
  {
    hide HostList;
  }

  /**
   A list of hosts that arrives with `n` of its octets reads back as the hosts that are whole; all of them, and
   whatever follows is ignored, when nothing is missing.
   */
  lemma HostsReadBack(header0: byte, header1: byte, ds: seq<ConnectedDevice>, n: nat, rest: seq<byte>)
    requires |ds| < 256 && n <= 8 * |ds| && (n == 8 * |ds| || rest == [])
    ensures Decode(Message(0x2E, HostPayload(header0, header1, ds, n, rest)))
         == Ok(ConnectedDevices(header0, header1, ds[..n / 8]))
  {
    var payload := HostPayload(header0, header1, ds, n, rest);
    MessageHeader(0x2E, payload);
    HostPayloadIs(header0, header1, ds, n, rest);
    HostsDecode(payload);
    hide Decode, Message, DecodeControl, DecodeBattery, DecodeRelay, DecodeConnected, HostOctets, HostPayload;
    var read := DecodeConnected(payload).value;
    assert DecodePayload(0x2E, payload) == Ok(read);
    hide DecodePayload;
    WholeHosts(|ds|, n, |rest|);
    forall i | 0 <= i < n / 8 ensures read.devices[i] == ds[i] {
      HostSent(header0, header1, ds, n, rest, i);
      HostIs(read.devices[i], ds[i]);
    }
    assert read.devices == ds[..n / 8];
  }

  lemma WholeHosts(count: nat, n: nat, rest: nat)
    requires n <= 8 * count && (n == 8 * count || rest == 0)
    ensures (if count < (n + rest) / 8 then count else (n + rest) / 8) == n / 8 <= count
  {}

  /** A message too short for what its kind must say is refused. */
  lemma ShortPayloadIsRefused(payload: seq<byte>)
    ensures |payload| < 2 ==> Decode(Message(0x06, payload)) == Truncated && Decode(Message(0x09, payload)) == Truncated
    ensures |payload| < 8 ==> Decode(Message(0x0C, payload)) == Truncated && Decode(Message(0x11, payload)) == Truncated
    ensures |payload| < 7 ==> Decode(Message(0x0E, payload)) == Truncated
    ensures |payload| < 3 ==> Decode(Message(0x2E, payload)) == Truncated
    ensures payload == [] ==> Decode(Message(0x4B, payload)) == Truncated
    ensures 2 <= |payload| < 5 && Typed(payload[0]) ==> Decode(Message(0x09, payload)) == Truncated
  {
    MessageHeader(0x06, payload);
    MessageHeader(0x09, payload);
    MessageHeader(0x0C, payload);
    MessageHeader(0x0E, payload);
    MessageHeader(0x11, payload);
    MessageHeader(0x2E, payload);
    MessageHeader(0x4B, payload);
    hide Decode, Message, DecodeBattery, DecodeTyped;
  }

  // ---- addresses as text

  /** A printed address tells each octet in two digits, with colons between. */
  lemma AddressTextSays(a: Address)
    ensures var text, octets := AddressText(a), AddressBytes(a);
            |text| == 17
            && (forall i :: 0 <= i < 6 ==> text[3 * i..3 * i + 2] == HexByte(octets[i]))
            && (forall i :: 0 <= i < 5 ==> text[3 * i + 2] == ':')
  {
    hide HexByte;
  }

  lemma HexTells(a: byte, b: byte)
    requires HexByte(a) == HexByte(b)
    ensures a == b
  {
    assert HexByte(a)[0] == HexByte(b)[0] && HexByte(a)[1] == HexByte(b)[1];
    DigitTells(a / 16, b / 16);
    DigitTells(a % 16, b % 16);
  }

  lemma DigitTells(d: nat, e: nat)
    requires d < 16 && e < 16 && HexDigit(d) == HexDigit(e)
    ensures d == e
  {}

  /** No two addresses print alike. */
  lemma AddressTextTells(a: Address, b: Address)
    requires AddressText(a) == AddressText(b)
    ensures a == b
  {
    AddressTextSays(a);
    AddressTextSays(b);
    hide AddressText, HexByte;
    forall i | 0 <= i < 6 ensures AddressBytes(a)[i] == AddressBytes(b)[i] {
      HexTells(AddressBytes(a)[i], AddressBytes(b)[i]);
    }
    assert AddressBytes(a) == AddressBytes(b);
  }
}

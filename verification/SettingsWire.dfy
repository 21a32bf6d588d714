/** A setting on its way to the accessory and back: what survives, and what the verdict then says. */
module SettingsWire {
  import opened Prelude
  import opened Settings
  import opened Codec
  import Store
  import StoreRuns

  function Rank(m: NoiseMode): nat {
    match m case Off => 0 case Anc => 1 case Transparency => 2 case Adaptive => 3
  }

  /** The modes in the order of their mask bits. */
  predicate Canonical(modes: seq<NoiseMode>) {
    forall i, j :: 0 <= i < j < |modes| ==> Rank(modes[i]) < Rank(modes[j])
  }

  ghost predicate SameModes(a: seq<NoiseMode>, b: seq<NoiseMode>) {
    forall m: NoiseMode :: m in a <==> m in b
  }

  /** A cycle loses its order on the wire; nothing else is lost. */
  predicate KeepsOrder(setting: Setting) {
    setting.ListeningModeCycle? ==> Canonical(setting.modes)
  }

  /** What an accessory that took a setting reports back. */
  function Echo(setting: Setting): Setting {
    if setting.ListeningModeCycle? then ListeningModeCycle(ModesFromMask(MaskOf(setting.modes))) else setting
  }

  lemma WithBitSets(mask: byte, m: NoiseMode, other: NoiseMode)
    requires mask < 16
    ensures WithBit(mask, BitOf(m)) < 16
    ensures HasBit(WithBit(mask, BitOf(m)), BitOf(other)) <==> HasBit(mask, BitOf(other)) || m == other
  {
    hide HasBit, WithBit;
    SetsBit(mask, BitOf(m), BitOf(other));
  }

  lemma SetsBit(mask: byte, bit: byte, other: byte)
    requires mask < 16 && bit in {1, 2, 4, 8} && other in {1, 2, 4, 8}
    ensures WithBit(mask, bit) < 16
    ensures HasBit(WithBit(mask, bit), other) <==> HasBit(mask, other) || bit == other
  {
    assert mask as nat == mask / 2 * 2 + mask % 2;
    assert mask / 2 == mask / 4 * 2 + mask / 2 % 2;
    assert mask / 4 == mask / 8 * 2 + mask / 4 % 2;
  }

  lemma {:induction false} MaskHas(modes: seq<NoiseMode>, m: NoiseMode)
    ensures HasBit(MaskOf(modes), BitOf(m)) <==> m in modes
  {
    if modes != [] {
      var last := |modes| - 1;
      MaskHas(modes[..last], m);
      WithBitSets(MaskOf(modes[..last]), modes[last], m);
      assert modes == modes[..last] + [modes[last]];
    }
  }

  lemma ModesAreCanonical(mask: byte)
    ensures Canonical(ModesFromMask(mask))
    ensures forall m: NoiseMode :: m in ModesFromMask(mask) <==> HasBit(mask, BitOf(m))
  {
    ModesInOrder(mask);
    hide HasBit, Canonical;
  }

  lemma ModesInOrder(mask: byte)
    ensures Canonical(ModesFromMask(mask))
  {
    hide HasBit;
    assert Canonical(ModeIf(mask, Off) + ModeIf(mask, Anc));
    assert Canonical(ModeIf(mask, Off) + ModeIf(mask, Anc) + ModeIf(mask, Transparency));
  }

  lemma HasMode(modes: seq<NoiseMode>)
    ensures modes != [] ==> exists m: NoiseMode :: m in modes
  {
    if modes != [] {
      assert modes[0] in modes;
    }
  }

  lemma {:induction false} CanonicalIsUnique(a: seq<NoiseMode>, b: seq<NoiseMode>)
    requires Canonical(a) && Canonical(b) && SameModes(a, b)
    ensures a == b
  {
    HasMode(a);
    HasMode(b);
    if a != [] {
      var x, y := a[|a| - 1], b[|b| - 1];
      assert x in b && y in a;
      var c, d := a[..|a| - 1], b[..|b| - 1];
      assert x == y;
      forall m: NoiseMode ensures m in c <==> m in d {
        assert m in c <==> m in a && m != x;
        assert m in d <==> m in b && m != y;
      }
      CanonicalIsUnique(c, d);
    }
  }

  /** A cycle reads back with the same modes, in canonical order. */
  lemma CycleReadsBack(modes: seq<NoiseMode>)
    ensures SameModes(ModesFromMask(MaskOf(modes)), modes)
    ensures ModesFromMask(MaskOf(modes)) == modes <==> Canonical(modes)
    ensures MaskOf(modes) == 0 <==> modes == []
  {
    hide ModesFromMask, MaskOf, HasBit, Canonical;
    ModesAreCanonical(MaskOf(modes));
    forall m: NoiseMode ensures m in ModesFromMask(MaskOf(modes)) <==> m in modes {
      MaskHas(modes, m);
    }
    if Canonical(modes) {
      CanonicalIsUnique(ModesFromMask(MaskOf(modes)), modes);
    }
    NoModes(modes);
  }

  lemma NoModes(modes: seq<NoiseMode>)
    ensures MaskOf(modes) == 0 <==> modes == []
  {
    if modes != [] {
      MaskHas(modes, modes[0]);
    }
  }

  lemma FrameReadsBack(setting: Setting)
    requires ValidSetting(setting)
    ensures EncodeSetting(setting).Some?
    ensures Decode(EncodeSetting(setting).value) == Ok(Control(SettingIs(Echo(setting))))
  {
    hide ModesFromMask, MaskOf, DecodeBattery, DecodeConnected, DecodeRelay;
    var data := SettingData(setting);
    var payload: seq<byte> := [SettingId(setting)] + data + seq(4 - |data|, _ => 0);
    var frame := ControlFrame(SettingId(setting), data);
    assert frame[..4] == PREFIX && frame[4] == 9 && frame[5] == 0;
    assert ACK_PREFIX[0] != PREFIX[0];
    assert frame[HEADER_LEN..] == payload && |payload| == 5;
    if setting.CallControlsAre? {
      assert payload[1] == 0 && payload[2] == data[1] && payload[3] == 0 && payload[4] == 0;
      assert payload[1..5] == [0x00, data[1], 0x00, 0x00];
    } else {
      assert payload[2..5] == [0, 0, 0];
    }
    if setting.ListeningModeCycle? {
      CycleReadsBack(setting.modes);
    }
  }

  // ---- reports

  lemma SameBits(a: byte, b: byte)
    requires a < 16 && b < 16 && forall m: NoiseMode :: (HasBit(a, BitOf(m)) <==> HasBit(b, BitOf(m)))
    ensures a == b
  {
    assert HasBit(a, BitOf(Off)) <==> HasBit(b, BitOf(Off));
    assert HasBit(a, BitOf(Anc)) <==> HasBit(b, BitOf(Anc));
    assert HasBit(a, BitOf(Transparency)) <==> HasBit(b, BitOf(Transparency));
    assert HasBit(a, BitOf(Adaptive)) <==> HasBit(b, BitOf(Adaptive));
    FourBits(a);
    FourBits(b);
  }

  function Bit(mask: byte, bit: byte): nat
    requires bit > 0
  {
    if HasBit(mask, bit) then bit else 0
  }

  lemma FourBits(a: byte)
    requires a < 16
    ensures a == Bit(a, 1) + Bit(a, 2) + Bit(a, 4) + Bit(a, 8)
  {
    assert a / 2 == a / 4 * 2 + a / 2 % 2 && a / 4 == a / 8 * 2 + a / 4 % 2;
  }

  /** A mask and the list of its modes in canonical order say the same. */
  lemma MaskIff(mask: byte, modes: seq<NoiseMode>)
    requires mask < 16
    ensures ModesFromMask(mask) == modes <==> Canonical(modes) && MaskOf(modes) == mask
  {
    ModesAreCanonical(mask);
    CycleReadsBack(modes);
    hide MaskOf, ModesFromMask, HasBit, Canonical;
    if ModesFromMask(mask) == modes {
      forall m: NoiseMode ensures HasBit(MaskOf(modes), BitOf(m)) <==> HasBit(mask, BitOf(m)) {
        MaskHas(modes, m);
      }
      SameBits(MaskOf(modes), mask);
    }
  }

  /** The four octets after the identifier, zeros after what the setting says. */
  function Padded(setting: Setting): (data: seq<byte>)
    ensures |data| == 4
  {
    SettingData(setting) + seq(4 - |SettingData(setting)|, _ => 0)
  }

  /**
   A report of a typed setting, byte for byte: it reads as a setting exactly when it says what a write of that
   setting says, the modes of a cycle being given in canonical order and not empty.
   */
  lemma ReportIff(id: byte, data: seq<byte>, setting: Setting)
    requires TypedSetting(id) && |data| == 4
    ensures DecodeTyped(id, [id] + data) == Some(setting)
       <==> id == SettingId(setting) && data == Padded(setting) && KeepsOrder(setting)
            && setting != ListeningModeCycle([])
  {
    hide MaskOf, ModesFromMask, Canonical;
    if setting.ListeningModeCycle? {
      CycleReport(id, data, setting);
    } else if setting.CallControlsAre? {
      CallReport(id, data, setting);
    } else {
      PaddedIs(data, setting);
      hide Padded;
      var payload := [id] + data;
      assert payload[2..5] == data[1..] && payload[1] == data[0];
    }
  }

  lemma CallReport(id: byte, data: seq<byte>, setting: Setting)
    requires |data| == 4 && setting.CallControlsAre?
    ensures DecodeTyped(id, [id] + data) == Some(setting) <==> id == SettingId(setting) && data == Padded(setting)
  {
    hide ModesFromMask;
    var payload := [id] + data;
    PaddedIs(data, setting);
    hide Padded;
    assert SettingData(setting) + [0, 0] == if setting.calls.MuteOnceHangupTwice? then [0, 3, 0, 0] else [0, 2, 0, 0];
    if id == CTL_CALL_CONTROLS {
      assert payload[1..5] == data;
      assert DecodeTyped(id, payload) == if data == [0, 3, 0, 0] then Some(CallControlsAre(MuteOnceHangupTwice))
                                         else if data == [0, 2, 0, 0] then Some(CallControlsAre(HangupOnceMuteTwice))
                                         else None;
      assert [0, 3, 0, 0][1] != [0, 2, 0, 0][1];
    }
  }

  lemma CycleReport(id: byte, data: seq<byte>, setting: Setting)
    requires |data| == 4 && setting.ListeningModeCycle?
    ensures DecodeTyped(id, [id] + data) == Some(setting)
       <==> id == SettingId(setting) && data == Padded(setting) && KeepsOrder(setting) && setting.modes != []
  {
    hide MaskOf, ModesFromMask, Canonical;
    var payload := [id] + data;
    PaddedIs(data, setting);
    NoModes(setting.modes);
    hide Padded;
    assert SettingData(setting) == [MaskOf(setting.modes)];
    if id == CTL_LISTENING_MODE_CYCLE {
      assert payload[2..5] == data[1..] && payload[1] == data[0];
      if data[0] < 16 {
        MaskIff(data[0], setting.modes);
      }
      assert DecodeTyped(id, payload) == if data[1..] == [0, 0, 0] && 0 < data[0] < 16
                                         then Some(ListeningModeCycle(ModesFromMask(data[0]))) else None;
    }
  }

  lemma PaddedIs(data: seq<byte>, setting: Setting)
    requires |data| == 4
    ensures !setting.CallControlsAre? ==>
      (data == Padded(setting) <==> data[0] == SettingData(setting)[0] && data[1..] == [0, 0, 0])
    ensures setting.CallControlsAre? ==> (data == Padded(setting) <==> data == SettingData(setting) + [0, 0])
  {
    hide MaskOf;
    if !setting.CallControlsAre? {
      assert Padded(setting)[1..] == [0, 0, 0];
      assert data == [data[0]] + data[1..];
    }
  }

  /** What a report of a typed setting reads as, and what of it is kept when it says nothing known. */
  lemma ReportReadsBack(id: byte, data: seq<byte>)
    requires TypedSetting(id) && |data| >= 4
    ensures var s := DecodeTyped(id, [id] + data[..4]);
            var said := if |data| == 4 && s.Some? then SettingIs(s.value) else OtherControl(id, data[0]);
            Decode(Frame(OP_CONTROL, [id] + data)) == Ok(Control(said))
  {
    hide DecodeTyped, DecodeBattery, DecodeConnected, DecodeRelay;
    var payload := [id] + data;
    var frame := Frame(OP_CONTROL, payload);
    assert frame[..4] == PREFIX && frame[4] == 9 && frame[5] == 0 && ACK_PREFIX[0] != PREFIX[0];
    assert frame[HEADER_LEN..] == payload;
    if |data| == 4 {
      assert data[..4] == data;
    }
  }

  /** The setting the accessory echoes is the one written, except for a cycle that is not in canonical order. */
  lemma SettingRoundTripIff(setting: Setting)
    requires ValidSetting(setting)
    ensures EncodeSetting(setting).Some?
    ensures Decode(EncodeSetting(setting).value) == Ok(Control(SettingIs(setting))) <==> KeepsOrder(setting)
  {
    hide Decode, EncodeSetting, ModesFromMask, MaskOf;
    FrameReadsBack(setting);
    if setting.ListeningModeCycle? {
      CycleReadsBack(setting.modes);
    }
  }

  lemma {:induction false} TextsTellModes(a: seq<NoiseMode>, b: seq<NoiseMode>)
    requires ModeTexts(a) == ModeTexts(b)
    ensures a == b
  {
    assert |a| == |ModeTexts(a)| && |b| == |ModeTexts(b)|;
    forall i | 0 <= i < |a| ensures a[i] == b[i] {
      assert ModeTexts(a)[i] == ModeText(a[i]) && ModeTexts(b)[i] == ModeText(b[i]);
    }
  }

  /**
   Write a setting, let the accessory report exactly what it took, and close the readback: the verdict is confirmed
   if and only if the request keeps its order. A cycle asked for in any other order is called a mismatch although
   the accessory has the modes it was asked for.
   */
  lemma EchoConfirmsIff(s: Store.State, setting: Setting)
    requires ValidSetting(setting)
    ensures var asked := Store.Step(s, Store.SettingRequested(setting));
            var told := Store.Step(asked, Store.SettingReport(Echo(setting)));
            var done := Store.Step(told, Store.VerifyCompleted);
            KeyOf(setting) in done.status
            && done.status[KeyOf(setting)] == (if KeepsOrder(setting) then Store.Confirmed else Store.Mismatch)
  {
    hide Store.Step, Echo, ModesFromMask, MaskOf, ModeTexts, ModeText, Canonical;
    var key := KeyOf(setting);
    var asked := Store.Step(s, Store.SettingRequested(setting));
    var told := Store.Step(asked, Store.SettingReport(Echo(setting)));
    EchoKeepsKey(setting);
    StoreRuns.RequestsStep(s, Store.SettingRequested(setting), key);
    StoreRuns.RequestsStep(asked, Store.SettingReport(Echo(setting)), key);
    StoreRuns.ReportsStep(asked, Store.SettingReport(Echo(setting)), key);
    StoreRuns.RequestsStep(told, Store.VerifyCompleted, key);
  }

  /** Noise cancelling first, then off: an accepted cycle that is not in canonical order. */
  const OUT_OF_ORDER: Setting := ListeningModeCycle([Anc, Off])

  /** An accepted request that the accessory carries out and echoes, and that is called a mismatch all the same. */
  lemma TakenCycleIsCalledMismatch(s: Store.State)
    ensures ValidSetting(OUT_OF_ORDER) && !KeepsOrder(OUT_OF_ORDER)
    ensures SameModes(Echo(OUT_OF_ORDER).modes, OUT_OF_ORDER.modes)
    ensures var asked := Store.Step(s, Store.SettingRequested(OUT_OF_ORDER));
            var told := Store.Step(asked, Store.SettingReport(Echo(OUT_OF_ORDER)));
            var done := Store.Step(told, Store.VerifyCompleted);
            ListeningModeCycleKey in done.status && done.status[ListeningModeCycleKey] == Store.Mismatch
  {
    hide Store.Step, ModesFromMask, MaskOf;
    var modes := OUT_OF_ORDER.modes;
    assert Rank(modes[0]) > Rank(modes[1]);
    CycleReadsBack(modes);
    EchoConfirmsIff(s, OUT_OF_ORDER);
  }

  lemma EchoKeepsKey(setting: Setting)
    ensures KeyOf(Echo(setting)) == KeyOf(setting)
    ensures ValueOf(Echo(setting)) == ValueOf(setting) <==> KeepsOrder(setting)
  {
    hide ModesFromMask, MaskOf, ModeTexts, Canonical;
    if setting.ListeningModeCycle? {
      CycleReadsBack(setting.modes);
      if ModeTexts(ModesFromMask(MaskOf(setting.modes))) == ModeTexts(setting.modes) {
        TextsTellModes(ModesFromMask(MaskOf(setting.modes)), setting.modes);
      }
    }
  }
}

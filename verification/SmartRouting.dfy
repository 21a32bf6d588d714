/** What another host makes of the smart-routing messages this one sends. */
module SmartRouting {
  import opened Prelude
  import opened Opack
  import opened Codec
  import Utf8

  /** What the accessory hands on: the same frame under the relay opcode. */
  function Relayed(frame: seq<byte>): seq<byte>
    requires |frame| >= HEADER_LEN
  {
    frame[4 := OP_SMART_ROUTING_RELAY]
  }

  /**
   A relayed frame decodes to the address it carries and its body, clipped to what the length field can say; of a
   frame that arrives short, to as much of the body as arrived, or to an error without a whole address and length.
   */
  lemma RelayRoundTrip(target: Address, body: seq<byte>, n: nat)
    requires n <= |SmartRoutingFrame(target, body)|
    ensures |SmartRoutingFrame(target, body)| == 14 + |body|
    ensures var arrived := Relayed(SmartRoutingFrame(target, body))[..n];
            var kept := if |body| < 0x1_0000 then |body| else 0xFFFF;
            Decode(arrived) == if n < 14 then Truncated
                               else Ok(Packet.SmartRouting(target, body[..if n - 14 < kept then n - 14 else kept]))
  {
    hide DecodeBattery, DecodeControl, DecodeConnected;
    var frame := SmartRoutingFrame(target, body);
    var kept := if |body| < 0x1_0000 then |body| else 0xFFFF;
    var arrived := Relayed(frame)[..n];
    if n >= HEADER_LEN {
      var payload := arrived[HEADER_LEN..];
      assert arrived[..4] == PREFIX;
      assert arrived[4] == 0x11 && arrived[5] == 0;
      assert ACK_PREFIX[0] != PREFIX[0];
      if n >= 14 {
        assert payload[6] == kept % 256 && payload[7] == kept / 256;
        assert payload[8..] == body[..n - 14];
        assert payload[0] == target.b5 && payload[1] == target.b4 && payload[2] == target.b3;
        assert payload[3] == target.b2 && payload[4] == target.b1 && payload[5] == target.b0;
        assert payload[..6] == [target.b5, target.b4, target.b3, target.b2, target.b1, target.b0];
        assert AddressReversed(payload[..6]) == target;
        assert payload[8..][..if n - 14 < kept then n - 14 else kept]
            == body[..if n - 14 < kept then n - 14 else kept];
      }
    }
  }

  // ---- media information

  lemma {:induction false} MeaningAt(ns: seq<Node>, i: nat)
    requires RefsResolve(ns) && i < |ns|
    ensures Meanings(ns)[i] == Meaning(ns[i], Meanings(ns)[..i])
  {
    var before := ns[..|ns| - 1];
    if i < |before| {
      MeaningAt(before, i);
      assert Meanings(ns)[..i] == Meanings(before)[..i];
    } else {
      assert Meanings(ns)[..i] == Meanings(before);
    }
  }

  /** A ten-object dictionary, object by object. */
  lemma MeaningsOfTen(ns: seq<Node>)
    requires RefsResolve(ns) && |ns| == 10
    ensures var ms := Meanings(ns);
            Pairs(ms) == [Pair(ms[0], ms[1]), Pair(ms[2], ms[3]), Pair(ms[4], ms[5]), Pair(ms[6], ms[7]),
                          Pair(ms[8], ms[9])]
            && forall i :: 0 <= i < 10 ==> ms[i] == Meaning(ns[i], ms[..i])
  {
    hide Meanings, Meaning;
    forall i | 0 <= i < 10 ensures Meanings(ns)[i] == Meaning(ns[i], Meanings(ns)[..i]) {
      MeaningAt(ns, i);
    }
  }

  function CutText(s: string): Node {
    Str(Utf8.Cut(s, SHORT_STRING))
  }

  lemma MeansWhole(s: string)
    requires |s| <= SHORT_STRING && Utf8.Ascii(s)
    ensures CutText(s) == Str(s)
  {
    Utf8.AsciiFits(s, SHORT_STRING);
  }

  /**
   For every application and host name, the message reads back to exactly its five pairs, the two names cut to
   their longest whole-character prefix of at most 32 octets and everything else whole.
   */
  lemma MediaInfoReadsBack(local: Address, app: string, streaming: bool, btName: string)
    ensures ReadBody(Body(MediaInfoNodes(local, app, streaming, btName)))
         == Some([Pair(Str("PlayingApp"), CutText(app)),
                  Pair(Str("HostStreamingState"), Str(if streaming then "YES" else "NO")),
                  Pair(Str("btAddress"), Str(AddressText(local))),
                  Pair(Str("btName"), CutText(btName)),
                  Pair(Str("otherDeviceAudioCategory"), Num(301))])
  {
    hide Utf8.Cut, Meanings, ReadBody, Body, AddressText;
    var ns := MediaInfoNodes(local, app, streaming, btName);
    BodyRoundTrip(ns);
    MeaningsOfTen(ns);
    MediaInfoTexts(local, streaming);
    var ms := Meanings(ns);
    assert ms[0] == Str("PlayingApp") && ms[1] == CutText(app) && ms[2] == Str("HostStreamingState");
    assert ms[3] == Str(if streaming then "YES" else "NO") && ms[4] == Str("btAddress");
    assert ms[5] == Str(AddressText(local)) && ms[6] == Str("btName") && ms[7] == CutText(btName);
    assert ms[8] == Str("otherDeviceAudioCategory") && ms[9] == Num(301);
  }

  lemma MediaInfoTexts(local: Address, streaming: bool)
    ensures CutText("PlayingApp") == Str("PlayingApp") && CutText("HostStreamingState") == Str("HostStreamingState")
    ensures CutText(if streaming then "YES" else "NO") == Str(if streaming then "YES" else "NO")
    ensures CutText("btAddress") == Str("btAddress") && CutText(AddressText(local)) == Str(AddressText(local))
    ensures CutText("btName") == Str("btName")
    ensures CutText("otherDeviceAudioCategory") == Str("otherDeviceAudioCategory")
  {
    hide CutText, AddressText;
    MeansWhole("PlayingApp");
    MeansWhole("HostStreamingState");
    MeansWhole(if streaming then "YES" else "NO");
    MeansWhole("btAddress");
    MeansWhole(AddressText(local));
    MeansWhole("btName");
    MeansWhole("otherDeviceAudioCategory");
  }

  /** The request to yield reads back with both scores 301: the back-reference names the score printed before. */
  lemma HijackReadsBack()
    ensures ReadBody(Body(HijackNodes()))
         == Some([Pair(Str("localscore"), Num(100)), Pair(Str("reason"), Str("Hijackv2")),
                  Pair(Str("audioRoutingScore"), Num(301)), Pair(Str(OWNERSHIP_TO_FALSE), Yes),
                  Pair(Str("remotescore"), Num(301))])
  {
    hide Utf8.Cut, Meanings, ReadBody, Body;
    var ns := HijackNodes();
    BodyRoundTrip(ns);
    MeaningsOfTen(ns);
    HijackTexts();
    var ms := Meanings(ns);
    assert ms[0] == Str("localscore") && ms[1] == Num(100) && ms[2] == Str("reason") && ms[3] == Str("Hijackv2");
    assert ms[4] == Str("audioRoutingScore") && ms[5] == Num(301) && ms[6] == Str(OWNERSHIP_TO_FALSE);
    assert ms[7] == Yes && ms[8] == Str("remotescore") && ms[9] == Meaning(ns[9], ms[..9]);
  }

  lemma HijackTexts()
    ensures CutText("localscore") == Str("localscore") && CutText("reason") == Str("reason")
    ensures CutText("Hijackv2") == Str("Hijackv2") && CutText("audioRoutingScore") == Str("audioRoutingScore")
    ensures CutText(OWNERSHIP_TO_FALSE) == Str(OWNERSHIP_TO_FALSE) && CutText("remotescore") == Str("remotescore")
  {
    hide CutText;
    MeansWhole("localscore");
    MeansWhole("reason");
    MeansWhole("Hijackv2");
    MeansWhole("audioRoutingScore");
    MeansWhole(OWNERSHIP_TO_FALSE);
    MeansWhole("remotescore");
  }

  /** What a newcomer is told about the media here reads back whole but for the name of this host. */
  lemma NewDeviceReadsBack(local: Address, btName: string)
    ensures ReadBody(Body(NewDeviceNodes(local, btName)))
         == Some([Pair(Str("playingApp"), Str("NA")), Pair(Str("hostStreamingState"), Str("NO")),
                  Pair(Str("btAddress"), Str(AddressText(local))), Pair(Str("btName"), CutText(btName)),
                  Pair(Str("otherDeviceAudioCategory"), Num(100))])
  {
    hide Utf8.Cut, Meanings, ReadBody, Body, AddressText;
    var ns := NewDeviceNodes(local, btName);
    BodyRoundTrip(ns);
    MeaningsOfTen(ns);
    NewDeviceTexts(local);
    var ms := Meanings(ns);
    assert ms[0] == Str("playingApp") && ms[1] == Str("NA") && ms[2] == Str("hostStreamingState");
    assert ms[3] == Str("NO") && ms[4] == Str("btAddress") && ms[5] == Str(AddressText(local));
    assert ms[6] == Str("btName") && ms[7] == CutText(btName);
    assert ms[8] == Str("otherDeviceAudioCategory") && ms[9] == Num(100);
  }

  lemma NewDeviceTexts(local: Address)
    ensures CutText("playingApp") == Str("playingApp") && CutText("hostStreamingState") == Str("hostStreamingState")
    ensures CutText("NA") == Str("NA") && CutText("NO") == Str("NO")
    ensures CutText("btAddress") == Str("btAddress") && CutText(AddressText(local)) == Str(AddressText(local))
    ensures CutText("btName") == Str("btName")
    ensures CutText("otherDeviceAudioCategory") == Str("otherDeviceAudioCategory")
  {
    hide CutText, AddressText;
    MeansWhole("playingApp");
    MeansWhole("hostStreamingState");
    MeansWhole("NA");
    MeansWhole("NO");
    MeansWhole("btAddress");
    MeansWhole(AddressText(local));
    MeansWhole("btName");
    MeansWhole("otherDeviceAudioCategory");
  }

  /** So does the introduction. */
  lemma NewTipiReadsBack(local: Address, btName: string)
    ensures ReadBody(Body(NewTipiNodes(local, btName)))
         == Some([Pair(Str("idleTime"), Num(0)), Pair(Str("newTipi"), Yes),
                  Pair(Str("btAddress"), Str(AddressText(local))), Pair(Str("btName"), CutText(btName)),
                  Pair(Str("nearbyAudioScore"), Num(6))])
  {
    hide Utf8.Cut, Meanings, ReadBody, Body, AddressText;
    var ns := NewTipiNodes(local, btName);
    BodyRoundTrip(ns);
    MeaningsOfTen(ns);
    NewTipiTexts(local);
    var ms := Meanings(ns);
    assert ms[0] == Str("idleTime") && ms[1] == Num(0) && ms[2] == Str("newTipi") && ms[3] == Yes;
    assert ms[4] == Str("btAddress") && ms[5] == Str(AddressText(local)) && ms[6] == Str("btName");
    assert ms[7] == CutText(btName) && ms[8] == Str("nearbyAudioScore") && ms[9] == Num(6);
  }

  lemma NewTipiTexts(local: Address)
    ensures CutText("idleTime") == Str("idleTime") && CutText("newTipi") == Str("newTipi")
    ensures CutText("btAddress") == Str("btAddress") && CutText(AddressText(local)) == Str(AddressText(local))
    ensures CutText("btName") == Str("btName") && CutText("nearbyAudioScore") == Str("nearbyAudioScore")
  {
    hide CutText, AddressText;
    MeansWhole("idleTime");
    MeansWhole("newTipi");
    MeansWhole("btAddress");
    MeansWhole(AddressText(local));
    MeansWhole("btName");
    MeansWhole("nearbyAudioScore");
  }

  // ---- who yields to what

  /** An octet the key does not contain separates what comes before it from what comes after. */
  lemma Barrier(key: seq<byte>, p: seq<byte>, c: byte, q: seq<byte>)
    requires key != [] && c !in key
    ensures Occurs(key, p + [c] + q) <==> Occurs(key, p) || Occurs(key, q)
  {
    var b := p + [c] + q;
    if Occurs(key, b) {
      var i: nat :| OccursAt(key, b, i);
      assert forall m :: i <= m < i + |key| ==> b[m] in key by {
        assert forall m :: i <= m < i + |key| ==> b[m] == b[i..i + |key|][m - i];
      }
      assert b[|p|] == c;
      if i + |key| <= |p| {
        assert OccursAt(key, p, i) by { assert p[i..i + |key|] == b[i..i + |key|]; }
      } else {
        var k := i - |p| - 1;
        assert OccursAt(key, q, k) by {
          assert b[|p| + 1..] == q;
          assert q[k..k + |key|] == b[|p| + 1..][k..k + |key|];
        }
      }
    }
    if Occurs(key, p) {
      var i: nat :| OccursAt(key, p, i);
      assert OccursAt(key, b, i) by { assert p[i..i + |key|] == b[i..i + |key|]; }
    }
    if Occurs(key, q) {
      var k: nat :| OccursAt(key, q, k);
      var i := |p| + 1 + k;
      assert OccursAt(key, b, i) by { assert b[|p| + 1..] == q; assert q[k..k + |key|] == b[|p| + 1..][k..k + |key|]; }
    }
  }

  /** An octet in front that does not start the key does not matter. */
  lemma DropFirst(key: seq<byte>, c: byte, q: seq<byte>)
    requires key != [] && c != key[0]
    ensures Occurs(key, [c] + q) <==> Occurs(key, q)
  {
    var b := [c] + q;
    if Occurs(key, b) {
      var i: nat :| OccursAt(key, b, i);
      assert b[i..i + |key|][0] == key[0];
      assert OccursAt(key, q, i - 1) by { assert q[i - 1..i - 1 + |key|] == b[i..i + |key|]; }
    }
    if Occurs(key, q) {
      var i: nat :| OccursAt(key, q, i);
      assert OccursAt(key, b, i + 1) by { assert q[i..i + |key|] == b[i + 1..i + 1 + |key|]; }
    }
  }

  /** Nor does one at the end that does not end it. */
  lemma DropLast(key: seq<byte>, p: seq<byte>, c: byte)
    requires key != [] && c != key[|key| - 1]
    ensures Occurs(key, p + [c]) <==> Occurs(key, p)
  {
    var b := p + [c];
    if Occurs(key, b) {
      var i: nat :| OccursAt(key, b, i);
      assert b[i..i + |key|][|key| - 1] == key[|key| - 1];
      assert OccursAt(key, p, i) by { assert p[i..i + |key|] == b[i..i + |key|]; }
    }
    if Occurs(key, p) {
      var i: nat :| OccursAt(key, p, i);
      assert OccursAt(key, b, i) by { assert p[i..i + |key|] == b[i..i + |key|]; }
    }
  }

  lemma KeyIs()
    ensures |Key()| == 31 && Key()[0] == 0x61 && Key()[30] == 0x65
    ensures 0x41 !in Key() && 0x48 !in Key() && 0x49 !in Key() && 0x51 !in Key() && 0x62 !in Key() && 0x6D !in Key()
    ensures 0x58 !in Key()
  {
  }

  lemma PrintsPlain(s: string)
    requires Utf8.Ascii(s) && |s| <= SHORT_STRING
    ensures PrintNode(Str(s)) == [0x40 + |s|] + Utf8.Bytes(s)
  {
    Utf8.AsciiBytes(s);
    Utf8.AsciiFits(s, SHORT_STRING);
  }

  lemma Short(key: seq<byte>, b: seq<byte>)
    requires |b| < |key|
    ensures !Occurs(key, b)
  {}

  /** A printed constant with an octet foreign to the key separates what is around it. */
  lemma PlainStep(pre: seq<byte>, s: string, k: nat, rest: seq<byte>)
    requires Utf8.Ascii(s) && k < |s| <= SHORT_STRING && s[k] as nat !in Key() && Key() != []
    ensures Occurs(Key(), pre + PrintNode(Str(s)) + rest)
       <==> Occurs(Key(), pre + [0x40 + |s|] + Utf8.Bytes(s[..k])) || Occurs(Key(), Utf8.Bytes(s[k + 1..]) + rest)
  {
    hide Key, Occurs, PrintNode;
    PrintsPlain(s);
    var p, q := pre + [0x40 + |s|] + Utf8.Bytes(s[..k]), Utf8.Bytes(s[k + 1..]) + rest;
    assert Utf8.Bytes(s) == Utf8.Bytes(s[..k]) + [s[k] as nat] + Utf8.Bytes(s[k + 1..]);
    Barrier(Key(), p, s[k] as nat, q);
    assert pre + PrintNode(Str(s)) + rest == p + [s[k] as nat] + q;
  }

  /** The tag in front of a printed text cannot start the key. */
  lemma TagStep(s: string, rest: seq<byte>)
    ensures Occurs(Key(), PrintNode(Str(s)) + rest) <==> Occurs(Key(), CutBytes(s) + rest)
  {
    hide Key, Occurs;
    KeyIs();
    assert PrintNode(Str(s)) + rest == [0x40 + |CutBytes(s)|] + (CutBytes(s) + rest);
    DropFirst(Key(), 0x40 + |CutBytes(s)|, CutBytes(s) + rest);
  }

  lemma FromLast(btName: string)
    ensures Occurs(Key(), CutBytes(btName) + (PrintNode(Str("otherDeviceAudioCategory")) + PrintNode(Num(301))))
       <==> Occurs(Key(), CutBytes(btName))
  {
    hide Key, Occurs, CutBytes;
    KeyIs();
    PrintsPlain("otherDeviceAudioCategory");
    assert |PrintNode(Num(301))| == 3;
    var b, last := CutBytes(btName), Utf8.Bytes("otherDeviceAudioCategory") + PrintNode(Num(301));
    hide PrintNode;
    Regroup([0x58], Utf8.Bytes("otherDeviceAudioCategory"), PrintNode(Num(301)));
    Regroup(b, [0x58], last);
    Barrier(Key(), b, 0x58, last);
    Short(Key(), last);
  }

  lemma FromName(pre: seq<byte>, btName: string, rest: seq<byte>)
    requires |pre| < 26
    ensures Occurs(Key(), pre + PrintNode(Str("btName")) + (PrintNode(Str(btName)) + rest))
       <==> Occurs(Key(), CutBytes(btName) + rest)
  {
    hide Key, Occurs, CutBytes, PrintNode;
    KeyIs();
    var after := PrintNode(Str(btName)) + rest;
    PlainStep(pre, "btName", 4, after);
    Short(Key(), pre + [0x46] + Utf8.Bytes("btName"[..4]));
    assert Utf8.Bytes("btName"[5..]) + after == [0x65] + after;
    DropFirst(Key(), 0x65, after);
    TagStep(btName, rest);
  }

  function HostRest(): seq<byte> {
    Utf8.Bytes("ostStreamingState")
  }

  function AddressRest(): seq<byte> {
    Utf8.Bytes("ddress")
  }

  lemma FromStreaming(streaming: bool, rest: seq<byte>)
    ensures Occurs(Key(), HostRest() + PrintNode(Str(if streaming then "YES" else "NO"))
                          + PrintNode(Str("btAddress")) + rest)
       <==> Occurs(Key(), AddressRest() + rest)
  {
    hide Key, Occurs, PrintNode;
    KeyIs();
    PrintsPlain(if streaming then "YES" else "NO");
    var pre := HostRest() + PrintNode(Str(if streaming then "YES" else "NO"));
    PlainStep(pre, "btAddress", 2, rest);
    Short(Key(), pre + [0x49] + Utf8.Bytes("btAddress"[..2]));
    assert Utf8.Bytes("btAddress"[3..]) == AddressRest() by { assert "btAddress"[3..] == "ddress"; }
  }

  lemma FromStart(app: string, rest: seq<byte>)
    ensures Occurs(Key(), [0x01, 0xE5] + PrintNode(Str("PlayingApp")) + (PrintNode(Str(app)) + rest))
       <==> Occurs(Key(), CutBytes(app) + rest)
  {
    hide Key, Occurs, PrintNode, CutBytes;
    KeyIs();
    var after := PrintNode(Str(app)) + rest;
    PlainStep([0x01, 0xE5], "PlayingApp", 7, after);
    Short(Key(), [0x01, 0xE5] + [0x4A] + Utf8.Bytes("PlayingApp"[..7]));
    assert Utf8.Bytes("PlayingApp"[8..]) + after == [0x70] + ([0x70] + after);
    DropFirst(Key(), 0x70, [0x70] + after);
    DropFirst(Key(), 0x70, after);
    TagStep(app, rest);
  }

  lemma FromApp(app: seq<byte>, rest: seq<byte>)
    ensures Occurs(Key(), app + PrintNode(Str("HostStreamingState")) + rest)
       <==> Occurs(Key(), app) || Occurs(Key(), HostRest() + rest)
  {
    hide Key, Occurs, PrintNode;
    KeyIs();
    PlainStep(app, "HostStreamingState", 0, rest);
    assert app + [0x52] + Utf8.Bytes("HostStreamingState"[..0]) == app + [0x52];
    DropLast(Key(), app, 0x52);
    assert Utf8.Bytes("HostStreamingState"[1..]) == HostRest() by {
      assert "HostStreamingState"[1..] == "ostStreamingState";
    }
  }

  lemma PrintsFrom(ns: seq<Node>, i: nat)
    requires AllPrintable(ns) && i < |ns|
    ensures PrintNodes(ns[i..]) == PrintNode(ns[i]) + PrintNodes(ns[i + 1..])
  {
    hide PrintNode, PrintNodes;
    PrintFirst(ns[i..]);
    assert ns[i..][1..] == ns[i + 1..];
  }

  lemma LastTwo(ns: seq<Node>)
    requires AllPrintable(ns) && |ns| == 2
    ensures PrintNodes(ns) == PrintNode(ns[0]) + PrintNode(ns[1])
  {
    hide PrintNode;
    assert ns[..1][..0] == [];
    assert PrintNodes(ns[..1]) == PrintNode(ns[0]);
  }

  lemma Regroup(a: seq<byte>, b: seq<byte>, c: seq<byte>)
    ensures a + (b + c) == a + b + c
  {}

  /**
   Exactly when a media-information message makes its receiver yield: the receiver searches the body for the
   ownership key, and only the two names are free text, so one of them as cut must spell the key.
   */
  lemma MediaInfoYieldsIff(local: Address, app: string, streaming: bool, btName: string)
    ensures Occurs(Key(), Body(MediaInfoNodes(local, app, streaming, btName)))
       <==> Occurs(Key(), CutBytes(app)) || Occurs(Key(), CutBytes(btName))
  {
    hide Key, Occurs, PrintNode, CutBytes, PrintNodes, AddressText;
    var ns := MediaInfoNodes(local, app, streaming, btName);
    forall i | 0 <= i < 10 ensures PrintNodes(ns[i..]) == PrintNode(ns[i]) + PrintNodes(ns[i + 1..]) {
      PrintsFrom(ns, i);
    }
    assert ns[0..] == ns;
    Regroup([0x01, 0xE5], PrintNode(ns[0]), PrintNodes(ns[1..]));
    FromStart(app, PrintNodes(ns[2..]));
    Regroup(CutBytes(app), PrintNode(ns[2]), PrintNodes(ns[3..]));
    FromApp(CutBytes(app), PrintNodes(ns[3..]));
    var pre := HostRest();
    Regroup(pre, PrintNode(ns[3]), PrintNodes(ns[4..]));
    Regroup(pre + PrintNode(ns[3]), PrintNode(ns[4]), PrintNodes(ns[5..]));
    FromStreaming(streaming, PrintNodes(ns[5..]));
    Regroup(AddressRest(), PrintNode(ns[5]), PrintNodes(ns[6..]));
    Regroup(AddressRest() + PrintNode(ns[5]), PrintNode(ns[6]), PrintNodes(ns[7..]));
    PrintsPlain(AddressText(local));
    FromName(AddressRest() + PrintNode(ns[5]), btName, PrintNodes(ns[8..]));
    assert PrintNodes(ns[8..]) == PrintNode(ns[8]) + PrintNode(ns[9]) by {
      LastTwo(ns[8..]);
    }
    FromLast(btName);
  }

  /** A player whose name is the key itself: telling another host about it makes that host yield. */
  lemma KeyAsNameYields(local: Address, streaming: bool, btName: string)
    ensures Occurs(Key(), Body(MediaInfoNodes(local, OWNERSHIP_TO_FALSE, streaming, btName)))
  {
    hide PrintNode, Body, AddressText;
    assert CutBytes(OWNERSHIP_TO_FALSE) == Key() by {
      Utf8.AsciiFits(OWNERSHIP_TO_FALSE, SHORT_STRING);
      Utf8.AsciiBytes(OWNERSHIP_TO_FALSE);
    }
    hide CutBytes, Key;
    assert OccursAt(Key(), Key(), 0);
    MediaInfoYieldsIff(local, OWNERSHIP_TO_FALSE, streaming, btName);
  }

  lemma KeyPrints()
    ensures PrintNode(Str(OWNERSHIP_TO_FALSE)) == [0x5F] + Key()
  {
    PrintsPlain(OWNERSHIP_TO_FALSE);
  }

  /** The request to yield is always recognised as one. */
  lemma HijackYields()
    ensures Occurs(Key(), Body(HijackNodes()))
  {
    hide PrintNode, PrintNodes, Key;
    var ns := HijackNodes();
    forall i | 0 <= i < 7 ensures PrintNodes(ns[i..]) == PrintNode(ns[i]) + PrintNodes(ns[i + 1..]) {
      PrintsFrom(ns, i);
    }
    assert ns[0..] == ns;
    KeyPrints();
    Later([0x5F], Key() + PrintNodes(ns[7..]));
    assert OccursAt(Key(), Key() + PrintNodes(ns[7..]), 0);
    Regroup([0x5F], Key(), PrintNodes(ns[7..]));
    Later(PrintNode(ns[5]), PrintNodes(ns[6..]));
    Later(PrintNode(ns[4]), PrintNodes(ns[5..]));
    Later(PrintNode(ns[3]), PrintNodes(ns[4..]));
    Later(PrintNode(ns[2]), PrintNodes(ns[3..]));
    Later(PrintNode(ns[1]), PrintNodes(ns[2..]));
    Later(PrintNode(ns[0]), PrintNodes(ns[1..]));
    Later([0x01, 0xE5], PrintNodes(ns));
  }

  lemma Later(pre: seq<byte>, b: seq<byte>)
    ensures Occurs(Key(), b) ==> Occurs(Key(), pre + b)
  {
    hide Key;
    if Occurs(Key(), b) {
      var i: nat :| OccursAt(Key(), b, i);
      assert (pre + b)[|pre| + i..|pre| + i + |Key()|] == b[i..i + |Key()|];
      assert OccursAt(Key(), pre + b, |pre| + i);
    }
  }
}

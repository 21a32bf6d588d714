/** The OPACK subset of smart-routing bodies: the printer the daemon uses, and a reader to judge it by. */
module Opack {
  import opened Prelude
  import Utf8

  /** Octets of a string under a single tag octet. */
  const SHORT_STRING: nat := 32

  /** One object as it is handed to the printer. `Ref(i)` repeats the object printed as number `i`. */
  datatype Node = Str(text: string) | Num(value: nat) | Yes | Ref(index: nat)

  predicate Printable(n: Node) {
    (n.Num? ==> n.value < 0x1_0000) && (n.Ref? ==> n.index < 33)
  }

  function PrintNode(n: Node): seq<byte>
    requires Printable(n)
  {
    match n
    case Str(s) => [0x40 + |CutBytes(s)|] + CutBytes(s)
    case Num(v) => if v <= 39 then [0x08 + v] else if v <= 127 then [0x30, v] else [0x31, v % 256, v / 256]
    case Yes => [0x01]
    case Ref(i) => [0xA0 + i]
  }

  /** A text as printed: its longest whole-character prefix of at most 32 octets. */
  function CutBytes(s: string): (b: seq<byte>)
    ensures |b| <= SHORT_STRING
  {
    CutIsShort(s);
    Utf8.Encode(Utf8.Cut(s, SHORT_STRING))
  }

  lemma CutIsShort(s: string)
    ensures |Utf8.Encode(Utf8.Cut(s, SHORT_STRING))| <= SHORT_STRING
  {
    Utf8.CutIsLongest(s, SHORT_STRING, Utf8.Fitting(s, SHORT_STRING));
  }

  lemma PrintsText(s: string)
    ensures PrintNode(Str(s)) == [0x40 + |CutBytes(s)|] + CutBytes(s)
  {}

  predicate AllPrintable(ns: seq<Node>) {
    forall i :: 0 <= i < |ns| ==> Printable(ns[i])
  }

  function PrintNodes(ns: seq<Node>): seq<byte>
    requires AllPrintable(ns)
  {
    if ns == [] then [] else PrintNodes(ns[..|ns| - 1]) + PrintNode(ns[|ns| - 1])
  }

  /** A smart-routing body: a constant octet, then one dictionary whose keys and values alternate in `ns`. */
  function Body(ns: seq<Node>): seq<byte>
    requires AllPrintable(ns) && |ns| < 30
  {
    [0x01, 0xE0 + |ns| / 2] + PrintNodes(ns)
  }

  // ---- the printer

  class Buffer {
    var data: seq<byte>
    ghost var nodes: seq<Node>
    const entries: nat

    ghost predicate Valid()
      reads this
    {
      entries < 15 && AllPrintable(nodes) && data == [0x01, 0xE0 + entries] + PrintNodes(nodes)
    }

    /** Start a body holding a dictionary of `entries` pairs. */
    constructor (entries: nat)
      requires entries < 15
      ensures Valid() && nodes == [] && this.entries == entries
    {
      this.entries := entries;
      data, nodes := [0x01, 0xE0 + entries], [];
    }

    /** Append a string, cut to its longest whole-character prefix of at most 32 octets. */
    method PutStr(s: string)
      requires Valid()
      modifies this
      ensures Valid() && nodes == old(nodes) + [Str(s)]
    {
      hide Utf8.Encode, Utf8.Cut, PrintNode;
      var bytes := Utf8.Encode(s);
      var end: nat := if |bytes| < SHORT_STRING then |bytes| else SHORT_STRING;
      while !Utf8.IsCharBoundary(bytes, end)
        invariant end <= |bytes| && end <= SHORT_STRING
        invariant forall i :: end < i <= |bytes| && i <= SHORT_STRING ==> !Utf8.IsCharBoundary(bytes, i)
        decreases end
      {
        end := end - 1;
      }
      Utf8.LastBoundary(s, SHORT_STRING, end);
      assert PrintNode(Str(s)) == [0x40 + end] + bytes[..end] by { PrintsText(s); }
      data := data + ([0x40 + end] + bytes[..end]);
      nodes := nodes + [Str(s)];
    }

    method PutNum(v: nat)
      requires Valid() && v < 0x1_0000
      modifies this
      ensures Valid() && nodes == old(nodes) + [Num(v)]
    {
      hide CutBytes;
      if v <= 39 {
        data := data + [0x08 + v];
      } else if v <= 127 {
        data := data + [0x30, v];
      } else {
        data := data + [0x31] + [v % 256, v / 256];
      }
      nodes := nodes + [Num(v)];
    }

    /** Append a key and its value. */
    method PutPair(key: string, value: Node)
      requires Valid() && Printable(value)
      modifies this
      ensures Valid() && nodes == old(nodes) + [Str(key), value]
    {
      PutStr(key);
      match value {
        case Str(s) => PutStr(s);
        case Num(v) => PutNum(v);
        case _ => PutTag(value);
      }
      assert old(nodes) + [Str(key), value] == old(nodes) + [Str(key)] + [value];
    }

    /** Once the announced number of pairs is in, the buffer holds a whole body. */
    lemma IsBody()
      requires Valid() && |nodes| == 2 * entries
      ensures data == Body(nodes)
    {}

    /** Append one of the single-octet objects. */
    method PutTag(n: Node)
      requires Valid() && (n.Yes? || n.Ref?) && Printable(n)
      modifies this
      ensures Valid() && nodes == old(nodes) + [n]
    {
      data := data + [if n.Yes? then 0x01 else 0xA0 + n.index];
      nodes := nodes + [n];
    }
  }

  // ---- the reader

  datatype Reading = Reading(node: Node, rest: seq<byte>)

  function ReadText(n: nat, b: seq<byte>): Option<Reading> {
    if |b| < n || Utf8.Decode(b[..n]).None? then None else Some(Reading(Str(Utf8.Decode(b[..n]).value), b[n..]))
  }

  /** Read one object; a back-reference is replaced by the object of that number among those read before. */
  function ReadNode(b: seq<byte>, seen: seq<Node>): Option<Reading> {
    if b == [] then None
    else if b[0] == 0x01 then Some(Reading(Yes, b[1..]))
    else if 0x08 <= b[0] <= 0x2F then Some(Reading(Num(b[0] - 0x08), b[1..]))
    else if b[0] == 0x30 && |b| >= 2 then Some(Reading(Num(b[1]), b[2..]))
    else if b[0] == 0x31 && |b| >= 3 then Some(Reading(Num(b[1] as nat + 256 * (b[2] as nat)), b[3..]))
    else if 0x40 <= b[0] <= 0x60 then ReadText(b[0] - 0x40, b[1..])
    else if 0xA0 <= b[0] <= 0xC0 && b[0] - 0xA0 < |seen| then Some(Reading(seen[b[0] - 0xA0], b[1..]))
    else None
  }

  /** Read `n` objects after `seen`, and nothing else. */
  function ReadNodes(b: seq<byte>, n: nat, seen: seq<Node>): Option<seq<Node>>
    decreases n
  {
    if n == 0 then (if b == [] then Some(seen) else None)
    else
      var r := ReadNode(b, seen);
      if r.None? then None else ReadNodes(r.value.rest, n - 1, seen + [r.value.node])
  }

  datatype Pair = Pair(key: Node, value: Node)

  function Pairs(ns: seq<Node>): (ps: seq<Pair>)
    requires |ns| % 2 == 0
    ensures |ps| == |ns| / 2
  {
    seq(|ns| / 2, i requires 0 <= i < |ns| / 2 => Pair(ns[2 * i], ns[2 * i + 1]))
  }

  /** The pairs of a smart-routing body. */
  function ReadBody(b: seq<byte>): Option<seq<Pair>> {
    if |b| < 2 || b[0] != 0x01 || !(0xE0 <= b[1] < 0xEF) then None
    else
      var ns := ReadNodes(b[2..], 2 * (b[1] - 0xE0), []);
      if ns.None? || |ns.value| % 2 != 0 then None else Some(Pairs(ns.value))
  }

  // ---- the round trip

  /** What a printed object stands for: text as cut, a back-reference as the object it names. */
  function Meaning(n: Node, seen: seq<Node>): Node
    requires n.Ref? ==> n.index < |seen|
  {
    match n
    case Str(s) => Str(Utf8.Cut(s, SHORT_STRING))
    case Num(v) => Num(v)
    case Yes => Yes
    case Ref(i) => seen[i]
  }

  predicate RefsResolve(ns: seq<Node>) {
    forall i :: 0 <= i < |ns| ==> ns[i].Ref? ==> ns[i].index < i
  }

  function Meanings(ns: seq<Node>): (ms: seq<Node>)
    requires RefsResolve(ns)
    ensures |ms| == |ns|
  {
    if ns == [] then []
    else
      var before := Meanings(ns[..|ns| - 1]);
      before + [Meaning(ns[|ns| - 1], before)]
  }

  lemma TextRoundTrip(s: string, rest: seq<byte>)
    ensures ReadText(|CutBytes(s)|, CutBytes(s) + rest) == Some(Reading(Str(Utf8.Cut(s, SHORT_STRING)), rest))
  {
    hide Utf8.Encode, Utf8.Cut, Utf8.Decode;
    Utf8.RoundTrip(Utf8.Cut(s, SHORT_STRING));
    assert (CutBytes(s) + rest)[..|CutBytes(s)|] == CutBytes(s);
  }

  lemma NodeRoundTrip(n: Node, seen: seq<Node>, rest: seq<byte>)
    requires Printable(n) && (n.Ref? ==> n.index < |seen|)
    ensures ReadNode(PrintNode(n) + rest, seen) == Some(Reading(Meaning(n, seen), rest))
  {
    hide CutBytes, ReadText, Utf8.Cut;
    var b := PrintNode(n) + rest;
    match n
    case Str(s) =>
      assert b[1..] == CutBytes(s) + rest;
      TextRoundTrip(s, rest);
    case Num(v) =>
      assert v > 127 ==> b[3..] == rest;
    case Yes =>
    case Ref(i) =>
  }

  lemma PrintFirst(ns: seq<Node>)
    requires AllPrintable(ns) && ns != []
    ensures PrintNodes(ns) == PrintNode(ns[0]) + PrintNodes(ns[1..])
  {
    hide PrintNode;
    if |ns| > 1 {
      PrintFirst(ns[..|ns| - 1]);
      assert ns[..|ns| - 1][1..] == ns[1..][..|ns| - 2];
    }
  }

  /** Reading from the `i`-th object on completes what was read before. */
  lemma {:induction false} NodesRoundTrip(ns: seq<Node>, i: nat)
    requires AllPrintable(ns) && RefsResolve(ns) && i <= |ns|
    ensures ReadNodes(PrintNodes(ns[i..]), |ns| - i, Meanings(ns[..i])) == Some(Meanings(ns))
    decreases |ns| - i
  {
    hide PrintNode, ReadNode, Meaning;
    if i == |ns| {
      assert ns[..i] == ns;
    } else {
      PrintFirst(ns[i..]);
      NodeRoundTrip(ns[i], Meanings(ns[..i]), PrintNodes(ns[i + 1..]));
      assert ns[..i + 1][..i] == ns[..i] && ns[i..][1..] == ns[i + 1..];
      NodesRoundTrip(ns, i + 1);
    }
  }

  /** A printed dictionary reads back to exactly its pairs. */
  lemma BodyRoundTrip(ns: seq<Node>)
    requires AllPrintable(ns) && RefsResolve(ns) && |ns| < 30 && |ns| % 2 == 0
    ensures ReadBody(Body(ns)) == Some(Pairs(Meanings(ns)))
  {
    hide PrintNodes, ReadNodes, Meanings, Pairs, AllPrintable;
    NodesReadBack(ns);
    assert Body(ns)[2..] == PrintNodes(ns);
    assert Body(ns)[0] == 0x01 && Body(ns)[1] == 0xE0 + |ns| / 2;
  }

  lemma NodesReadBack(ns: seq<Node>)
    requires AllPrintable(ns) && RefsResolve(ns)
    ensures ReadNodes(PrintNodes(ns), |ns|, []) == Some(Meanings(ns))
  {
    hide PrintNodes, ReadNodes;
    NodesRoundTrip(ns, 0);
    assert ns[0..] == ns && ns[..0] == [];
  }
}

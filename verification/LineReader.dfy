/** Request lines from a client: bounded, and the same however the bytes arrive. */
module LineReader {
  import opened Prelude

  const MAX_LINE: nat := 64 * 1024
  const NEWLINE: byte := 10

  datatype Line =
    | Got(text: seq<byte>)
    | Eof
    | TooLong
    | Failed

  function Flatten(chunks: seq<seq<byte>>): seq<byte> {
    if chunks == [] then [] else chunks[0] + Flatten(chunks[1..])
  }

  // ---- what a read means on the bytes alone

  /** Where the first line ends, or how many bytes there are. */
  function LineEnd(bytes: seq<byte>): (n: nat)
    ensures n <= |bytes|
    ensures IsLineEnd(bytes, n)
  {
    if bytes == [] || bytes[0] == NEWLINE then 0 else 1 + LineEnd(bytes[1..])
  }

  predicate IsLineEnd(bytes: seq<byte>, n: nat) {
    n <= |bytes| && (forall i :: 0 <= i < n ==> bytes[i] != NEWLINE) && (n < |bytes| ==> bytes[n] == NEWLINE)
  }

  /** The first line of everything the peer sends before it hangs up or, if `broken`, the connection fails. */
  function FirstLine(bytes: seq<byte>, broken: bool): Line {
    var n := LineEnd(bytes);
    if n > MAX_LINE then TooLong
    else if n < |bytes| then Got(bytes[..n])
    else if broken then Failed
    else if bytes == [] then Eof
    else Got(bytes)
  }

  /** What is left for the next read. */
  function AfterLine(bytes: seq<byte>): seq<byte> {
    var n := LineEnd(bytes);
    if n < |bytes| then bytes[n + 1..] else []
  }

  lemma LineEndIs(bytes: seq<byte>, n: nat)
    requires IsLineEnd(bytes, n)
    ensures LineEnd(bytes) == n
  {
    hide LineEnd;
  }

  // ---- the reader

  class Reader {
    /** What has arrived or will arrive, in the pieces it arrives in; after the last piece the peer has hung up. */
    var chunks: seq<seq<byte>>
    /** The connection fails after the last piece instead of ending. */
    const broken: bool

    ghost predicate Valid()
      reads this
    {
      forall i :: 0 <= i < |chunks| ==> chunks[i] != []
    }

    constructor (chunks: seq<seq<byte>>, broken: bool)
      requires forall i :: 0 <= i < |chunks| ==> chunks[i] != []
      ensures Valid() && this.chunks == chunks && this.broken == broken
    {
      this.chunks, this.broken := chunks, broken;
    }

    /** Take `used` bytes off the buffered piece. */
    method Consume(used: nat)
      requires Valid() && chunks != [] && used <= |chunks[0]|
      modifies this
      ensures Valid() && Flatten(chunks) == Flatten(old(chunks))[used..]
      ensures used > 0 ==> |Flatten(chunks)| < |Flatten(old(chunks))|
    {
      var head, tail := chunks[0], chunks[1..];
      assert Flatten(chunks) == head + Flatten(tail);
      assert Flatten(chunks)[used..] == head[used..] + Flatten(tail);
      if used < |head| {
        chunks := [head[used..]] + tail;
        assert chunks[1..] == tail;
      } else {
        chunks := tail;
      }
    }

    /**
     Read one line, never buffering more than `MAX_LINE` bytes of it. The outcome, and what is left after a line,
     depend on the bytes only and not on how they were cut into pieces.
     */
    method ReadLine() returns (line: Line)
      requires Valid()
      modifies this
      ensures Valid() && line == FirstLine(Flatten(old(chunks)), broken)
      ensures line.Got? ==> Flatten(chunks) == AfterLine(Flatten(old(chunks))) && |line.text| <= MAX_LINE
    {
      hide LineEnd, IsLineEnd, AfterLine, NoNewline;
      ghost var all := Flatten(chunks);
      var buf: seq<byte> := [];
      assert NoNewline(buf) by { Empty(); }
      while true
        invariant Valid() && all == buf + Flatten(chunks)
        invariant NoNewline(buf) && |buf| <= MAX_LINE
        decreases |Flatten(chunks)|
      {
        if chunks == [] {
          assert all == buf;
          NoLineIn(buf);
          if broken {
            return Failed;
          }
          return if buf == [] then Eof else Got(buf);
        }
        var available := chunks[0];
        assert Flatten(chunks) == available + Flatten(chunks[1..]);
        var i := LineEnd(available);
        if i < |available| {
          EndsIn(buf, available, Flatten(chunks[1..]));
          if |buf| + i > MAX_LINE {
            return TooLong;
          }
          buf := buf + available[..i];
          Consume(i + 1);
          return Got(buf);
        }
        GoesOn(buf, available, Flatten(chunks[1..]));
        if |buf| + |available| > MAX_LINE {
          return TooLong;
        }
        buf := buf + available;
        Consume(|available|);
      }
    }
  }

  predicate NoNewline(bytes: seq<byte>) {
    forall i :: 0 <= i < |bytes| ==> bytes[i] != NEWLINE
  }

  lemma Empty()
    ensures NoNewline([])
  {}

  lemma NoLineIn(buf: seq<byte>)
    requires NoNewline(buf)
    ensures LineEnd(buf) == |buf| && AfterLine(buf) == []
  {
    LineEndIs(buf, |buf|);
  }

  /** The line under way ends in the next piece. */
  lemma EndsIn(buf: seq<byte>, available: seq<byte>, rest: seq<byte>)
    requires NoNewline(buf) && LineEnd(available) < |available|
    ensures var all, n := buf + (available + rest), |buf| + LineEnd(available);
            LineEnd(all) == n && n < |all| && all[..n] == buf + available[..LineEnd(available)]
            && AfterLine(all) == (available + rest)[LineEnd(available) + 1..]
  {
    hide LineEnd;
    var i, all := LineEnd(available), buf + (available + rest);
    assert all == buf + available[..i] + available[i..] + rest;
    forall m | 0 <= m < |buf| + i ensures all[m] != NEWLINE {
      assert all[m] == if m < |buf| then buf[m] else available[m - |buf|];
    }
    LineEndIs(all, |buf| + i);
    assert all[|buf| + i + 1..] == (available + rest)[i + 1..];
  }

  /** The line under way goes on past the next piece. */
  lemma GoesOn(buf: seq<byte>, available: seq<byte>, rest: seq<byte>)
    requires NoNewline(buf) && LineEnd(available) == |available|
    ensures NoNewline(buf + available) && LineEnd(buf + (available + rest)) >= |buf| + |available|
  {
    hide LineEnd;
    var all := buf + (available + rest);
    forall m | 0 <= m < |buf| + |available| ensures all[m] != NEWLINE {
      assert all[m] == if m < |buf| then buf[m] else available[m - |buf|];
    }
    assert IsLineEnd(all, LineEnd(all));
  }

  // ---- a conversation

  /** All complete reads in order; a read that is not a line ends the conversation. */
  function Conversation(bytes: seq<byte>, broken: bool): seq<seq<byte>>
    decreases |bytes|
  {
    var line := FirstLine(bytes, broken);
    if line.Got? && bytes != [] then [line.text] + Conversation(AfterLine(bytes), broken) else []
  }

  function Sent(lines: seq<seq<byte>>): seq<byte> {
    if lines == [] then [] else lines[0] + [NEWLINE] + Sent(lines[1..])
  }

  predicate Sendable(line: seq<byte>) {
    NEWLINE !in line && |line| <= MAX_LINE
  }

  lemma FirstArrives(line: seq<byte>, rest: seq<byte>, broken: bool)
    requires Sendable(line)
    ensures FirstLine(line + [NEWLINE] + rest, broken) == Got(line) && AfterLine(line + [NEWLINE] + rest) == rest
  {
    hide LineEnd;
    LineEndIs(line + [NEWLINE] + rest, |line|);
  }

  /** The lines a peer sends are the lines that are read, exactly when each fits and none holds a newline. */
  lemma {:induction false} LinesArriveIff(lines: seq<seq<byte>>, broken: bool)
    ensures Conversation(Sent(lines), broken) == lines <==> forall i :: 0 <= i < |lines| ==> Sendable(lines[i])
  {
    hide LineEnd, AfterLine, FirstLine;
    if lines != [] {
      var bytes := Sent(lines);
      var rest := Sent(lines[1..]);
      if Sendable(lines[0]) {
        FirstArrives(lines[0], rest, broken);
        LinesArriveIff(lines[1..], broken);
        assert (forall i :: 0 <= i < |lines| ==> Sendable(lines[i]))
          <==> (forall i :: 0 <= i < |lines[1..]| ==> Sendable(lines[1..][i])) by {
          assert forall i :: 1 <= i < |lines| ==> lines[i] == lines[1..][i - 1];
        }
      } else {
        LinesAreSendable(bytes, broken);
      }
    }
  }

  lemma LinesAreSendable(bytes: seq<byte>, broken: bool)
    ensures Conversation(bytes, broken) != [] ==> Sendable(Conversation(bytes, broken)[0])
  {
    hide LineEnd;
  }
}

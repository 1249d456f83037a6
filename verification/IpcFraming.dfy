/** Messages between monitor and agent travel over a byte stream as a 32-bit length and that many
    bytes. The stream hands bytes over in pieces of any size. */
module IpcFraming {
  import opened Wrappers
  import opened Words

  type Message = seq<Byte>

  const MAX_MESSAGE: nat := 0x100_0000

  // ---- The format ----

  /** The length as four bytes, lowest first; a longer length is cut to 32 bits. */
  function Header(len: nat): (h: seq<Byte>)
    ensures |h| == 4
  {
    [len % 256, len / 256 % 256, len / 0x1_0000 % 256, len / 0x100_0000 % 256]
  }

  function Length(h: seq<Byte>): nat
    requires |h| == 4
  {
    h[0] as nat + 256 * (h[1] as nat) + 0x1_0000 * (h[2] as nat) + 0x100_0000 * (h[3] as nat)
  }

  /** What sending a message writes: as many of its bytes as the header says. */
  function Framed(m: Message): seq<Byte> { Header(|m|) + m[..|m| % TWO32] }

  function Wire(ms: seq<Message>): seq<Byte> {
    if ms == [] then [] else Framed(ms[0]) + Wire(ms[1..])
  }

  datatype Decoded = Nothing | TooLarge | Cut | Got(message: Message, rest: seq<Byte>)

  /** What one receive makes of the bytes that are still to come. */
  function Decode(wire: seq<Byte>): Decoded {
    if |wire| < 4 then Nothing
    else if Length(wire[..4]) > MAX_MESSAGE then TooLarge
    else if |wire| < 4 + Length(wire[..4]) then Cut
    else Got(wire[4..4 + Length(wire[..4])], wire[4 + Length(wire[..4])..])
  }

  /** All messages that a stream yields. */
  function DecodeAll(wire: seq<Byte>): seq<Message>
    decreases |wire|
  {
    match Decode(wire)
    case Got(m, rest) => [m] + DecodeAll(rest)
    case _ => []
  }

  lemma LengthOfHeader(len: nat)
    ensures Length(Header(len)) == len % TWO32
  {
    var d1 := len / 256;
    var d2 := d1 / 256;
    var d3 := d2 / 256;
    var q := d3 / 256;
    DigitsOf(len, d1, d2, d3, q);
    WholeAndRest(len, q, Length(Header(len)));
  }

  lemma DigitsOf(len: nat, d1: nat, d2: nat, d3: nat, q: nat)
    requires d1 == len / 256 && d2 == d1 / 256 && d3 == d2 / 256 && q == d3 / 256
    ensures len == TWO32 * q + Length(Header(len)) && Length(Header(len)) < TWO32
  {
    assert len / 0x1_0000 == d2 && len / 0x100_0000 == d3;
    assert Header(len) == [len % 256, d1 % 256, d2 % 256, d3 % 256];
  }

  lemma WholeAndRest(len: nat, q: nat, r: nat)
    requires len == TWO32 * q + r && r < TWO32
    ensures len % TWO32 == r
  {
  }

  lemma DecodeFramed(m: Message, rest: seq<Byte>)
    ensures Decode(Framed(m) + rest) == if |m| % TWO32 > MAX_MESSAGE then TooLarge else Got(m[..|m| % TWO32], rest)
  {
    hide Header, Length;
    LengthOfHeader(|m|);
    var w := Framed(m) + rest;
    assert w[..4] == Header(|m|);
    assert w[4..] == m[..|m| % TWO32] + rest;
    if |m| % TWO32 <= MAX_MESSAGE {
      assert w[4..4 + |m| % TWO32] == m[..|m| % TWO32] && w[4 + |m| % TWO32..] == rest;
    }
  }

  /** None is longer than 16 MiB. */
  ghost predicate AllFit(ms: seq<Message>) { forall k :: 0 <= k < |ms| ==> |ms[k]| <= 16 * 1024 * 1024 }

  /** The round trip: what was sent is what arrives, message by message, if and only if every message
      is within the limit. */
  lemma {:induction false} RoundTripIff(ms: seq<Message>)
    ensures DecodeAll(Wire(ms)) == ms <==> AllFit(ms)
  {
    hide Framed, Decode;
    if ms == [] {
      EmptyWire();
    } else {
      DecodeFramed(ms[0], Wire(ms[1..]));
      RoundTripIff(ms[1..]);
      var got, rest := DecodeAll(Wire(ms)), DecodeAll(Wire(ms[1..]));
      assert ms == [ms[0]] + ms[1..];
      assert AllFit(ms) <==> |ms[0]| <= MAX_MESSAGE && AllFit(ms[1..]);
      if |ms[0]| <= MAX_MESSAGE {
        assert ms[0][..|ms[0]|] == ms[0];
        assert got == [ms[0]] + rest;
        assert got[1..] == rest;
      } else if got != [] {
        assert |got[0]| <= MAX_MESSAGE;
      }
    }
  }

  lemma EmptyWire()
    ensures DecodeAll([]) == []
  {
  }

  // ---- Reading in pieces ----

  /** What one poll of the stream brings: some bytes - none when the peer has gone - or a timeout, or
      the order to stop. */
  datatype Poll = Ready(count: nat) | TimedOut | StopSignaled

  datatype Progress = Progress(total: nat, broken: bool)

  function Least(a: nat, b: nat): nat { if a < b then a else b }

  /** How far a read of `count` bytes gets. */
  function Reading(count: nat, available: nat, total: nat, polls: seq<Poll>): (p: Progress)
    requires total <= count && total <= available
    ensures total <= p.total <= count && p.total <= available
    ensures p.broken ==> p.total < count
    decreases |polls|
  {
    if total == count || polls == [] then Progress(total, false)
    else if !polls[0].Ready? then Progress(total, false)
    else
      var n := Least(polls[0].count, Least(count - total, available - total));
      if n == 0 then Progress(total, true) else Reading(count, available, total + n, polls[1..])
  }

  /** What the polls bring before the first that brings nothing. */
  function Brought(polls: seq<Poll>): nat {
    if polls == [] || !polls[0].Ready? || polls[0].count == 0 then 0 else polls[0].count + Brought(polls[1..])
  }

  /** A read gets what it asks for, what there is, or what the polls bring before the first that brings nothing,
      whichever is least. If that is less than it asks for, it breaks off only because of a poll that brings nothing
      of what is announced: the other end has hung up. */
  lemma {:induction false} ReadingGets(count: nat, available: nat, total: nat, polls: seq<Poll>)
    requires total <= count && total <= available
    ensures var p := Reading(count, available, total, polls);
            && p.total == Least(count, Least(available, total + Brought(polls)))
            && (p.broken ==> p.total < count && exists j :: 0 <= j < |polls| && polls[j].Ready? && (polls[j].count == 0 || p.total == available))
            && (p.total < count && p.total < available ==> (p.broken <==> HangsUp(polls)))
    decreases |polls|
  {
    if total < count && polls != [] && polls[0].Ready? {
      var n := Least(polls[0].count, Least(count - total, available - total));
      if n > 0 {
        ReadingGets(count, available, total + n, polls[1..]);
        var p := Reading(count, available, total, polls);
        if p.broken {
          var j :| 0 <= j < |polls[1..]| && polls[1..][j].Ready? && (polls[1..][j].count == 0 || p.total == available);
          assert polls[j + 1] == polls[1..][j];
        }
      } else {
        assert polls[0].Ready?;
      }
    }
  }

  /** The first poll that brings nothing is a hang-up, not a timeout or an order to stop. */
  predicate HangsUp(polls: seq<Poll>) {
    polls != [] && polls[0].Ready? && (polls[0].count == 0 || HangsUp(polls[1..]))
  }

  class Pipe {
    var wire: seq<Byte> // what has been written, or is to be, and not yet been read
    var connected: bool

    constructor (wire: seq<Byte>)
      ensures this.wire == wire && connected
    {
      this.wire, connected := wire, true;
    }

    /** Reads until the count is complete, or gives up with what it has taken. */
    method ReadExact(count: nat, polls: seq<Poll>) returns (data: seq<Byte>, ok: bool)
      modifies this
      ensures var p := Reading(count, |old(wire)|, 0, polls);
              && data == old(wire)[..p.total] && wire == old(wire)[p.total..]
              && (ok <==> p.total == count)
              && connected == (old(connected) && !p.broken)
    {
      data := [];
      var i := 0;
      while |data| < count
        invariant i <= |polls| && |data| <= count && connected == old(connected)
        invariant data + wire == old(wire)
        invariant Reading(count, |old(wire)|, |data|, polls[i..]) == Reading(count, |old(wire)|, 0, polls)
        decreases |polls| - i
      {
        if i == |polls| || !polls[i].Ready? {
          return data, false;
        }
        assert polls[i..][0] == polls[i] && polls[i..][1..] == polls[i + 1..];
        var n := Least(polls[i].count, Least(count - |data|, |wire|));
        if n == 0 {
          connected := false;
          return data, false;
        }
        data, wire := data + wire[..n], wire[n..];
        i := i + 1;
      }
      return data, true;
    }

    /** One message, however it arrives. Fails without a message - on a timeout inside the header
        with the connection still up, and then the stream has lost the bytes already taken. */
    method Receive(headerPolls: seq<Poll>, bodyPolls: seq<Poll>) returns (m: Option<Message>)
      modifies this
      ensures m.Some? ==> old(connected) && connected && Decode(old(wire)) == Got(m.value, wire)
      ensures m.Some? <==>
                && old(connected) && Reading(4, |old(wire)|, 0, headerPolls).total == 4
                && Length(old(wire)[..4]) <= MAX_MESSAGE
                && Reading(Length(old(wire)[..4]), |old(wire)| - 4, 0, bodyPolls).total == Length(old(wire)[..4])
      ensures m.None? ==>
                var p := Reading(4, |old(wire)|, 0, headerPolls);
                && (connected <==> old(connected) && p.total < 4 && !p.broken)
                && (connected ==> wire == old(wire)[p.total..])
      ensures !old(connected) ==> !connected && wire == old(wire)
      ensures (Stream(wire, connected), if m.Some? then [m.value] else [])
              == Receiving(Stream(old(wire), old(connected)), Call(headerPolls, bodyPolls))
    {
      if !connected {
        return None;
      }
      var header, ok := ReadExact(4, headerPolls);
      if !ok {
        return None;
      }
      var len := Length(header);
      if len > MAX_MESSAGE {
        connected := false;
        return None;
      }
      ghost var rest := wire;
      var payload;
      payload, ok := ReadExact(len, bodyPolls);
      if !ok {
        connected := false;
        return None;
      }
      assert old(wire)[4..] == rest;
      assert payload == rest[..len] && wire == rest[len..];
      return Some(payload);
    }
  }

  // ---- Staying in step ----

  /** How many bytes a list of messages takes on the wire, when none is cut. */
  function Size(ms: seq<Message>): nat {
    if ms == [] then 0 else 4 + |ms[0]| + Size(ms[1..])
  }

  lemma {:induction false} SizeCat(a: seq<Message>, b: seq<Message>)
    ensures Size(a + b) == Size(a) + Size(b)
  {
    if a == [] {
      assert a + b == b;
    } else {
      assert (a + b)[1..] == a[1..] + b;
      SizeCat(a[1..], b);
    }
  }

  lemma {:induction false} SizeOfWire(ms: seq<Message>)
    requires AllFit(ms)
    ensures |Wire(ms)| == Size(ms)
  {
    if ms != [] { SizeOfWire(ms[1..]); }
  }

  /** Decoding yields no more than the bytes can carry. */
  lemma {:induction false} DecodedFits(wire: seq<Byte>)
    ensures Size(DecodeAll(wire)) <= |wire|
    decreases |wire|
  {
    hide Length;
    match Decode(wire)
    case Got(m, rest) =>
      DecodedFits(rest);
      assert DecodeAll(wire)[1..] == DecodeAll(rest);
    case _ =>
  }

  /** A stream that has lost some of its first bytes no longer yields the messages sent, whatever it
      yields instead. */
  lemma InStepIff(ms: seq<Message>, k: nat)
    requires AllFit(ms) && k <= |Wire(ms)|
    ensures DecodeAll(Wire(ms)[k..]) == ms <==> k == 0
  {
    hide Decode, DecodeAll, Wire;
    RoundTripIff(ms);
    SizeOfWire(ms);
    DecodedFits(Wire(ms)[k..]);
    if k == 0 { assert Wire(ms)[0..] == Wire(ms); }
  }

  /** One receive, as the polls of its two reads decide it. */
  datatype Call = Call(headerPolls: seq<Poll>, bodyPolls: seq<Poll>)

  datatype Stream = Stream(wire: seq<Byte>, connected: bool)

  function Receiving(s: Stream, c: Call): (Stream, seq<Message>) {
    if !s.connected then (s, []) else
      var p := Reading(4, |s.wire|, 0, c.headerPolls);
      if p.total < 4 then (Stream(s.wire[p.total..], !p.broken), [])
      else
        var len := Length(s.wire[..4]);
        if len > MAX_MESSAGE then (Stream(s.wire[4..], false), [])
        else
          var q := Reading(len, |s.wire| - 4, 0, c.bodyPolls);
          if q.total < len then (Stream(s.wire[4 + q.total..], false), [])
          else (Stream(s.wire[4 + len..], true), [s.wire[4..4 + len]])
  }

  function ReceivingAll(s: Stream, calls: seq<Call>): (Stream, seq<Message>)
    decreases |calls|
  {
    if calls == [] then (s, []) else
      var (s1, got) := Receiving(s, calls[0]);
      var (s2, more) := ReceivingAll(s1, calls[1..]);
      (s2, got + more)
  }

  /** No receive stops between two bytes of a header. */
  ghost predicate HeadersWhole(s: Stream, calls: seq<Call>)
    decreases |calls|
  {
    calls == [] || !s.connected
    || (&& Reading(4, |s.wire|, 0, calls[0].headerPolls).total in {0, 4}
        && HeadersWhole(Receiving(s, calls[0]).0, calls[1..]))
  }

  /** A receive that stays connected accounts for the bytes it takes: those of a message it delivers,
      or those of a header it stopped in. */
  lemma ReceivingTakes(s: Stream, c: Call)
    requires s.connected && Receiving(s, c).0.connected
    ensures var (s', got) := Receiving(s, c); var k := Reading(4, |s.wire|, 0, c.headerPolls).total;
            if k < 4 then got == [] && s'.wire == s.wire[k..]
            else |got| == 1 && Decode(s.wire) == Got(got[0], s'.wire) && |s.wire| == Size(got) + |s'.wire|
  {
    hide Reading, Length;
    assert Size([]) == 0;
    var (s', got) := Receiving(s, c);
    if got != [] { assert got[1..] == [] && Size(got) == 4 + |got[0]| + Size(got[1..]); }
  }

  /** Bytes only go: what was delivered and what is left never exceed what there was, and fall short of it
      as soon as one receive stops inside a header. */
  lemma {:induction false} BytesAccounted(s: Stream, calls: seq<Call>)
    requires s.connected && ReceivingAll(s, calls).0.connected
    ensures var (s', got) := ReceivingAll(s, calls);
            && Size(got) + |s'.wire| <= |s.wire|
            && (Size(got) + |s'.wire| == |s.wire| <==> HeadersWhole(s, calls))
            && (HeadersWhole(s, calls) ==> got + DecodeAll(s'.wire) == DecodeAll(s.wire))
    decreases |calls|
  {
    hide Reading, Length, Decode, Receiving;
    if calls == [] {
      assert [] + DecodeAll(s.wire) == DecodeAll(s.wire);
    } else {
      var (s1, got) := Receiving(s, calls[0]);
      var (s2, more) := ReceivingAll(s1, calls[1..]);
      StaysDown(s1, calls[1..]);
      ReceivingTakes(s, calls[0]);
      BytesAccounted(s1, calls[1..]);
      SizeCat(got, more);
      var k := Reading(4, |s.wire|, 0, calls[0].headerPolls).total;
      if k == 0 {
        assert s1.wire == s.wire && got + more == more;
      } else if k == 4 {
        assert DecodeAll(s.wire) == [got[0]] + DecodeAll(s1.wire) && got == [got[0]];
        assert got + more + DecodeAll(s2.wire) == got + (more + DecodeAll(s2.wire));
      }
    }
  }

  /** Even when the connection is lost, nothing wrong has been delivered: only the first of the messages
      sent, in order. */
  lemma {:induction false} DeliveredInOrder(s: Stream, calls: seq<Call>)
    requires HeadersWhole(s, calls)
    ensures ReceivingAll(s, calls).1 <= DecodeAll(s.wire)
    decreases |calls|
  {
    hide Reading, Length, Decode, Receiving;
    if calls != [] && s.connected {
      DeliveredInOrder(Receiving(s, calls[0]).0, calls[1..]);
      if Receiving(s, calls[0]).0.connected {
        ReceivingTakes(s, calls[0]);
        var k := Reading(4, |s.wire|, 0, calls[0].headerPolls).total;
        if k == 0 {
          assert s.wire[0..] == s.wire;
        } else {
          var got := Receiving(s, calls[0]).1;
          assert got == [got[0]];
        }
      } else {
        GoneDeliversNothing(s, calls[0]);
        NothingAfter(Receiving(s, calls[0]).0, calls[1..]);
      }
    } else {
      NothingAfter(s, calls);
    }
  }

  lemma GoneDeliversNothing(s: Stream, c: Call)
    requires !Receiving(s, c).0.connected
    ensures Receiving(s, c).1 == []
  {
  }

  lemma {:induction false} NothingAfter(s: Stream, calls: seq<Call>)
    requires !s.connected || calls == []
    ensures ReceivingAll(s, calls).1 == []
    decreases |calls|
  {
    if calls != [] { NothingAfter(s, calls[1..]); }
  }

  lemma {:induction false} StaysDown(s: Stream, calls: seq<Call>)
    ensures ReceivingAll(s, calls).0.connected ==> s.connected
    decreases |calls|
  {
    if calls != [] { StaysDown(Receiving(s, calls[0]).0, calls[1..]); }
  }

  /** Over any list of receives, on a stream of messages within the limit, that leaves the connection up:
      the messages delivered, followed by those still to come, are the messages sent - if and only if no
      receive stopped between two bytes of a header. */
  lemma ReceivedIffHeadersWhole(ms: seq<Message>, calls: seq<Call>)
    requires AllFit(ms) && ReceivingAll(Stream(Wire(ms), true), calls).0.connected
    ensures var (s', got) := ReceivingAll(Stream(Wire(ms), true), calls);
            got + DecodeAll(s'.wire) == ms <==> HeadersWhole(Stream(Wire(ms), true), calls)
  {
    hide Wire, Decode, DecodeAll, ReceivingAll, HeadersWhole;
    var s := Stream(Wire(ms), true);
    var (s', got) := ReceivingAll(s, calls);
    BytesAccounted(s, calls);
    RoundTripIff(ms);
    SizeOfWire(ms);
    DecodedFits(s'.wire);
    SizeCat(got, DecodeAll(s'.wire));
  }

  /** The gap is real: after a timeout one byte into the header of a one-byte message, the next receive
      reads a length of over a hundred million and gives the connection up. */
  lemma TimeoutInHeaderLosesStep()
    ensures Receiving(Stream(Wire([[7]]), true), Call([Ready(1), TimedOut], [])) == (Stream(Wire([[7]])[1..], true), [])
    ensures Decode(Wire([[7]])[1..]) == TooLarge
  {
    assert Wire([[7]]) == Framed([7]) + Wire([]);
    assert Framed([7]) == [1, 0, 0, 0, 7];
    assert Wire([[7]])[1..] == [0, 0, 0, 7];
  }

  // ---- Writing in pieces ----

  /** How far a sequence of writes gets; a write that takes nothing ends the connection. */
  function Writing(count: nat, total: nat, writes: seq<nat>): (w: nat)
    requires total <= count
    ensures total <= w <= count
    decreases |writes|
  {
    if total == count || writes == [] || writes[0] == 0 then total
    else Writing(count, total + Least(writes[0], count - total), writes[1..])
  }

  function Accepted(writes: seq<nat>): nat {
    if writes == [] || writes[0] == 0 then 0 else writes[0] + Accepted(writes[1..])
  }

  /** What goes out is all of it, or what the writes accept before the first that accepts nothing. */
  lemma {:induction false} WritingGets(count: nat, total: nat, writes: seq<nat>)
    requires total <= count
    ensures Writing(count, total, writes) == Least(count, total + Accepted(writes))
    decreases |writes|
  {
    if total < count && writes != [] && writes[0] != 0 {
      WritingGets(count, total + Least(writes[0], count - total), writes[1..]);
    }
  }

  method WriteAll(out: seq<Byte>, data: seq<Byte>, writes: seq<nat>) returns (out': seq<Byte>, ok: bool)
    ensures var w := Writing(|data|, 0, writes); (ok <==> w == |data|) && out' == out + data[..w]
  {
    var written: nat, i: nat := 0, 0;
    while written < |data|
      invariant written <= |data| && i <= |writes|
      invariant Writing(|data|, written, writes[i..]) == Writing(|data|, 0, writes)
      decreases |writes| - i
    {
      if i == |writes| || writes[i] == 0 {
        return out + data[..written], false;
      }
      assert writes[i..][0] == writes[i] && writes[i..][1..] == writes[i + 1..];
      written := written + Least(writes[i], |data| - written);
      i := i + 1;
    }
    return out + data[..written], true;
  }

  /** A message is written whole, or the connection ends with a part of it written. */
  method Send(out: seq<Byte>, m: Message, headerWrites: seq<nat>, bodyWrites: seq<nat>)
    returns (out': seq<Byte>, connected: bool)
    ensures connected <==> Writing(4, 0, headerWrites) == 4 && Writing(|m| % TWO32, 0, bodyWrites) == |m| % TWO32
    ensures connected ==> out' == out + Framed(m)
    ensures !connected ==> out <= out' < out + Framed(m)
  {
    var h, body := Header(|m|), m[..|m| % TWO32];
    out', connected := WriteAll(out, h, headerWrites);
    if !connected {
      return;
    }
    assert h[..4] == h;
    out', connected := WriteAll(out', body, bodyWrites);
    if connected { assert body[..|body|] == body && out + h + body == out + Framed(m); }
  }
}

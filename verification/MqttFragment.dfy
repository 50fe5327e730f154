/**
 Writing one PUBLISH, whole or in fragments, and keeping a copy of it. The first packet is composed in a
 buffer of fixed length; what does not fit is copied into the buffer and written piece by piece.
 */
module MqttFragment {
  import opened Common
  import opened MqttOutbox

  /** outbound_message: the first packet, the field fragmented_msg_data_offset, and whether a total length is set. */
  datatype Outbound = Outbound(packet: seq<byte>, dataOffset: int, fragmented: bool)

  /** The bytes of a C array from index a up to b; memory beyond the array is readable, whatever it holds. */
  function Slice(memory: int -> byte, a: int, b: int): seq<byte> {
    seq(if a < b then b - a else 0, i => memory(a + i))
  }

  function Span(a: int, b: int): nat {
    if a < b then b - a else 0
  }

  /** How many bytes generate_variable_len takes for a remaining length, seven bits in each. */
  function LengthBytes(remaining: nat): nat {
    if remaining < 128 then 1 else 1 + LengthBytes(remaining / 128)
  }

  /**
   Five bytes are kept free for the fixed header. Once the remaining length is known, the type byte and the
   length bytes are moved up against the variable header, which ends where the payload starts.
   */
  predicate HeaderFits(start: nat, header: seq<byte>, payload: seq<byte>) {
    5 <= start && LengthBytes(start - 5 + |payload|) <= 4
    && |header| == start - 4 + LengthBytes(start - 5 + |payload|)
  }

  /** start is the buffer position of the payload; dataOffset is overwritten only when the message is fragmented. */
  function Compose(capacity: nat, start: nat, header: seq<byte>, payload: seq<byte>, stale: int): Outbound
    requires HeaderFits(start, header, payload) && start <= capacity
  {
    var shift := start - |header|;
    if start + |payload| > capacity
    then Outbound(header + payload[..capacity - start], start - shift, true)
    else Outbound(header + payload, stale - shift, false)
  }

  /** What the outbox is given besides the first packet. */
  function Remainder(o: Outbound, payload: seq<byte>): seq<byte>
    requires o.fragmented ==> 0 <= |o.packet| - o.dataOffset <= |payload|
  {
    if o.fragmented then payload[|o.packet| - o.dataOffset..] else []
  }

  /** The payload bytes the client believes it still has to write after the first packet. */
  function Followup(o: Outbound, memory: int -> byte, length: int): seq<byte> {
    Slice(memory, |o.packet| - o.dataOffset, length)
  }

  predicate PayloadAt(memory: int -> byte, payload: seq<byte>) {
    Slice(memory, 0, |payload|) == payload
  }

  /** The outbox always holds the whole message. */
  lemma StoredWhole(capacity: nat, start: nat, header: seq<byte>, payload: seq<byte>, stale: int)
    requires HeaderFits(start, header, payload) && start <= capacity
    ensures var o := Compose(capacity, start, header, payload, stale);
            && (o.fragmented ==> 0 <= |o.packet| - o.dataOffset <= |payload|)
            && o.packet + Remainder(o, payload) == header + payload
  {
  }

  /**
   The bytes written are the bytes stored if and only if the message is fragmented, or the offset left behind
   by an earlier message is no larger than the buffer position of this payload.
   */
  lemma WrittenWholeIff(capacity: nat, start: nat, header: seq<byte>, payload: seq<byte>, stale: int,
                        memory: int -> byte)
    requires HeaderFits(start, header, payload) && start <= capacity && PayloadAt(memory, payload)
    ensures var o := Compose(capacity, start, header, payload, stale);
            o.packet + Followup(o, memory, |payload|) == header + payload <==> (o.fragmented || stale <= start)
  {
  }

  /**
   A fragmented message that is stored but not written, because the window is full, leaves its offset behind.
   A whole message with a shorter topic is then followed by bytes that do not belong to it.
   */
  lemma HeldBackFragmentSpoilsNext(memory: int -> byte, header: seq<byte>, payload: seq<byte>, topic: seq<byte>,
                                   next: seq<byte>)
    requires |header| == 40 && |payload| == 2000 && |topic| == 19 && |next| == 100 && PayloadAt(memory, next)
    ensures HeaderFits(42, header, payload) && HeaderFits(22, topic, next)
    ensures var held := Compose(1024, 42, header, payload, 0);
            var o := Compose(1024, 22, topic, next, held.dataOffset);
            && held.fragmented && !o.fragmented
            && o.packet + Followup(o, memory, |next|) == topic + next + next[82..]
  {
    assert LengthBytes(2037) == 2 && LengthBytes(117) == 1;
  }

  // ------------------------------------------------------------ what an earlier message leaves behind

  /**
   The packets composed one after the other. Control: one that leaves the offset but for the shift of its header, as
   pings and acknowledgements do. Request: connect, subscribe and unsubscribe, which clear it first. Held: a publish
   that is stored and not written. Written: one whose every write went through.
   */
  datatype Packet =
    | Control(shift: nat)
    | Request(shift: nat)
    | Held(start: nat, headerLength: nat, fragmented: bool)
    | Written

  predicate Composed(p: Packet) {
    p.Held? ==> p.headerLength <= p.start
  }

  function NextOffset(offset: int, p: Packet): int
    requires Composed(p)
  {
    match p
    case Control(shift) => offset - shift
    case Request(shift) => -(shift as int)
    case Held(start, headerLength, fragmented) => if fragmented then headerLength else offset - (start - headerLength)
    case Written => 0
  }

  /** The offset after the packets, the latest one last. */
  function OffsetAfter(packets: seq<Packet>): int
    requires forall p :: p in packets ==> Composed(p)
  {
    if packets == [] then 0 else NextOffset(OffsetAfter(packets[..|packets| - 1]), packets[|packets| - 1])
  }

  /** A packet that only shifts the offset. */
  predicate Shifts(p: Packet) {
    p.Control? || (p.Held? && !p.fragmented)
  }

  /** How far those from i on have shifted it. */
  function Shifted(packets: seq<Packet>, i: nat): nat
    requires i <= |packets| && forall p :: p in packets ==> Composed(p)
    decreases |packets| - i
  {
    if i == |packets| then 0
    else
      assert packets[i] in packets;
      Shifted(packets, i + 1) + ShiftOf(packets[i])
  }

  function ShiftOf(p: Packet): nat
    requires Composed(p)
  {
    match p
    case Control(shift) => shift
    case Request(shift) => shift
    case Held(start, headerLength, _) => start - headerLength
    case Written => 0
  }

  /** Packet j was held back in fragments, and no packet since has done more than shift the offset it left. */
  ghost predicate LeftBy(packets: seq<Packet>, j: nat) {
    && j < |packets| && packets[j].Held? && packets[j].fragmented
    && forall i :: j < i < |packets| ==> Shifts(packets[i])
  }

  lemma {:induction false} ShiftedNext(packets: seq<Packet>, i: nat)
    requires i < |packets| && forall p :: p in packets ==> Composed(p)
    ensures var before, last := packets[..|packets| - 1], packets[|packets| - 1..];
            Shifted(packets, i) == Shifted(before, i) + Shifted(last, 0)
    decreases |packets| - i
  {
    var before, last := packets[..|packets| - 1], packets[|packets| - 1..];
    if i == |packets| - 1 {
      assert last[0] == packets[i] && Shifted(packets, i + 1) == Shifted(last, 1) == 0;
    } else {
      ShiftedNext(packets, i + 1);
      assert before[i] == packets[i];
    }
  }

  /** What it left is what is there, but for the shifts since. */
  lemma {:induction false} LeftIs(packets: seq<Packet>, j: nat)
    requires LeftBy(packets, j) && forall p :: p in packets ==> Composed(p)
    ensures OffsetAfter(packets) == packets[j].headerLength - Shifted(packets, j + 1)
    decreases |packets|
  {
    if j < |packets| - 1 {
      var before := packets[..|packets| - 1];
      assert LeftBy(before, j);
      LeftIs(before, j);
      if j + 1 < |packets| {
        ShiftedNext(packets, j + 1);
      }
      assert Shifts(packets[|packets| - 1]);
      assert Shifted(packets[|packets| - 1..], 1) == 0;
    }
  }

  /** Without such a packet there is nothing to do harm. */
  lemma {:induction false} NothingLeft(packets: seq<Packet>)
    requires (forall p :: p in packets ==> Composed(p)) && forall j: nat :: !LeftBy(packets, j)
    ensures OffsetAfter(packets) <= 0
  {
    if packets != [] {
      var before, last := packets[..|packets| - 1], packets[|packets| - 1];
      assert Composed(last);
      if Shifts(last) {
        forall j: nat
          ensures !LeftBy(before, j)
        {
          if LeftBy(before, j) {
            assert LeftBy(packets, j);
          }
        }
        NothingLeft(before);
      } else {
        assert !LeftBy(packets, |packets| - 1);
      }
    }
  }

  /**
   Over every run of packets: a publish that fits the buffer is written with bytes that do not belong to it if and only
   if an earlier one was held back in fragments, neither a request nor a written publish has come since, and the
   offset it left, less all that the packets since have shifted it, lies beyond the position of this payload.
   */
  lemma SpoiledIff(packets: seq<Packet>, capacity: nat, start: nat, header: seq<byte>, payload: seq<byte>,
                   memory: int -> byte)
    requires forall p :: p in packets ==> Composed(p)
    requires HeaderFits(start, header, payload) && start + |payload| <= capacity && PayloadAt(memory, payload)
    ensures var o := Compose(capacity, start, header, payload, OffsetAfter(packets));
            o.packet + Followup(o, memory, |payload|) != header + payload
            <==> exists j: nat :: LeftBy(packets, j) && packets[j].headerLength - Shifted(packets, j + 1) > start
  {
    var stale := OffsetAfter(packets);
    WrittenWholeIff(capacity, start, header, payload, stale, memory);
    if j: nat :| LeftBy(packets, j) {
      LeftIs(packets, j);
      forall i: nat | LeftBy(packets, i)
        ensures packets[i].headerLength - Shifted(packets, i + 1) == stale
      {
        LeftIs(packets, i);
      }
    } else {
      NothingLeft(packets);
    }
  }

  // -------------------------------------------------------------------- how long the writing goes on

  function Least(a: int, b: int): int {
    if a <= b then a else b
  }

  /** How many of so many bytes the transport calls take before one takes none or fails. */
  function Taken(accepts: seq<int>, length: nat): (n: nat)
    ensures n <= length
  {
    if length == 0 || accepts == [] || accepts[0] <= 0 then 0
    else
      var taken := Least(accepts[0], length);
      taken + Taken(accepts[1..], length - taken)
  }

  /** What is left of the script once so many bytes are written, if they ever are. */
  function AfterWrite(accepts: seq<int>, length: nat): (r: Option<seq<int>>)
    ensures r.Some? <==> Taken(accepts, length) == length
  {
    if length == 0 then Some(accepts)
    else if accepts == [] || accepts[0] <= 0 then None
    else AfterWrite(accepts[1..], length - Least(accepts[0], length))
  }

  /** And once packets of these lengths are, one after the other. */
  function AfterWrites(accepts: seq<int>, lengths: seq<nat>): Option<seq<int>>
    decreases |lengths|
  {
    if lengths == [] then Some(accepts)
    else
      match AfterWrite(accepts, lengths[0])
      case None => None
      case Some(rest) => AfterWrites(rest, lengths[1..])
  }

  /** What is still to be written, one buffer at a time. */
  function Pieces(remaining: int, capacity: nat): (lengths: seq<nat>)
    requires capacity > 0
    decreases if remaining > 0 then remaining else 0
  {
    if remaining <= 0 then [] else [Least(remaining, capacity)] + Pieces(remaining - capacity, capacity)
  }

  function Lengths(o: Outbound, length: int, capacity: nat): seq<nat>
    requires capacity > 0
  {
    [|o.packet|] + Pieces(length - (|o.packet| - o.dataOffset), capacity)
  }

  predicate AllPositive(counts: seq<int>) {
    forall k :: 0 <= k < |counts| ==> counts[k] > 0
  }

  function Sum(counts: seq<int>): int {
    if counts == [] then 0 else counts[0] + Sum(counts[1..])
  }

  /** The first n calls all take something, and together as much as is to be written. */
  predicate Suffice(accepts: seq<int>, length: nat, n: nat) {
    n <= |accepts| && AllPositive(accepts[..n]) && Sum(accepts[..n]) >= length
  }

  lemma {:induction false} SufficeWrites(accepts: seq<int>, length: nat, n: nat)
    requires Suffice(accepts, length, n)
    ensures AfterWrite(accepts, length).Some?
  {
    if length > 0 {
      assert n > 0;
      assert accepts[..n][0] > 0 && accepts[..n][1..] == accepts[1..][..n - 1];
      var later := accepts[1..][..n - 1];
      assert forall k :: 0 <= k < n - 1 ==> later[k] == accepts[k + 1];
      assert forall k :: 0 <= k < n ==> accepts[..n][k] == accepts[k] > 0;
      assert AllPositive(later);
      var taken := Least(accepts[0], length);
      if taken < length {
        SufficeWrites(accepts[1..], length - taken, n - 1);
      }
    }
  }

  lemma {:induction false} WrittenBy(accepts: seq<int>, length: nat) returns (n: nat)
    requires AfterWrite(accepts, length).Some?
    ensures Suffice(accepts, length, n)
  {
    n := 0;
    if length > 0 {
      var taken := Least(accepts[0], length);
      var m := WrittenBy(accepts[1..], length - taken);
      n := m + 1;
      assert accepts[..n][0] == accepts[0] && accepts[..n][1..] == accepts[1..][..m];
      assert forall k :: 0 < k < n ==> accepts[..n][k] == accepts[1..][..m][k - 1];
    }
  }

  /**
   A packet is written whole, over every script of the transport, if and only if the calls before the first that takes
   nothing bring all of it: the writing does not give up before.
   */
  lemma WritesWholeIff(accepts: seq<int>, length: nat)
    ensures AfterWrite(accepts, length).Some? <==> exists n: nat :: Suffice(accepts, length, n)
  {
    if AfterWrite(accepts, length).Some? {
      var n := WrittenBy(accepts, length);
    }
    if n: nat :| Suffice(accepts, length, n) {
      SufficeWrites(accepts, length, n);
    }
  }

  /** One packet more or, if it cannot be written whole, none. */
  lemma WriteStep(accepts: seq<int>, o: Outbound, remaining: int, capacity: nat)
    requires capacity > 0
    ensures AfterWrites(accepts, Lengths(o, remaining, capacity)) ==
      match AfterWrite(accepts, |o.packet|)
      case None => None
      case Some(rest) => AfterWrites(rest, Pieces(remaining - (|o.packet| - o.dataOffset), capacity))
  {
    assert Lengths(o, remaining, capacity)[1..] == Pieces(remaining - (|o.packet| - o.dataOffset), capacity);
  }

  lemma NextPiece(accepts: seq<int>, o: Outbound, remaining: int, capacity: nat)
    requires capacity > 0
    ensures remaining <= 0 ==> AfterWrites(accepts, Pieces(remaining, capacity)) == Some(accepts)
    ensures remaining > 0 && |o.packet| == Least(remaining, capacity) && o.dataOffset == 0 ==>
              Pieces(remaining, capacity) == Lengths(o, remaining, capacity)
  {
    hide AfterWrite;
  }

  /** A wire that goes on from the first one, and makes up the whole with the packet at hand and the payload left. */
  ghost predicate Comes(first: seq<byte>, whole: seq<byte>, wire: seq<byte>, o: Outbound, memory: int -> byte,
                        current: int, length: int) {
    first <= wire && whole == wire + o.packet + Slice(memory, current + |o.packet| - o.dataOffset, length)
  }

  lemma ComesFirst(wire: seq<byte>, o: Outbound, memory: int -> byte, length: int)
    ensures Comes(wire, wire + o.packet + Followup(o, memory, length), wire, o, memory, 0, length)
  {
  }

  lemma ComesPartly(first: seq<byte>, whole: seq<byte>, wire: seq<byte>, o: Outbound, memory: int -> byte,
                    current: int, length: int, done: nat)
    requires Comes(first, whole, wire, o, memory, current, length) && done <= |o.packet|
    ensures first <= wire + o.packet[..done] <= whole
  {
  }

  lemma ComesNext(first: seq<byte>, whole: seq<byte>, wire: seq<byte>, o: Outbound, memory: int -> byte,
                  current: int, length: int, size: int)
    requires Comes(first, whole, wire, o, memory, current, length)
    ensures var (next, sent) := (current + |o.packet| - o.dataOffset, wire + o.packet[..|o.packet|]);
            && (length <= next ==> whole == sent && first <= sent)
            && (0 <= size <= length - next ==>
                  && |Slice(memory, next, next + size)| == size
                  && Comes(first, whole, sent, Outbound(Slice(memory, next, next + size), 0, false), memory,
                           next, length))
  {
    var next := current + |o.packet| - o.dataOffset;
    if 0 <= size <= length - next {
      assert Slice(memory, next, length) == Slice(memory, next, next + size) + Slice(memory, next + size, length);
      Regroup(wire + o.packet, Slice(memory, next, next + size), Slice(memory, next + size, length));
    }
  }

  function Total(lengths: seq<nat>): nat {
    if lengths == [] then 0 else lengths[0] + Total(lengths[1..])
  }

  lemma {:induction false} OneAtATime(accepts: seq<int>, length: nat)
    requires AllPositive(accepts) && |accepts| >= length
    ensures var r := AfterWrite(accepts, length);
            r.Some? && AllPositive(r.value) && |r.value| >= |accepts| - length
  {
    if length > 0 {
      assert forall k :: 0 <= k < |accepts| - 1 ==> accepts[1..][k] == accepts[k + 1];
      OneAtATime(accepts[1..], length - Least(accepts[0], length));
    }
  }

  /** A transport that takes something with each call gets every message written, however little it takes. */
  lemma {:induction false} AllWritten(accepts: seq<int>, lengths: seq<nat>)
    requires AllPositive(accepts) && |accepts| >= Total(lengths)
    ensures AfterWrites(accepts, lengths).Some?
    decreases |lengths|
  {
    if lengths != [] {
      OneAtATime(accepts, lengths[0]);
      AllWritten(AfterWrite(accepts, lengths[0]).value, lengths[1..]);
    }
  }

  class Sender {
    const capacity: nat
    var outbound: Outbound
    var wire: seq<byte>
    var accepts: seq<int>

    constructor (capacity: nat, accepts: seq<int>)
      ensures this.capacity == capacity && this.accepts == accepts && wire == []
      ensures outbound == Outbound([], 0, false)
    {
      this.capacity := capacity;
      this.accepts := accepts;
      wire, outbound := [], Outbound([], 0, false);
    }

    /** One transport call: how many of the bytes it took, or a failure. A finished script means a timeout. */
    method Transport(length: nat) returns (taken: int)
      requires length > 0
      modifies this`accepts
      ensures taken == if old(accepts) == [] then 0 else Least(old(accepts[0]), length)
      ensures accepts == if old(accepts) == [] then [] else old(accepts[1..])
    {
      taken := 0;
      if accepts != [] {
        taken := if accepts[0] <= length then accepts[0] else length;
        accepts := accepts[1..];
      }
    }

    /** Writes the outbound packet, in as many transport calls as it takes. */
    method Write() returns (ok: bool, ghost done: nat)
      modifies this`wire, this`accepts
      ensures done <= |outbound.packet| && wire == old(wire) + outbound.packet[..done]
      ensures ok <==> done == |outbound.packet|
      ensures done == Taken(old(accepts), |outbound.packet|)
      ensures ok ==> AfterWrite(old(accepts), |outbound.packet|) == Some(accepts)
    {
      var length, index := |outbound.packet|, 0;
      done := 0;
      while length > 0
        invariant 0 <= length && 0 <= index == done && index + length == |outbound.packet| && outbound == old(outbound)
        invariant wire == old(wire) + outbound.packet[..index]
        invariant index + Taken(accepts, length) == Taken(old(accepts), |outbound.packet|)
        invariant AfterWrite(accepts, length) == AfterWrite(old(accepts), |outbound.packet|)
        decreases length
      {
        var taken := Transport(length);
        if taken <= 0 {
          return false, done;
        }
        assert outbound.packet[..index + taken] == outbound.packet[..index] + outbound.packet[index..index + taken];
        wire := wire + outbound.packet[index..index + taken];
        index := index + taken;
        length := length - taken;
        done := index;
      }
      return true, done;
    }

    /** A packet without payload; connect, subscribe and unsubscribe clear what an earlier message left. */
    method ComposeControl(packet: seq<byte>, shift: nat, request: bool)
      modifies this`outbound
      ensures outbound.packet == packet && !outbound.fragmented
      ensures outbound.dataOffset
           == NextOffset(old(outbound.dataOffset), if request then Request(shift) else Control(shift))
    {
      if request {
        outbound := outbound.(dataOffset := 0, fragmented := false);
      }
      outbound := outbound.(packet := packet, dataOffset := outbound.dataOffset - shift, fragmented := false);
    }

    method ComposePublish(start: nat, header: seq<byte>, payload: seq<byte>)
      requires HeaderFits(start, header, payload) && start <= capacity
      modifies this`outbound
      ensures outbound == Compose(capacity, start, header, payload, old(outbound.dataOffset))
    {
      var shift := start - |header|;
      if start + |payload| > capacity {
        outbound := Outbound(header + payload[..capacity - start], start, true);
      } else {
        outbound := outbound.(packet := header + payload, fragmented := false);
      }
      outbound := outbound.(dataOffset := outbound.dataOffset - shift);
    }

    /** Copies the whole message to the outbox; the total length is forgotten, the offset is not. */
    method StorePublish(outbox: Outbox, id: nat, qos: nat, start: nat, header: seq<byte>, payload: seq<byte>, now: int)
      requires outbox.Valid() && HeaderFits(start, header, payload) && start <= capacity
      modifies this`outbound, outbox
      ensures outbox.Valid()
      ensures outbox.items == old(outbox.items) + [Item(id, Publish, qos, now, Queued, header + payload)]
      ensures outbound == Compose(capacity, start, header, payload, old(outbound.dataOffset)).(fragmented := false)
    {
      ghost var stale := outbound.dataOffset;
      ComposePublish(start, header, payload);
      StoredWhole(capacity, start, header, payload, stale);
      if !outbound.fragmented {
        assert header + payload + [] == header + payload;
        outbox.Enqueue(id, Publish, qos, outbound.packet, [], now);
      } else {
        var first := |outbound.packet| - outbound.dataOffset;
        outbox.Enqueue(id, Publish, qos, outbound.packet, payload[first..], now);
        outbound := outbound.(fragmented := false);
      }
    }

    /** Where the writing of a message is, or that it is over. */
    ghost predicate Underway(sending: bool, first: seq<byte>, whole: seq<byte>, fate: Option<seq<int>>,
                             memory: int -> byte, length: int, current: int)
      reads this
      requires capacity > 0
    {
      if sending then
        && AfterWrites(accepts, Lengths(outbound, length - current, capacity)) == fate
        && Comes(first, whole, wire, outbound, memory, current, length)
      else fate.Some? && first <= wire && wire == whole && outbound.dataOffset == 0 && !outbound.fragmented
    }

    /** Writes the composed packet and then the rest of the payload, one buffer at a time. */
    method SendFragments(memory: int -> byte, length: int) returns (ok: bool)
      requires capacity > 0
      modifies this
      ensures var whole := old(wire) + old(outbound.packet) + Followup(old(outbound), memory, length);
              if ok then wire == whole && outbound.dataOffset == 0 && !outbound.fragmented else wire <= whole
      ensures old(wire) <= wire
      ensures ok <==> AfterWrites(old(accepts), Lengths(old(outbound), length, capacity)).Some?
    {
      ghost var first, whole := wire, wire + outbound.packet + Followup(outbound, memory, length);
      ghost var fate := AfterWrites(accepts, Lengths(outbound, length, capacity));
      hide Taken, AfterWrite, AfterWrites, Lengths, Slice, Followup, Comes;
      ComesFirst(wire, outbound, memory, length);
      ok := true;
      var current := 0;
      var sending := true;
      while sending
        invariant ok && Underway(sending, first, whole, fate, memory, length, current)
        decreases if sending then 1 + Span(current + |outbound.packet| - outbound.dataOffset, length) else 0
      {
        ok, sending, current := SendPiece(memory, length, current, first, whole, fate);
        if !ok {
          return;
        }
      }
    }

    /** Writes the packet at hand, and takes the next piece of the payload into the buffer if there is one. */
    method SendPiece(memory: int -> byte, length: int, current: int, ghost first: seq<byte>, ghost whole: seq<byte>,
                     ghost fate: Option<seq<int>>)
      returns (ok: bool, more: bool, next: int)
      requires capacity > 0 && Underway(true, first, whole, fate, memory, length, current)
      modifies this
      ensures if ok then Underway(more, first, whole, fate, memory, length, next)
              else first <= wire && wire <= whole && fate.None?
      ensures ok && more ==>
                Span(next + |outbound.packet| - outbound.dataOffset, length)
                < Span(current + |old(outbound.packet)| - old(outbound.dataOffset), length)
    {
      hide Taken, AfterWrite, AfterWrites, Lengths, Slice, Comes;
      ghost var before, o := wire, outbound;
      next, more := current, false;
      WriteStep(accepts, outbound, length - current, capacity);
      ghost var done;
      ok, done := Write();
      if !ok {
        ComesPartly(first, whole, before, o, memory, current, length, done);
        return;
      }
      next := current + |outbound.packet| - outbound.dataOffset;
      outbound := outbound.(dataOffset := 0, fragmented := false);
      var remaining := length - next;
      var size := if remaining > capacity then capacity else remaining;
      ComesNext(first, whole, before, o, memory, current, length, size);
      more := remaining > 0;
      if more {
        outbound := outbound.(packet := Slice(memory, next, next + size));
      }
      NextPiece(accepts, outbound, remaining, capacity);
    }

    /**
     A publish of QoS 1 or 2 while connected: stored whole whatever happens, and, when every write goes through,
     on the wire exactly as stored if and only if the earlier offset does no harm. A write that fails leaves a
     beginning of what was to be written.
     */
    method StoreAndSend(outbox: Outbox, id: nat, qos: nat, start: nat, header: seq<byte>, payload: seq<byte>,
                        memory: int -> byte, now: int, mayWrite: bool) returns (ok: bool)
      requires outbox.Valid() && HeaderFits(start, header, payload) && start <= capacity && capacity > 0
      requires PayloadAt(memory, payload)
      modifies this, outbox
      ensures outbox.Valid()
      ensures outbox.items == old(outbox.items) + [Item(id, Publish, qos, now, Queued, header + payload)]
      ensures ok ==> mayWrite && outbound.dataOffset == NextOffset(old(outbound.dataOffset), Written)
      ensures ok ==>
                (wire == old(wire) + outbox.items[|outbox.items| - 1].data
                 <==> start + |payload| > capacity || old(outbound.dataOffset) <= start)
      ensures var o := Compose(capacity, start, header, payload, old(outbound.dataOffset));
              var whole := old(wire) + o.packet + Followup(o, memory, |payload|);
              if ok then wire == whole else old(wire) <= wire <= whole
      ensures ok <==>
                && mayWrite
                && var o := Compose(capacity, start, header, payload, old(outbound.dataOffset));
                   AfterWrites(old(accepts), Lengths(o, |payload|, capacity)).Some?
      ensures !mayWrite ==> wire == old(wire)
      ensures !mayWrite ==>
                outbound.dataOffset == NextOffset(old(outbound.dataOffset),
                                                  Held(start, |header|, start + |payload| > capacity))
    {
      ghost var stale := outbound.dataOffset;
      StorePublish(outbox, id, qos, start, header, payload, now);
      if !mayWrite {
        return false;
      }
      ghost var o := Compose(capacity, start, header, payload, stale);
      ok := SendFragments(memory, |payload|);
      WrittenWholeIff(capacity, start, header, payload, stale, memory);
      if ok {
        Regroup(old(wire), o.packet, Followup(o, memory, |payload|));
        SameTail(old(wire), o.packet + Followup(o, memory, |payload|), header + payload);
      }
    }
  }

  lemma SameTail(prefix: seq<byte>, a: seq<byte>, b: seq<byte>)
    ensures prefix + a == prefix + b <==> a == b
  {
    if prefix + a == prefix + b {
      assert a == (prefix + a)[|prefix|..] && b == (prefix + b)[|prefix|..];
    }
  }
}

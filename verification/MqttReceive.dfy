/**
 Delivering one incoming PUBLISH that may be longer than the receive buffer: the first data event carries
 what was received with the header, further ones whatever each read of the transport returns.
 */
module MqttReceive {

  /** The payload a data event announces: its place in the message and the message's full length. */
  datatype DataEvent = DataEvent(offset: nat, length: nat, total: nat)

  /** From position `from` the events cover the payload without gap or overlap, up to position `to`. */
  ghost predicate Tiles(events: seq<DataEvent>, from: nat, to: nat, total: nat) {
    if events == [] then from == to
    else events[0].offset == from && events[0].total == total && Tiles(events[1..], from + events[0].length, to, total)
  }

  lemma {:induction false} TilesAppend(events: seq<DataEvent>, from: nat, to: nat, total: nat, length: nat)
    requires Tiles(events, from, to, total)
    ensures Tiles(events + [DataEvent(to, length, total)], from, to + length, total)
  {
    var more := events + [DataEvent(to, length, total)];
    if events == [] {
      assert more[1..] == [];
    } else {
      assert more[1..] == events[1..] + [DataEvent(to, length, total)];
      TilesAppend(events[1..], from + events[0].length, to, total, length);
    }
  }

  lemma TilesNothing(total: nat)
    ensures Tiles([], 0, 0, total)
  {
  }

  /** The event a payload position belongs to. */
  predicate Covers(event: DataEvent, position: nat) {
    event.offset <= position < event.offset + event.length
  }

  lemma {:induction false} TilesFrom(events: seq<DataEvent>, from: nat, to: nat, total: nat, k: nat)
    requires Tiles(events, from, to, total) && k < |events|
    ensures from <= events[k].offset && events[k].offset + events[k].length <= to && events[k].total == total
  {
    if k > 0 {
      TilesFrom(events[1..], from + events[0].length, to, total, k - 1);
    } else if |events| > 1 {
      TilesFrom(events[1..], from + events[0].length, to, total, 0);
    } else {
      assert events[1..] == [];
    }
  }

  /** What tiling means to a listener: every payload byte before `to` arrives in exactly one event. */
  lemma {:induction false} EachByteOnce(events: seq<DataEvent>, from: nat, to: nat, total: nat, position: nat)
    requires Tiles(events, from, to, total) && from <= position < to
    ensures exists k :: 0 <= k < |events| && Covers(events[k], position)
    ensures forall k, l ::
              0 <= k < |events| && 0 <= l < |events| && Covers(events[k], position) && Covers(events[l], position) ==>
                k == l
  {
    var next := from + events[0].length;
    if position < next {
      assert Covers(events[0], position);
      forall k | 1 <= k < |events|
        ensures !Covers(events[k], position)
      {
        TilesFrom(events[1..], next, to, total, k - 1);
      }
    } else {
      EachByteOnce(events[1..], next, to, total, position);
      var k :| 0 <= k < |events[1..]| && Covers(events[1..][k], position);
      assert Covers(events[k + 1], position);
      forall i, l | 0 <= i < |events| && 0 <= l < |events| && Covers(events[i], position) && Covers(events[l], position)
        ensures i == l
      {
        assert i > 0 && l > 0;
        assert Covers(events[1..][i - 1], position) && Covers(events[1..][l - 1], position);
      }
    }
  }

  predicate AllPositive(counts: seq<int>) {
    forall k :: 0 <= k < |counts| ==> counts[k] > 0
  }

  /** How the reading of a message ends: with its last byte, with a read that times out or with one that fails. */
  datatype Ending = Complete | TimedOut | Failed

  function Min(a: int, b: int): int {
    if a <= b then a else b
  }

  /**
   The ending with `left` bytes to come. Each read asks for what is left, at most a buffer; a count of 0 is a
   timeout, and so is the end of the script.
   */
  function Fate(arrivals: seq<int>, bufferLength: nat, left: nat): Ending
    requires bufferLength > 0
  {
    if left == 0 then Complete
    else if arrivals == [] || arrivals[0] == 0 then TimedOut
    else if arrivals[0] < 0 then Failed
    else Fate(arrivals[1..], bufferLength, left - Min(arrivals[0], Min(left, bufferLength)))
  }

  /** The bytes read before that ending. */
  function Arrived(arrivals: seq<int>, bufferLength: nat, left: nat): (n: nat)
    requires bufferLength > 0
    ensures n <= left && (n == left <==> Fate(arrivals, bufferLength, left) == Complete)
  {
    if left == 0 || arrivals == [] || arrivals[0] <= 0 then 0
    else
      var count := Min(arrivals[0], Min(left, bufferLength));
      count + Arrived(arrivals[1..], bufferLength, left - count)
  }

  /** What so many reads can bring at most, none of them more than a buffer. */
  function Received(counts: seq<int>, bufferLength: nat): int {
    if counts == [] then 0 else Min(counts[0], bufferLength) + Received(counts[1..], bufferLength)
  }

  /** The first n counts are positive and bring all that is left. */
  predicate Enough(arrivals: seq<int>, bufferLength: nat, left: nat, n: nat) {
    n <= |arrivals| && AllPositive(arrivals[..n]) && left <= Received(arrivals[..n], bufferLength)
  }

  /** Count n is the first that is not positive, or the script ends there, and the ones before do not bring enough. */
  predicate StopsAt(arrivals: seq<int>, bufferLength: nat, left: nat, n: nat) {
    && n <= |arrivals| && AllPositive(arrivals[..n]) && Received(arrivals[..n], bufferLength) < left
    && (n < |arrivals| ==> arrivals[n] <= 0)
  }

  predicate StopsQuietly(arrivals: seq<int>, bufferLength: nat, left: nat, n: nat) {
    StopsAt(arrivals, bufferLength, left, n) && (n == |arrivals| || arrivals[n] == 0)
  }

  lemma {:induction false} FateOf(arrivals: seq<int>, bufferLength: nat, left: nat, n: nat)
    requires bufferLength > 0
    ensures Enough(arrivals, bufferLength, left, n) ==> Fate(arrivals, bufferLength, left) == Complete
    ensures StopsAt(arrivals, bufferLength, left, n) ==>
              Fate(arrivals, bufferLength, left) == if n == |arrivals| || arrivals[n] == 0 then TimedOut else Failed
  {
    if n > |arrivals| || !AllPositive(arrivals[..n]) {
    } else if left == 0 {
      ReceivedNotNegative(arrivals[..n], bufferLength);
    } else if n > 0 {
      var count := Min(arrivals[0], Min(left, bufferLength));
      assert arrivals[..n][0] > 0 && arrivals[..n][1..] == arrivals[1..][..n - 1];
      assert AllPositive(arrivals[1..][..n - 1]);
      ReceivedNotNegative(arrivals[1..][..n - 1], bufferLength);
      FateOf(arrivals[1..], bufferLength, left - count, n - 1);
    }
  }

  lemma {:induction false} ReceivedNotNegative(counts: seq<int>, bufferLength: nat)
    requires AllPositive(counts)
    ensures Received(counts, bufferLength) >= 0
  {
    if counts != [] {
      ReceivedNotNegative(counts[1..], bufferLength);
    }
  }

  lemma {:induction false} FateHasPlace(arrivals: seq<int>, bufferLength: nat, left: nat) returns (n: nat)
    requires bufferLength > 0
    ensures Enough(arrivals, bufferLength, left, n) || StopsAt(arrivals, bufferLength, left, n)
  {
    n := 0;
    if left > 0 && arrivals != [] && arrivals[0] > 0 {
      var count := Min(arrivals[0], Min(left, bufferLength));
      var m := FateHasPlace(arrivals[1..], bufferLength, left - count);
      n := m + 1;
      assert arrivals[..n][0] == arrivals[0] && arrivals[..n][1..] == arrivals[1..][..m];
      assert AllPositive(arrivals[1..][..m]);
      forall k | 0 <= k < n ensures arrivals[..n][k] > 0 {
        assert k > 0 ==> arrivals[..n][k] == arrivals[1..][..m][k - 1];
      }
      ReceivedNotNegative(arrivals[1..][..m], bufferLength);
    }
  }

  /**
   Over every script: the message is complete exactly when the counts bring it before one is not positive, and
   the delivery times out exactly when the first such count is 0, or the script ends, before that.
   */
  lemma FateIff(arrivals: seq<int>, bufferLength: nat, left: nat)
    requires bufferLength > 0
    ensures Fate(arrivals, bufferLength, left) == Complete <==> exists n: nat :: Enough(arrivals, bufferLength, left, n)
    ensures Fate(arrivals, bufferLength, left) == TimedOut
            <==> exists n: nat :: StopsQuietly(arrivals, bufferLength, left, n)
  {
    forall n: nat
      ensures Enough(arrivals, bufferLength, left, n) ==> Fate(arrivals, bufferLength, left) == Complete
      ensures StopsQuietly(arrivals, bufferLength, left, n) ==> Fate(arrivals, bufferLength, left) == TimedOut
    {
      FateOf(arrivals, bufferLength, left, n);
    }
    var n := FateHasPlace(arrivals, bufferLength, left);
    FateOf(arrivals, bufferLength, left, n);
    if Fate(arrivals, bufferLength, left) == TimedOut {
      assert StopsQuietly(arrivals, bufferLength, left, n);
    }
  }

  /** As many positive counts as there are bytes left are enough, however small they are. */
  lemma {:induction false} PositiveReadsComplete(arrivals: seq<int>, bufferLength: nat, left: nat)
    requires bufferLength > 0 && AllPositive(arrivals) && left <= |arrivals|
    ensures Fate(arrivals, bufferLength, left) == Complete
  {
    if left > 0 {
      PositiveReadsComplete(arrivals[1..], bufferLength, left - Min(arrivals[0], Min(left, bufferLength)));
    }
  }

  class Receiver {
    const bufferLength: nat
    var arrivals: seq<int>
    var events: seq<DataEvent>
    /** The longest read asked of the transport. */
    var largestRead: nat

    constructor (bufferLength: nat, arrivals: seq<int>)
      ensures this.bufferLength == bufferLength && this.arrivals == arrivals && events == [] && largestRead == 0
    {
      this.bufferLength, this.arrivals, events, largestRead := bufferLength, arrivals, [], 0;
    }

    /** One transport read of at most `length` bytes; 0 or less is a timeout or an error. */
    method Read(length: nat) returns (count: int)
      requires 0 < length <= bufferLength
      modifies this`arrivals, this`largestRead
      ensures count <= length
      ensures if old(arrivals) == [] then arrivals == [] && count == 0
              else arrivals == old(arrivals)[1..] && count == Min(old(arrivals)[0], length)
      ensures largestRead == old(largestRead) || largestRead == length
    {
      count := 0;
      if length > largestRead {
        largestRead := length;
      }
      if arrivals != [] {
        count := Min(arrivals[0], length);
        arrivals := arrivals[1..];
      }
    }

    /**
     readLength bytes of a message of messageLength are in the buffer, dataLength of them payload. The events
     tile the payload from 0 up to what was delivered, which is all of it exactly when the reads brought all of it.
     A read that times out (the transport's code is 0) ends the delivery without an error: exactly then `ok` comes
     with a message that is not complete.
     */
    method DeliverPublish(dataLength: nat, readLength: nat, messageLength: nat)
      returns (ok: bool, complete: bool, delivered: nat)
      requires bufferLength > 0
      requires dataLength <= readLength <= messageLength
      requires events == [] && largestRead == 0
      modifies this
      ensures var total := dataLength + messageLength - readLength;
              && events != [] && events[0].length == dataLength
              && delivered <= total && Tiles(events, 0, delivered, total) && (complete <==> delivered == total)
      ensures largestRead <= bufferLength
      ensures var fate := Fate(old(arrivals), bufferLength, messageLength - readLength);
              (complete <==> fate == Complete) && (ok && !complete <==> fate == TimedOut) && (!ok <==> fate == Failed)
      ensures delivered == dataLength + Arrived(old(arrivals), bufferLength, messageLength - readLength)
    {
      hide Tiles;
      var total := dataLength + messageLength - readLength;
      TilesNothing(total);
      var offset, length, read := 0, dataLength, readLength;
      var sending := true;
      events := [];
      delivered := 0;
      while sending
        invariant offset == delivered && length >= 0
        invariant read <= messageLength && delivered + length + (messageLength - read) == total
        invariant sending ==> Tiles(events, 0, delivered, total)
        invariant !sending ==> read == messageLength && Tiles(events, 0, total, total)
        invariant events == [] ==> sending && length == dataLength
        invariant events != [] ==> events[0].length == dataLength
        invariant largestRead <= bufferLength
        invariant Fate(arrivals, bufferLength, messageLength - read)
               == Fate(old(arrivals), bufferLength, messageLength - readLength)
        invariant read + Arrived(arrivals, bufferLength, messageLength - read)
               == readLength + Arrived(old(arrivals), bufferLength, messageLength - readLength)
        decreases if sending then 1 + messageLength - read else 0
      {
        TilesAppend(events, 0, delivered, total, length);
        events := events + [DataEvent(offset, length, total)];
        sending := false;
        if read < messageLength {
          sending := true;
          offset := offset + length;
          delivered := delivered + length;
          var wanted := Min(messageLength - read, bufferLength);
          var count := Read(wanted);
          if count <= 0 {
            return count == 0, false, delivered;
          }
          length := count;
          read := read + count;
        }
      }
      return true, true, total;
    }
  }
}

/**
 Keep-alive of the MQTT client: a ping when half the interval has gone by, and the connection dropped when
 the answer does not come within a whole one.
 */
module MqttKeepAlive {
  import opened Common

  const TWO63 := 0x8000_0000_0000_0000
  const TWO64 := 0x1_0000_0000_0000_0000

  /** A 64-bit word read as a signed number. */
  function Signed(word: int): int
    requires 0 <= word < TWO64
  {
    if word < TWO63 then word else word - TWO64
  }

  /** has_timed_out: the sum and the difference wrap, and the sign of the difference decides. */
  predicate HasTimedOut(last: nat, timeout: nat, now: nat) {
    Signed(((last + timeout) % TWO64 - now) % TWO64) <= 0
  }

  /** For spans under 2^63 either way, the wrapping test is the comparison it stands for. */
  lemma TimedOutIsComparison(last: nat, timeout: nat, now: nat)
    requires last < TWO64 && timeout < TWO64 && now < TWO64
    requires -TWO63 <= last + timeout - now < TWO63
    ensures HasTimedOut(last, timeout, now) <==> now >= last + timeout
  {
  }

  /** For a deadline that starts in the past, exactly the spans of more than 2^63 past it are misjudged. */
  lemma MisjudgedIff(last: nat, timeout: nat, now: nat)
    requires last <= now < TWO64 && timeout < TWO63
    ensures (HasTimedOut(last, timeout, now) <==> now >= last + timeout) <==> now - (last + timeout) <= TWO63
  {
  }

  // ------------------------------------------------------------ the machine

  /** keepalive in seconds, keepalive_tick, wait_for_ping_resp and whether the connection stands. */
  datatype State = State(keepalive: nat, tick: nat, waiting: bool, connected: bool)

  /**
   Connect and Refused: the answer to CONNECT, with the Server Keep Alive if it names one. Check: process_keepalive,
   once in a turn of the client's loop, even when a failed resend has dropped the connection earlier in that turn.
   Lost: the connection drops for another reason.
   */
  datatype Event =
    | Connect(now: nat, server: Option<nat>)
    | Refused(now: nat, server: Option<nat>)
    | Check(now: nat, pingWritten: bool)
    | PingResponse(now: nat)
    | Lost(now: nat)

  datatype Outcome = Nothing | PingSent | PingFailed | NoResponse

  function IntervalMs(keepalive: nat): nat {
    keepalive * 1000
  }

  /** The interval that a CONNACK leaves: its own, or else the one before. */
  function Agreed(keepalive: nat, server: Option<nat>): nat {
    if server.Some? then server.value else keepalive
  }

  function Decide(s: State, e: Event): Outcome {
    if !e.Check? || s.keepalive == 0 then Nothing
    else if s.waiting then if HasTimedOut(s.tick, IntervalMs(s.keepalive), e.now) then NoResponse else Nothing
    else if HasTimedOut(s.tick, IntervalMs(s.keepalive) / 2, e.now) then if e.pingWritten then PingSent else PingFailed
    else Nothing
  }

  /** A refused CONNACK has been parsed by then, so its interval stays. */
  function Next(s: State, e: Event): State {
    match e
    case Connect(now, server) => State(Agreed(s.keepalive, server), now, false, true)
    case Refused(_, server) => State(Agreed(s.keepalive, server), s.tick, false, false)
    case PingResponse(now) => if s.connected then s.(tick := now, waiting := false) else s
    case Lost(_) => s.(waiting := false, connected := false)
    case Check(_, _) =>
      match Decide(s, e)
      case Nothing => s
      case PingSent => s.(waiting := true)
      case PingFailed => s.(waiting := false, connected := false)
      case NoResponse => s.(waiting := false, connected := false)
  }

  function Idle(keepalive: nat): State {
    State(keepalive, 0, false, false)
  }

  /** The state after a run, latest event last. */
  function After(keepalive: nat, events: seq<Event>): State {
    if events == [] then Idle(keepalive)
    else Next(After(keepalive, events[..|events| - 1]), events[|events| - 1])
  }

  function OutcomeAt(keepalive: nat, events: seq<Event>, k: nat): Outcome
    requires k < |events|
  {
    Decide(After(keepalive, events[..k]), events[k])
  }

  // ------------------------------------- the history, told by what was observed

  /** Whether a connection stands before event k: it was made, and nothing has ended it since. */
  predicate Standing(keepalive: nat, events: seq<Event>, k: nat)
    requires k <= |events|
  {
    k > 0
    && (events[k - 1].Connect?
        || (Standing(keepalive, events, k - 1) && !events[k - 1].Lost? && !events[k - 1].Refused?
            && OutcomeAt(keepalive, events, k - 1) != PingFailed && OutcomeAt(keepalive, events, k - 1) != NoResponse))
  }

  /** The time of the latest connect or ping response before event k. */
  function Anchor(keepalive: nat, events: seq<Event>, k: nat): nat
    requires k <= |events|
  {
    if k == 0 then 0
    else if events[k - 1].Connect? || (events[k - 1].PingResponse? && Standing(keepalive, events, k - 1))
    then events[k - 1].now
    else Anchor(keepalive, events, k - 1)
  }

  /** Before event k: the pings sent and not answered since the latest connect, or since the connection was given up. */
  function Outstanding(keepalive: nat, events: seq<Event>, k: nat): nat
    requires k <= |events|
  {
    if k == 0 || Settles(keepalive, events, k - 1) then 0
    else Outstanding(keepalive, events, k - 1) + if OutcomeAt(keepalive, events, k - 1) == PingSent then 1 else 0
  }

  /** Event k leaves no ping outstanding. */
  predicate Settles(keepalive: nat, events: seq<Event>, k: nat)
    requires k < |events|
  {
    || events[k].Connect? || events[k].Refused? || events[k].Lost?
    || (events[k].PingResponse? && Standing(keepalive, events, k))
    || OutcomeAt(keepalive, events, k) == PingFailed || OutcomeAt(keepalive, events, k) == NoResponse
  }

  predicate NamesInterval(e: Event) {
    (e.Connect? || e.Refused?) && e.server.Some?
  }

  /** The interval in force before event k: that of the latest CONNACK to name one, else the configured one. */
  function InForce(keepalive: nat, events: seq<Event>, k: nat): nat
    requires k <= |events|
  {
    if k == 0 then keepalive
    else if NamesInterval(events[k - 1]) then events[k - 1].server.value
    else InForce(keepalive, events, k - 1)
  }

  /** Time does not run backwards, no span reaches 2^63 milliseconds, and a Server Keep Alive has 16 bits. */
  ghost predicate Timely(keepalive: nat, events: seq<Event>) {
    && IntervalMs(keepalive) < TWO63
    && (forall k :: 0 <= k < |events| ==> events[k].now < TWO63)
    && (forall k :: 0 <= k < |events| && NamesInterval(events[k]) ==> events[k].server.value < 0x1_0000)
    && (forall j, k :: 0 <= j <= k < |events| ==> events[j].now <= events[k].now)
  }

  lemma {:induction false} HistoryIsState(keepalive: nat, events: seq<Event>, k: nat)
    requires k <= |events| && Timely(keepalive, events)
    ensures var s := After(keepalive, events[..k]);
            && s.connected == Standing(keepalive, events, k)
            && s.tick == Anchor(keepalive, events, k)
            && s.keepalive == InForce(keepalive, events, k)
            && (s.waiting <==> Outstanding(keepalive, events, k) == 1)
            && Outstanding(keepalive, events, k) <= 1
            && s.tick < TWO63 && IntervalMs(s.keepalive) < TWO63
            && (k < |events| ==> s.tick <= events[k].now)
  {
    if k > 0 {
      HistoryIsState(keepalive, events, k - 1);
      assert events[..k][..k - 1] == events[..k - 1];
    }
  }

  /**
   In every run: a check tries to ping exactly when keep-alive is on, no ping is outstanding and half the interval in
   force has gone by since the connect or the last response, whether the connection still stands or not, and the ping
   goes out exactly when it can be written; it gives the connection up exactly when one ping is outstanding and the
   whole interval has gone by. There is never a second ping outstanding.
   */
  lemma KeepAliveIff(keepalive: nat, events: seq<Event>, k: nat)
    requires k < |events| && events[k].Check? && Timely(keepalive, events)
    ensures var o, now, interval := OutcomeAt(keepalive, events, k), events[k].now, InForce(keepalive, events, k);
            var pings, anchor := Outstanding(keepalive, events, k), Anchor(keepalive, events, k);
            && (o == PingSent <==>
                interval > 0 && pings == 0 && now >= anchor + IntervalMs(interval) / 2 && events[k].pingWritten)
            && (o == PingFailed <==>
                interval > 0 && pings == 0 && now >= anchor + IntervalMs(interval) / 2 && !events[k].pingWritten)
            && (o == NoResponse <==>
                interval > 0 && pings == 1 && now >= anchor + IntervalMs(interval))
            && pings <= 1
  {
    HistoryIsState(keepalive, events, k);
    var s := After(keepalive, events[..k]);
    TimedOutIsComparison(s.tick, IntervalMs(s.keepalive), events[k].now);
    TimedOutIsComparison(s.tick, IntervalMs(s.keepalive) / 2, events[k].now);
  }

  /** A turn in which a resend has dropped the connection may still try a ping, with none standing to send it on. */
  lemma {:induction false} PingAfterDropIff(keepalive: nat, events: seq<Event>, k: nat)
    requires k + 1 < |events| && events[k].Lost? && events[k + 1].Check? && Timely(keepalive, events)
    ensures !Standing(keepalive, events, k + 1)
    ensures var o, interval := OutcomeAt(keepalive, events, k + 1), InForce(keepalive, events, k + 1);
            && (o == (if events[k + 1].pingWritten then PingSent else PingFailed) <==>
                interval > 0 && events[k + 1].now >= Anchor(keepalive, events, k) + IntervalMs(interval) / 2)
            && o != NoResponse
  {
    KeepAliveIff(keepalive, events, k + 1);
  }

  class Connection {
    var keepalive: nat
    var tick: nat
    var waitForPingResponse: bool
    var connected: bool
    /** How many PINGREQ packets have gone out. */
    var pings: nat

    ghost function View(): State
      reads this
    {
      State(keepalive, tick, waitForPingResponse, connected)
    }

    constructor (keepalive: nat)
      ensures View() == Idle(keepalive) && pings == 0
    {
      this.keepalive := keepalive;
      tick, waitForPingResponse, connected, pings := 0, false, false, 0;
    }

    method OnConnect(now: nat, server: Option<nat>)
      modifies this
      ensures View() == Next(old(View()), Connect(now, server)) && pings == old(pings)
    {
      waitForPingResponse := false;
      if server.Some? {
        keepalive := server.value;
      }
      connected := true;
      tick := now;
    }

    method OnRefusal(now: nat, server: Option<nat>)
      modifies this
      ensures View() == Next(old(View()), Refused(now, server)) && pings == old(pings)
    {
      if server.Some? {
        keepalive := server.value;
      }
      Abort(now);
    }

    method OnPingResponse(now: nat)
      requires connected
      modifies this
      ensures View() == Next(old(View()), PingResponse(now)) && pings == old(pings)
    {
      waitForPingResponse := false;
      tick := now;
    }

    method Abort(now: nat)
      modifies this
      ensures View() == Next(old(View()), Lost(now)) && pings == old(pings)
    {
      connected := false;
      waitForPingResponse := false;
    }

    method ProcessKeepAlive(now: nat, pingWritten: bool) returns (ok: bool)
      modifies this
      ensures View() == Next(old(View()), Check(now, pingWritten))
      ensures var o := Decide(old(View()), Check(now, pingWritten));
              && (ok <==> o == Nothing || o == PingSent)
              && pings == old(pings) + if o == PingSent then 1 else 0
    {
      if keepalive > 0 {
        var intervalMs := keepalive * 1000;
        if waitForPingResponse {
          if HasTimedOut(tick, intervalMs, now) {
            Abort(now);
            waitForPingResponse := false;
            return false;
          }
          return true;
        }
        if HasTimedOut(tick, intervalMs / 2, now) {
          if !pingWritten {
            Abort(now);
            return false;
          }
          pings := pings + 1;
          waitForPingResponse := true;
          return true;
        }
      }
      return true;
    }
  }
}

/**
 * The reconnect machine of the broker service: connection events, the reconnect timer, and a
 * connectAndSetup that is interrupted between dialing and replaying the subscriptions.
 */
module Reconnect {

  const INITIAL_DELAY := 1000
  const MAX_DELAY := 30000

  /** Where the one connectAndSetup of the timer callback is. */
  datatype Attempt = NoAttempt | Dialing | Replaying

  /** replayed: every subscription consumes on the channel; delays: scheduled since the last full setup. */
  datatype Conn = Conn(
    channel: bool, reconnecting: bool, reconnectAttempt: nat, shuttingDown: bool,
    timer: bool, attempt: Attempt, replayed: bool, delays: seq<nat>, started: nat)

  /** After the first connectAndSetup has resolved. */
  const Connected := Conn(true, false, 0, false, false, NoAttempt, true, [], 0)

  datatype Event =
    | Issue          // error or close of any connection or channel, current or not
    | TimerFires
    | DialFails
    | ChannelSet     // connection and channel open, handlers registered
    | ReplayFails    // a bindAndConsume rejects
    | ReplayDone
    | Shutdown

  function Doubled(n: nat): (r: nat)
    ensures r >= INITIAL_DELAY
  {
    if n == 0 then INITIAL_DELAY else 2 * Doubled(n - 1)
  }

  function Delay(attempt: nat): (d: nat) {
    if Doubled(attempt) <= MAX_DELAY then Doubled(attempt) else MAX_DELAY
  }

  function Scheduled(c: Conn): (c': Conn) {
    if c.reconnecting || c.shuttingDown then c
    else c.(reconnecting := true, timer := true, reconnectAttempt := c.reconnectAttempt + 1,
            delays := c.delays + [Delay(c.reconnectAttempt)])
  }

  function Issued(c: Conn): (c': Conn) {
    if c.shuttingDown then c else Scheduled(c.(channel := false))
  }

  function Fired(c: Conn): (c': Conn) {
    if c.shuttingDown then c.(timer := false, reconnecting := false)
    else c.(timer := false, attempt := Dialing, started := c.started + 1)
  }

  /** The finally clause of the attempt. */
  function Ended(c: Conn): (c': Conn) {
    var c1 := c.(attempt := NoAttempt, reconnecting := false);
    if !c1.channel && !c1.shuttingDown then Scheduled(c1) else c1
  }

  /** bindFails: a bindAndConsume may reject although nothing took the channel away. */
  predicate Enabled(bindFails: bool, c: Conn, e: Event) {
    match e
    case Issue => true
    case TimerFires => c.timer
    case DialFails => c.attempt == Dialing
    case ChannelSet => c.attempt == Dialing
    case ReplayFails => c.attempt == Replaying && (bindFails || !c.channel)
    case ReplayDone => c.attempt == Replaying
    case Shutdown => true
  }

  function Apply(c: Conn, e: Event): (c': Conn) {
    match e
    case Issue => Issued(c)
    case TimerFires => Fired(c)
    case DialFails => Ended(c)
    case ChannelSet => c.(channel := true, attempt := Replaying, replayed := false)
    case ReplayFails => Ended(c)
    case ReplayDone => Ended(c.(reconnectAttempt := 0, delays := [], replayed := true))
    case Shutdown => c.(shuttingDown := true, timer := false)
  }

  ghost predicate IsRun(bindFails: bool, c: Conn, events: seq<Event>, c': Conn)
    decreases events
  {
    if events == [] then c' == c
    else Enabled(bindFails, c, events[0]) && IsRun(bindFails, Apply(c, events[0]), events[1..], c')
  }

  // ---------------------------------------------------------------- the object

  /** The service object; each method is one uninterrupted stretch of its code. */
  class BrokerConnection {
    var channel: bool
    var reconnecting: bool
    var reconnectAttempt: nat
    var shuttingDown: bool
    var reconnectTimer: bool
    var attempt: Attempt
    var replayed: bool
    var delays: seq<nat>
    var started: nat

    function View(): (c: Conn)
      reads this
    {
      Conn(channel, reconnecting, reconnectAttempt, shuttingDown, reconnectTimer, attempt, replayed, delays, started)
    }

    constructor ()
      ensures View() == Connected && Inv(View())
    {
      channel, reconnecting, reconnectAttempt, shuttingDown := true, false, 0, false;
      reconnectTimer, attempt, replayed, delays, started := false, NoAttempt, true, [], 0;
    }

    method ScheduleReconnect()
      modifies this
      ensures View() == Scheduled(old(View()))
      ensures old(reconnecting) || old(shuttingDown) ==> View() == old(View())
      ensures !old(reconnecting) && !old(shuttingDown) ==>
                reconnecting && reconnectTimer && |delays| == |old(delays)| + 1 &&
                  reconnectAttempt == old(reconnectAttempt) + 1
      ensures Inv(old(View())) ==> Inv(View())
    {
      if reconnecting || shuttingDown {
        return;
      }
      reconnecting := true;
      delays := delays + [Delay(reconnectAttempt)];
      reconnectAttempt := reconnectAttempt + 1;
      reconnectTimer := true;
    }

    method HandleConnectionIssue()
      modifies this
      ensures View() == Apply(old(View()), Issue)
      ensures old(shuttingDown) ==> View() == old(View())
      ensures !old(shuttingDown) ==> !channel && reconnecting && (!old(reconnecting) ==> reconnectTimer)
      ensures Inv(old(View())) ==> Inv(View())
    {
      if shuttingDown {
        return;
      }
      channel := false;
      ScheduleReconnect();
    }

    method OnTimer()
      requires reconnectTimer
      modifies this
      ensures View() == Apply(old(View()), TimerFires)
      ensures !reconnectTimer && started == old(started) + (if old(shuttingDown) then 0 else 1)
      ensures !old(shuttingDown) ==> attempt == Dialing && reconnecting == old(reconnecting)
      ensures old(shuttingDown) ==> attempt == old(attempt) && !reconnecting
      ensures Inv(old(View())) ==> Inv(View())
    {
      reconnectTimer := false;
      if shuttingDown {
        reconnecting := false;
        return;
      }
      attempt := Dialing;
      started := started + 1;
    }

    method OnChannelOpen()
      requires attempt == Dialing
      modifies this
      ensures View() == Apply(old(View()), ChannelSet)
      ensures channel && attempt == Replaying && !replayed && reconnectAttempt == old(reconnectAttempt)
      ensures Inv(old(View())) ==> Inv(View())
    {
      channel, attempt, replayed := true, Replaying, false;
    }

    /** The attempt ends, resolved or not; then the finally clause. */
    method OnAttemptEnd(resolved: bool)
      requires attempt == Replaying || (attempt == Dialing && !resolved)
      modifies this
      ensures resolved ==> View() == Apply(old(View()), ReplayDone)
      ensures !resolved ==> View() == Apply(old(View()), ReplayFails) == Apply(old(View()), DialFails)
      ensures attempt == NoAttempt && channel == old(channel) && reconnecting == (!channel && !shuttingDown)
      ensures resolved && channel ==> reconnectAttempt == 0 && delays == [] && replayed
      ensures resolved && !channel && !shuttingDown ==> reconnectAttempt == 1 && delays == [1000]
      ensures !resolved && (channel || shuttingDown) ==>
              reconnectAttempt == old(reconnectAttempt) && delays == old(delays)
      ensures !resolved && !channel && !shuttingDown ==>
                reconnectAttempt == old(reconnectAttempt) + 1 && |delays| == |old(delays)| + 1 && old(delays) <= delays
      ensures Inv(old(View())) ==> Inv(View())
    {
      if resolved {
        reconnectAttempt, delays, replayed := 0, [], true;
      }
      attempt, reconnecting := NoAttempt, false;
      if !channel && !shuttingDown {
        ScheduleReconnect();
      }
    }

    method OnModuleDestroy()
      modifies this
      ensures View() == Apply(old(View()), Shutdown)
      ensures shuttingDown && !reconnectTimer && channel == old(channel) && attempt == old(attempt)
      ensures Inv(old(View())) ==> Inv(View())
    {
      shuttingDown := true;
      if reconnectTimer {
        reconnectTimer := false;
      }
    }
  }

  // ---------------------------------------------------------------- what every run keeps

  predicate Inv(c: Conn) {
    && !(c.timer && c.attempt != NoAttempt)
    && (c.shuttingDown ==> !c.timer)
    && (c.timer || c.attempt != NoAttempt ==> c.reconnecting)
    && (c.reconnecting && !c.shuttingDown ==> c.timer || c.attempt != NoAttempt)
    && (!c.channel && !c.shuttingDown ==> c.reconnecting)
    && |c.delays| == c.reconnectAttempt
    && (forall i | 0 <= i < |c.delays| :: c.delays[i] == Delay(i))
  }

  lemma StepPreservesInv(bindFails: bool, c: Conn, e: Event)
    requires Inv(c) && Enabled(bindFails, c, e)
    ensures Inv(Apply(c, e))
    ensures c.shuttingDown ==>
              Apply(c, e).shuttingDown && Apply(c, e).started == c.started && Apply(c, e).delays <= c.delays
  {
  }

  lemma {:induction false} RunPreservesInv(bindFails: bool, c: Conn, events: seq<Event>, c': Conn)
    requires Inv(c) && IsRun(bindFails, c, events, c')
    ensures Inv(c')
    ensures c.shuttingDown ==> c'.shuttingDown && c'.started == c.started && c'.delays <= c.delays
    decreases events
  {
    if events != [] {
      StepPreservesInv(bindFails, c, events[0]);
      RunPreservesInv(bindFails, Apply(c, events[0]), events[1..], c');
    }
  }

  lemma {:induction false} DoubledGrows(i: nat, j: nat)
    requires i <= j
    ensures Doubled(i) <= Doubled(j)
    decreases j
  {
    if i < j {
      DoubledGrows(i, j - 1);
    }
  }

  /** Between full setups the delays start at 1000, double up to 30000 and never shrink. */
  predicate BackingOff(delays: seq<nat>) {
    && (|delays| > 0 ==> delays[0] == 1000)
    && (forall i | 0 <= i < |delays| - 1 :: delays[i + 1] == if 2 * delays[i] <= 30000 then 2 * delays[i] else 30000)
    && (forall i | 0 <= i < |delays| :: INITIAL_DELAY <= delays[i] <= MAX_DELAY)
    && (forall i, j | 0 <= i <= j < |delays| :: delays[i] <= delays[j])
  }

  /**
   * A missing channel outside shutdown means exactly one of a pending timer and an attempt in flight,
   * whatever events arrive; and the delays back off.
   */
  lemma ReconnectSafety(bindFails: bool, events: seq<Event>, c: Conn)
    requires IsRun(bindFails, Connected, events, c)
    ensures !c.channel && !c.shuttingDown ==> c.timer != (c.attempt != NoAttempt)
    ensures !(c.timer && c.attempt != NoAttempt)
    ensures BackingOff(c.delays)
  {
    RunPreservesInv(bindFails, Connected, events, c);
    forall i, j | 0 <= i <= j < |c.delays| ensures c.delays[i] <= c.delays[j] {
      DoubledGrows(i, j);
    }
  }

  /** Once shutting down no attempt starts and no timer is set, whatever happens afterwards. */
  lemma NothingStartsAfterShutdown(bindFails: bool, before: seq<Event>, c: Conn, after: seq<Event>, c': Conn)
    requires IsRun(bindFails, Connected, before, c) && c.shuttingDown && IsRun(bindFails, c, after, c')
    ensures c'.shuttingDown && c'.started == c.started && !c'.timer && c'.delays <= c.delays
  {
    RunPreservesInv(bindFails, Connected, before, c);
    RunPreservesInv(bindFails, c, after, c');
  }

  // ---------------------------------------------------------------- are the subscriptions back?

  /** A channel in use, with no attempt under way, consumes every subscription. */
  predicate Consuming(c: Conn) {
    c.channel && c.attempt == NoAttempt && !c.shuttingDown ==> c.replayed
  }

  ghost predicate AlwaysConsuming(bindFails: bool) {
    forall events, c | IsRun(bindFails, Connected, events, c) :: Consuming(c)
  }

  lemma {:induction false} ConsumingKept(c: Conn, events: seq<Event>, c': Conn)
    requires Inv(c) && Consuming(c) && (c.timer || c.attempt == Dialing ==> !c.channel) && IsRun(false, c, events, c')
    ensures Consuming(c')
    decreases events
  {
    if events != [] {
      StepPreservesInv(false, c, events[0]);
      ConsumingKept(Apply(c, events[0]), events[1..], c');
    }
  }

  lemma OneStep(bindFails: bool, c: Conn, e: Event, rest: seq<Event>, c': Conn)
    requires Enabled(bindFails, c, e) && IsRun(bindFails, Apply(c, e), rest, c')
    ensures IsRun(bindFails, c, [e] + rest, c')
  {
    assert ([e] + rest)[1..] == rest;
  }

  /** A bind that rejects under a healthy channel leaves it in use, half subscribed, with no retry. */
  lemma HalfSubscribed() returns (events: seq<Event>, c: Conn)
    ensures IsRun(true, Connected, events, c) && !Consuming(c) && !c.timer
  {
    var c1 := Apply(Connected, Issue);
    var c2 := Apply(c1, TimerFires);
    var c3 := Apply(c2, ChannelSet);
    c := Apply(c3, ReplayFails);
    OneStep(true, c3, ReplayFails, [], c);
    OneStep(true, c2, ChannelSet, [ReplayFails] + [], c);
    OneStep(true, c1, TimerFires, [ChannelSet] + ([ReplayFails] + []), c);
    OneStep(true, Connected, Issue, [TimerFires] + ([ChannelSet] + ([ReplayFails] + [])), c);
    events := [Issue] + ([TimerFires] + ([ChannelSet] + ([ReplayFails] + [])));
  }

  /** Subscriptions are always replayed exactly when a bind rejects only after its channel was lost. */
  lemma AlwaysConsumingIff(bindFails: bool)
    ensures AlwaysConsuming(bindFails) <==> !bindFails
  {
    if bindFails {
      var events, c := HalfSubscribed();
    } else {
      forall events, c | IsRun(bindFails, Connected, events, c) ensures Consuming(c) {
        ConsumingKept(Connected, events, c);
      }
    }
  }
}

/**
 * The life of a message in the broker: main queue, unacknowledged delivery, retry queue, dead-letter
 * queue. A delivery is settled by its tag on whatever channel is current when the handler ends.
 */
module Broker {

  const MAX_RETRIES := 5
  const BASE_DELAY := 1000
  const MAX_DELAY := 30000

  datatype Place = Main | Unacked | Retry | Dead

  /** A stored copy of a message; header is the retry-count header, 0 when absent. */
  datatype Copy = Copy(msg: nat, header: nat, place: Place)

  /** A running handler and the delivery it was given. */
  datatype Handler = Handler(epoch: nat, tag: nat, msg: nat, header: nat)

  /** Per message: finished handler runs, failed ones, and the delay scheduled so far. */
  datatype Tally = Tally(runs: nat, fails: nat, waited: nat)

  datatype State = State(
    copies: map<nat, Copy>, nextCopy: nat,
    connected: bool, epoch: nat, unacked: map<nat, nat>, nextTag: nat,
    handlers: map<nat, Handler>,
    published: set<nat>, done: set<nat>, tally: map<nat, Tally>)

  const Init := State(map[], 0, true, 0, map[], 1, map[], {}, {}, map[])

  datatype Step =
    | Publish(m: nat)
    | Deliver(h: nat, c: nat)
    | Succeed(h: nat)        // handler resolved, ack
    | Fail(h: nat)           // handler rejected: retry queue and ack, or nack
    | Malformed(h: nat)      // payload does not parse, nack
    | Expire(c: nat)         // retry delay over, back to the main queue
    | LoseConnection
    | Reconnect
    | Die                    // the consumer process dies

  function Pow2(n: nat): (r: nat)
    ensures r >= 1
  {
    if n == 0 then 1 else 2 * Pow2(n - 1)
  }

  function Delay(header: nat): (d: nat) {
    if BASE_DELAY * Pow2(header) <= MAX_DELAY then BASE_DELAY * Pow2(header) else MAX_DELAY
  }

  function TallyIn(tally: map<nat, Tally>, m: nat): (t: Tally) {
    if m in tally then tally[m] else Tally(0, 0, 0)
  }

  function TallyOf(s: State, m: nat): (t: Tally) {
    TallyIn(s.tally, m)
  }

  predicate Enabled(s: State, step: Step) {
    match step
    case Publish(m) => true
    case Deliver(h, c) => s.connected && h !in s.handlers && c in s.copies && s.copies[c].place == Main
    case Succeed(h) => h in s.handlers
    case Fail(h) => h in s.handlers
    case Malformed(h) => h in s.handlers
    case Expire(c) => c in s.copies && s.copies[c].place == Retry
    case LoseConnection => s.connected
    case Reconnect => !s.connected
    case Die => true
  }

  /** The broker takes back everything not acknowledged on the lost channel. */
  function Lose(s: State): (s': State) {
    s.(copies := map c | c in s.copies ::
      (if s.copies[c].place == Unacked then s.copies[c].(place := Main) else s.copies[c]),
       unacked := map[], connected := false)
  }

  /**
   * safeAck and safeNack: they use the current channel, so a handler that outlived its channel settles by
   * a tag of another one. own says whether a settle is confined to the channel of its delivery; the code
   * does not confine it. An unknown tag is a channel error.
   */
  function Settle(own: bool, s: State, hd: Handler, nack: bool): (s': State) {
    if !s.connected || (own && hd.epoch != s.epoch) then s
    else if hd.tag !in s.unacked then Lose(s)
    else
      var c := s.unacked[hd.tag];
      s.(unacked := s.unacked - {hd.tag},
         copies := if nack && c in s.copies then s.copies[c := s.copies[c].(place := Dead)] else s.copies - {c})
  }

  function Requeued(s: State, hd: Handler): (s': State) {
    s.(copies := s.copies[s.nextCopy := Copy(hd.msg, hd.header + 1, Retry)], nextCopy := s.nextCopy + 1)
  }

  /** The handler has ended and its run is counted; its delivery is not settled yet. */
  function Returned(s: State, h: nat, t: Tally): (s': State)
    requires h in s.handlers
  {
    s.(handlers := s.handlers - {h}, tally := s.tally[s.handlers[h].msg := t])
  }

  function DoSucceed(own: bool, s: State, h: nat): (s': State)
    requires h in s.handlers
  {
    var hd := s.handlers[h];
    var t := TallyOf(s, hd.msg);
    Settle(own, Returned(s, h, t.(runs := t.runs + 1)).(done := s.done + {hd.msg}), hd, false)
  }

  function Failed(t: Tally, delay: nat): (t': Tally) {
    Tally(t.runs + 1, t.fails + 1, t.waited + delay)
  }

  /** Dead-lettered by a negative acknowledgement. */
  function Buried(own: bool, s: State, h: nat, t: Tally): (s': State)
    requires h in s.handlers
  {
    Settle(own, Returned(s, h, t), s.handlers[h], true)
  }

  /** Copied to the retry queue, then acknowledged. */
  function Retried(own: bool, s: State, h: nat, t: Tally): (s': State)
    requires h in s.handlers
  {
    Settle(own, Requeued(Returned(s, h, t), s.handlers[h]), s.handlers[h], false)
  }

  /** The handler rejected: the last allowed run is buried, an earlier one goes to the retry queue. */
  function DoFail(own: bool, s: State, h: nat): (s': State)
    requires h in s.handlers
  {
    var hd := s.handlers[h];
    var t := TallyOf(s, hd.msg);
    if hd.header >= MAX_RETRIES || !s.connected then
      Buried(own, s, h, Failed(t, 0))
    else
      Retried(own, s, h, Failed(t, Delay(hd.header)))
  }

  function DoDeliver(s: State, h: nat, c: nat): (s': State)
    requires c in s.copies
  {
    s.(copies := s.copies[c := s.copies[c].(place := Unacked)], unacked := s.unacked[s.nextTag := c],
      nextTag := s.nextTag + 1,
       handlers := s.handlers[h := Handler(s.epoch, s.nextTag, s.copies[c].msg, s.copies[c].header)])
  }

  function DoMalformed(own: bool, s: State, h: nat): (s': State)
    requires h in s.handlers
  {
    Buried(own, s, h, TallyOf(s, s.handlers[h].msg))
  }

  function Apply(own: bool, s: State, step: Step): (s': State)
    requires Enabled(s, step)
  {
    match step
    case Publish(m) =>
      s.(copies := s.copies[s.nextCopy := Copy(m, 0, Main)], nextCopy := s.nextCopy + 1, published := s.published + {m})
    case Deliver(h, c) => DoDeliver(s, h, c)
    case Succeed(h) => DoSucceed(own, s, h)
    case Fail(h) => DoFail(own, s, h)
    case Malformed(h) => DoMalformed(own, s, h)
    case Expire(c) => s.(copies := s.copies[c := s.copies[c].(place := Main)])
    case LoseConnection => Lose(s)
    case Reconnect => s.(connected := true, epoch := s.epoch + 1, unacked := map[], nextTag := 1)
    case Die => Lose(s).(handlers := map[])
  }

  ghost predicate IsRun(own: bool, s: State, steps: seq<Step>, s': State)
    decreases steps
  {
    if steps == [] then s' == s
    else Enabled(s, steps[0]) && IsRun(own, Apply(own, s, steps[0]), steps[1..], s')
  }
}

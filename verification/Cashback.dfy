/**
 * Cashback payments as a protocol: badge events, queue jobs, payment workers holding row snapshots,
 * manual and automatic retries and provider webhooks, in any interleaving.
 */
module Cashback {
  import opened Json
  import opened Failures

  datatype Status = Pending | Processing | Successful | Failed

  datatype Tx = Tx(
    user: string, badge: string, amount: nat, status: Status,
    code: Option<Code>, retryable: Option<bool>, retryCount: nat, nextRetryAt: Option<int>,
    reference: Option<nat>)

  datatype BadgeEvent = BadgeEvent(id: nat, user: string, badge: string, reward: Option<nat>)

  /** A queue job: up to ATTEMPTS runs, made counts the runs that failed. payee is the event's user. */
  datatype Job = Job(tx: nat, payee: string, made: nat)

  const ATTEMPTS := 3
  const ONE_HOUR := 3600000

  /** Where a run of processPayment stands, at each await. */
  datatype Phase =
    | Loaded                        // row read as PENDING, claim outstanding
    | Claimed                       // claim won, provider call outstanding
    | Accepted(later: bool)         // provider took the transfer; later: it answered PENDING
    | Saved                         // result saved, publishing and job completion outstanding
    | Threw(failure: Failure)       // in the catch block
    | Tail(rethrow: bool)           // catch block done, job bookkeeping outstanding

  datatype Worker = Worker(job: nat, tx: nat, final: bool, payee: string, snap: Tx, phase: Phase, alive: bool)

  /** A run of retryPayment, entered from the retry endpoint or from the scanner. */
  datatype Retrier =
    | Selected(tx: nat, payee: string, manual: bool)
    | Rechecked(tx: nat, payee: string)    // row re-read as FAILED
    | Requeued(tx: nat, payee: string)     // conditional update done, whether or not it hit the row

  /** A webhook holding the row it looked up by reference. */
  datatype Hook = Hook(tx: nat, snap: Tx, success: bool, failure: Failure)

  /** A transfer the provider accepted. */
  datatype Payment = Payment(tx: nat, payee: string, badge: string, amount: nat)

  /** What the environment may do, and the configuration. */
  datatype Env = Env(
    async: bool,         // the provider may answer PENDING
    faults: bool,        // database or outbox calls inside processPayment may fail after the transfer
    webhooks: bool,
    inheritedKeys: bool, // Paystack may name a key of Object.prototype as its error code
    patterns: Patterns,
    defaultReward: nat, baseDelay: nat, maxAutoRetries: nat)

  datatype State = State(
    rows: map<nat, Tx>, workers: map<nat, Worker>, ledger: seq<Payment>,
    jobs: map<nat, Job>, retriers: map<nat, Retrier>, hooks: map<nat, Hook>,
    processed: map<nat, BadgeEvent>, calls: map<nat, nat>, nextTx: nat, nextJob: nat, nextRef: nat)

  const Init := State(map[], map[], [], map[], map[], map[], map[], map[], 0, 0, 0)

  datatype Step =
    | HandleBadge(event: BadgeEvent)             // the handler's transaction commits
    | HandleBadgeRollsBack(event: BadgeEvent)    // rolled back after the job was already queued
    | StartJob(w: nat, j: nat)
    | Claim(w: nat)
    | ProviderAccepts(w: nat, later: bool)
    | ProviderThrows(w: nat, cause: Cause)
    | SaveResult(w: nat)
    | FaultAfterTransfer(w: nat, message: string)    // saving or publishing the result throws
    | Catch(w: nat, now: int)
    | FinishJob(w: nat)
    | Crash(w: nat)
    | SelectFailed(r: nat, tx: nat, manual: bool, now: int)
    | ResetRetryCount(r: nat)
    | Recheck(r: nat)
    | Requeue(r: nat)
    | Enqueue(r: nat)
    | ReceiveHook(h: nat, tx: nat, success: bool, reason: string)
    | SaveHook(h: nat)

  // ---------------------------------------------------------------- helpers

  /** The row for a user and badge name, if there is one. */
  ghost predicate HasRow(rows: map<nat, Tx>, user: string, badge: string) {
    exists tx :: tx in rows && rows[tx].user == user && rows[tx].badge == badge
  }

  ghost function RowFor(rows: map<nat, Tx>, user: string, badge: string): (tx: nat)
    requires HasRow(rows, user, badge)
    ensures tx in rows && rows[tx].user == user && rows[tx].badge == badge
  {
    var tx :| tx in rows && rows[tx].user == user && rows[tx].badge == badge;
    tx
  }

  function Amount(e: BadgeEvent, env: Env): (r: nat) {
    if e.reward.Some? then e.reward.value else env.defaultReward
  }

  function NewTx(e: BadgeEvent, env: Env): (r: Tx) {
    Tx(e.user, e.badge, Amount(e, env), Pending, None, None, 0, None, None)
  }

  function Pow2(n: nat): (r: nat)
    ensures r >= 1
  {
    if n == 0 then 1 else 2 * Pow2(n - 1)
  }

  function Min(a: int, b: int): int {
    if a <= b then a else b
  }

  /** autoRetryDelayMs */
  function AutoRetryDelay(baseDelay: nat, retryCount: nat): (d: int) {
    Min(baseDelay * Pow2(if retryCount >= 1 then retryCount - 1 else 0), ONE_HOUR)
  }

  /**
   * The row the catch block saves when the failure is final: the snapshot, except that a column set to
   * undefined keeps the value the row has now.
   */
  function FailedRow(row: Tx, snap: Tx, f: Failure, now: int, env: Env): (r: Tx) {
    var count := snap.retryCount + 1;
    snap.(status := Failed,
          code := if f.code.Some? then f.code else row.code,
          retryable := if f.retryable.Some? then f.retryable else row.retryable,
          retryCount := count,
          nextRetryAt := if Soft(f) then Some(now + AutoRetryDelay(env.baseDelay, count)) else row.nextRetryAt)
  }

  /** The row saved once the provider has taken the transfer. */
  function ResultRow(snap: Tx, later: bool): (r: Tx) {
    snap.(status := if later then Pending else Successful, code := None, retryable := None, nextRetryAt := None)
  }

  function HookRow(h: Hook): (r: Tx) {
    if h.success then h.snap.(status := Successful, code := None, retryable := None)
    else h.snap.(status := Failed, code := h.failure.code, retryable := h.failure.retryable)
  }

  /** The where clause of the retry scan. */
  predicate Eligible(row: Tx, now: int, env: Env) {
    row.status == Failed && row.retryable == Some(true) && row.retryCount < env.maxAutoRetries &&
    (row.nextRetryAt.None? || row.nextRetryAt.value <= now)
  }

  predicate Running(s: State, w: nat) {
    w in s.workers && s.workers[w].alive
  }

  /** A failed run: another attempt while the job has one left, otherwise the job is given up. */
  function JobAttemptFailed(jobs: map<nat, Job>, j: nat): (r: map<nat, Job>) {
    if j !in jobs then jobs
    else if jobs[j].made + 1 >= ATTEMPTS then jobs - {j}
    else jobs[j := jobs[j].(made := jobs[j].made + 1)]
  }

  predicate CanThrow(env: Env, cause: Cause) {
    Throwing(env.patterns, cause) && (HitsInherited(cause) ==> env.inheritedKeys)
  }

  // ---------------------------------------------------------------- steps

  predicate Enabled(env: Env, s: State, step: Step) {
    match step
    case HandleBadge(e) => true
    case HandleBadgeRollsBack(e) => e.id !in s.processed
    case StartJob(w, j) => w !in s.workers && j in s.jobs
    case Claim(w) => Running(s, w) && s.workers[w].phase.Loaded? && s.workers[w].tx in s.rows
    case ProviderAccepts(w, later) => Running(s, w) && s.workers[w].phase.Claimed? && (later ==> env.async)
    case ProviderThrows(w, cause) => Running(s, w) && s.workers[w].phase.Claimed? && CanThrow(env, cause)
    case SaveResult(w) => Running(s, w) && s.workers[w].phase.Accepted? && s.workers[w].tx in s.rows
    case FaultAfterTransfer(w, message) =>
      env.faults && Running(s, w) && (s.workers[w].phase.Accepted? || s.workers[w].phase.Saved?)
    case Catch(w, now) => Running(s, w) && s.workers[w].phase.Threw? && s.workers[w].tx in s.rows
    case FinishJob(w) => Running(s, w) && (s.workers[w].phase.Saved? || s.workers[w].phase.Tail?)
    case Crash(w) => Running(s, w)
    case SelectFailed(r, tx, manual, now) =>
      r !in s.retriers && tx in s.rows && s.rows[tx].status == Failed && (manual || Eligible(s.rows[tx], now, env))
    case ResetRetryCount(r) => r in s.retriers && s.retriers[r].Selected? && s.retriers[r].manual &&
      s.retriers[r].tx in s.rows
    case Recheck(r) => r in s.retriers && s.retriers[r].Selected? && s.retriers[r].tx in s.rows
    case Requeue(r) => r in s.retriers && s.retriers[r].Rechecked? && s.retriers[r].tx in s.rows
    case Enqueue(r) => r in s.retriers && s.retriers[r].Requeued?
    case ReceiveHook(h, tx, success, reason) =>
      env.webhooks && h !in s.hooks && tx in s.rows && s.rows[tx].reference.Some? &&
      s.rows[tx].status != (if success then Successful else Failed)
    case SaveHook(h) => h in s.hooks && s.hooks[h].tx in s.rows
  }

  function QueueJob(s: State, tx: nat, payee: string): (s': State) {
    s.(jobs := s.jobs[s.nextJob := Job(tx, payee, 0)], nextJob := s.nextJob + 1)
  }

  function CallMade(calls: map<nat, nat>, tx: nat): (r: map<nat, nat>) {
    calls[tx := (if tx in calls then calls[tx] else 0) + 1]
  }

  ghost function DoHandleBadge(env: Env, s: State, e: BadgeEvent): (s': State) {
    if e.id in s.processed then s
    else if HasRow(s.rows, e.user, e.badge) then
      QueueJob(s.(processed := s.processed[e.id := e]), RowFor(s.rows, e.user, e.badge), e.user)
    else
      QueueJob(s.(processed := s.processed[e.id := e], rows := s.rows[s.nextTx := NewTx(e, env)],
        nextTx := s.nextTx + 1),
               s.nextTx, e.user)
  }

  ghost function DoRollback(s: State, e: BadgeEvent): (s': State) {
    if HasRow(s.rows, e.user, e.badge) then QueueJob(s, RowFor(s.rows, e.user, e.badge), e.user)
    else QueueJob(s.(nextTx := s.nextTx + 1), s.nextTx, e.user)
  }

  function DoStartJob(s: State, w: nat, j: nat): (s': State)
    requires j in s.jobs
  {
    var job := s.jobs[j];
    if job.tx !in s.rows then s.(jobs := JobAttemptFailed(s.jobs, j))
    else if s.rows[job.tx].status != Pending then s.(jobs := s.jobs - {j})
    else s.(workers := s.workers[w := Worker(j, job.tx, job.made + 1 >= ATTEMPTS, job.payee, s.rows[job.tx], Loaded,
      true)])
  }

  function DoClaim(s: State, w: nat): (s': State)
    requires w in s.workers && s.workers[w].tx in s.rows
  {
    var wk := s.workers[w];
    if s.rows[wk.tx].status == Pending then
      s.(rows := s.rows[wk.tx := s.rows[wk.tx].(status := Processing, reference := Some(s.nextRef))],
         workers := s.workers[w := wk.(phase := Claimed,
           snap := wk.snap.(status := Processing, reference := Some(s.nextRef)))],
         nextRef := s.nextRef + 1)
    else s.(workers := s.workers - {w}, jobs := s.jobs - {wk.job})
  }

  function DoAccept(s: State, w: nat, later: bool): (s': State)
    requires w in s.workers
  {
    var wk := s.workers[w];
    s.(workers := s.workers[w := wk.(phase := Accepted(later))],
       ledger := s.ledger + [Payment(wk.tx, wk.payee, wk.snap.badge, wk.snap.amount)],
       calls := CallMade(s.calls, wk.tx))
  }

  function DoThrow(s: State, w: nat, f: Failure): (s': State)
    requires w in s.workers
  {
    s.(workers := s.workers[w := s.workers[w].(phase := Threw(f))], calls := CallMade(s.calls, s.workers[w].tx))
  }

  function DoSaveResult(s: State, w: nat): (s': State)
    requires w in s.workers && s.workers[w].phase.Accepted?
  {
    var wk := s.workers[w];
    s.(workers := s.workers[w := wk.(phase := Saved)], rows := s.rows[wk.tx := ResultRow(wk.snap, wk.phase.later)])
  }

  function DoFault(s: State, w: nat, f: Failure): (s': State)
    requires w in s.workers
  {
    s.(workers := s.workers[w := s.workers[w].(phase := Threw(f))])
  }

  /** The catch block: back to PENDING by a conditional update, or FAILED by saving the snapshot. */
  function CaughtRow(env: Env, row: Tx, wk: Worker, now: int): (r: Tx)
    requires wk.phase.Threw?
  {
    if Soft(wk.phase.failure) && !wk.final then
      if row.status == Processing then row.(status := Pending) else row
    else FailedRow(row, wk.snap, wk.phase.failure, now, env)
  }

  function DoCatch(env: Env, s: State, w: nat, now: int): (s': State)
    requires w in s.workers && s.workers[w].phase.Threw? && s.workers[w].tx in s.rows
  {
    var wk := s.workers[w];
    s.(workers := s.workers[w := wk.(phase := Tail(Soft(wk.phase.failure) && !wk.final))],
       rows := s.rows[wk.tx := CaughtRow(env, s.rows[wk.tx], wk, now)])
  }

  function DoFinishJob(s: State, w: nat): (s': State)
    requires w in s.workers
  {
    var wk := s.workers[w];
    s.(workers := s.workers - {w},
       jobs := if wk.phase == Tail(true) then JobAttemptFailed(s.jobs, wk.job) else s.jobs - {wk.job})
  }

  function DoCrash(s: State, w: nat): (s': State)
    requires w in s.workers
  {
    s.(workers := s.workers[w := s.workers[w].(alive := false)])
  }

  function DoSelect(s: State, r: nat, tx: nat, manual: bool): (s': State)
    requires tx in s.rows
  {
    s.(retriers := s.retriers[r := Selected(tx, s.rows[tx].user, manual)])
  }

  function DoReset(s: State, r: nat): (s': State)
    requires r in s.retriers && s.retriers[r].tx in s.rows
  {
    var tx := s.retriers[r].tx;
    s.(rows := s.rows[tx := s.rows[tx].(retryCount := 0)])
  }

  function DoRecheck(s: State, r: nat): (s': State)
    requires r in s.retriers && s.retriers[r].tx in s.rows
  {
    var rt := s.retriers[r];
    if s.rows[rt.tx].status == Failed then s.(retriers := s.retriers[r := Rechecked(rt.tx, rt.payee)])
    else s.(retriers := s.retriers - {r})
  }

  function RequeuedRow(row: Tx): (r: Tx) {
    if row.status == Failed then row.(status := Pending, nextRetryAt := None) else row
  }

  function DoRequeue(s: State, r: nat): (s': State)
    requires r in s.retriers && s.retriers[r].tx in s.rows
  {
    var rt := s.retriers[r];
    s.(retriers := s.retriers[r := Requeued(rt.tx, rt.payee)], rows := s.rows[rt.tx := RequeuedRow(s.rows[rt.tx])])
  }

  function DoEnqueue(s: State, r: nat): (s': State)
    requires r in s.retriers
  {
    QueueJob(s.(retriers := s.retriers - {r}), s.retriers[r].tx, s.retriers[r].payee)
  }

  function DoReceiveHook(s: State, h: nat, tx: nat, success: bool, f: Failure): (s': State)
    requires tx in s.rows
  {
    s.(hooks := s.hooks[h := Hook(tx, s.rows[tx], success, f)])
  }

  function DoSaveHook(s: State, h: nat): (s': State)
    requires h in s.hooks
  {
    s.(rows := s.rows[s.hooks[h].tx := HookRow(s.hooks[h])], hooks := s.hooks - {h})
  }

  ghost function Apply(env: Env, s: State, step: Step): (s': State)
    requires Enabled(env, s, step)
  {
    match step
    case HandleBadge(e) => DoHandleBadge(env, s, e)
    case HandleBadgeRollsBack(e) => DoRollback(s, e)
    case StartJob(w, j) => DoStartJob(s, w, j)
    case Claim(w) => DoClaim(s, w)
    case ProviderAccepts(w, later) => DoAccept(s, w, later)
    case ProviderThrows(w, cause) => DoThrow(s, w, Caught(env.patterns, cause))
    case SaveResult(w) => DoSaveResult(s, w)
    case FaultAfterTransfer(w, message) => DoFault(s, w, Caught(env.patterns, Other(message)))
    case Catch(w, now) => DoCatch(env, s, w, now)
    case FinishJob(w) => DoFinishJob(s, w)
    case Crash(w) => DoCrash(s, w)
    case SelectFailed(r, tx, manual, now) => DoSelect(s, r, tx, manual)
    case ResetRetryCount(r) => DoReset(s, r)
    case Recheck(r) => DoRecheck(s, r)
    case Requeue(r) => DoRequeue(s, r)
    case Enqueue(r) => DoEnqueue(s, r)
    case ReceiveHook(h, tx, success, reason) => DoReceiveHook(s, h, tx, success, Caught(env.patterns, Other(reason)))
    case SaveHook(h) => DoSaveHook(s, h)
  }

  ghost predicate IsRun(env: Env, s: State, steps: seq<Step>, s': State)
    decreases steps
  {
    if steps == [] then s' == s
    else Enabled(env, s, steps[0]) && IsRun(env, Apply(env, s, steps[0]), steps[1..], s')
  }

  lemma OneStepRun(env: Env, s: State, step: Step)
    requires Enabled(env, s, step)
    ensures IsRun(env, s, [step], Apply(env, s, step))
  {
    assert [step][1..] == [];
  }

  lemma {:induction false} RunConcat(env: Env, s: State, a: seq<Step>, mid: State, b: seq<Step>, s': State)
    requires IsRun(env, s, a, mid) && IsRun(env, mid, b, s')
    ensures IsRun(env, s, a + b, s')
    decreases a
  {
    if a == [] {
      assert a + b == b;
    } else {
      assert (a + b)[1..] == a[1..] + b;
      RunConcat(env, Apply(env, s, a[0]), a[1..], mid, b, s');
    }
  }
}

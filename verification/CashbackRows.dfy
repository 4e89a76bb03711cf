/** How a step can change a cashback row, and what that means for the failure fields in every environment. */
module CashbackRows {
  import opened Json
  import opened Failures
  import opened Cashback
  import opened CashbackService

  // ---------------------------------------------------------------- the six ways

  /** Everything about failures and status stays. */
  predicate Kept(row: Tx, row': Tx) {
    row'.status == row.status && row'.code == row.code && row'.retryable == row.retryable &&
      row'.nextRetryAt == row.nextRetryAt
  }

  /** Claimed, handed back or queued again: code and flag stay. */
  predicate Reopened(row: Tx, row': Tx) {
    (row'.status == Pending || row'.status == Processing) && row'.code == row.code && row'.retryable == row.retryable
  }

  /** Saved after the provider took the transfer, or new: nothing about failures. */
  predicate Clean(row': Tx) {
    row'.status != Failed && row'.code == None && row'.retryable == None && row'.nextRetryAt == None
  }

  /** Saved by a catch block: what the failure leaves undefined stays. */
  predicate FailedWith(row: Tx, f: Failure, row': Tx) {
    && row'.status == Failed
    && row'.code == (if f.code.Some? then f.code else row.code)
    && row'.retryable == (if f.retryable.Some? then f.retryable else row.retryable)
  }

  predicate FailedBy(s: State, row: Tx, row': Tx) {
    exists w :: w in s.workers && s.workers[w].phase.Threw? && FailedWith(row, s.workers[w].phase.failure, row')
  }

  predicate Hooked(s: State, row': Tx) {
    exists h :: h in s.hooks && row' == HookRow(s.hooks[h])
  }

  predicate Evolved(s: State, tx: nat, row': Tx) {
    if tx in s.rows then
      var row := s.rows[tx];
      Kept(row, row') || Reopened(row, row') || Clean(row') || FailedBy(s, row, row') || Hooked(s, row')
    else Clean(row')
  }

  predicate AllEvolved(s: State, rows': map<nat, Tx>) {
    forall tx | tx in rows' :: Evolved(s, tx, rows'[tx])
  }

  lemma OneEvolved(s: State, tx: nat, row': Tx)
    requires tx in s.rows && Evolved(s, tx, row')
    ensures AllEvolved(s, s.rows[tx := row'])
  {
  }

  predicate SameButQueue(s: State, s': State) {
    s'.workers == s.workers && s'.hooks == s.hooks && s'.rows == s.rows
  }

  lemma KnownBadgeFrame(env: Env, s: State, e: BadgeEvent)
    requires HasRow(s.rows, e.user, e.badge)
    ensures SameButQueue(s, DoHandleBadge(env, s, e)) && SameButQueue(s, DoRollback(s, e))
  {
  }

  lemma NewBadgeFrame(env: Env, s: State, e: BadgeEvent)
    requires !HasRow(s.rows, e.user, e.badge) && e.id !in s.processed
    ensures SameButQueue(s.(rows := s.rows[s.nextTx := NewTx(e, env)]), DoHandleBadge(env, s, e))
  {
  }

  lemma NewRollbackFrame(s: State, e: BadgeEvent)
    requires !HasRow(s.rows, e.user, e.badge)
    ensures SameButQueue(s, DoRollback(s, e))
  {
  }

  /** What handling a badge event leaves alone, and the one row it may add. */
  lemma BadgeFrame(env: Env, s: State, e: BadgeEvent)
    ensures var s' := DoHandleBadge(env, s, e);
            SameButQueue(s, s') || SameButQueue(s.(rows := s.rows[s.nextTx := NewTx(e, env)]), s')
  {
    if HasRow(s.rows, e.user, e.badge) {
      KnownBadgeFrame(env, s, e);
    } else if e.id !in s.processed {
      NewBadgeFrame(env, s, e);
    } else {
      assert DoHandleBadge(env, s, e) == s;
    }
  }

  lemma RollbackFrame(env: Env, s: State, e: BadgeEvent)
    ensures SameButQueue(s, DoRollback(s, e))
  {
    if HasRow(s.rows, e.user, e.badge) {
      KnownBadgeFrame(env, s, e);
    } else {
      NewRollbackFrame(s, e);
    }
  }

  lemma StartedFrame(s: State, w: nat, j: nat)
    requires j in s.jobs && s.jobs[j].tx in s.rows && s.rows[s.jobs[j].tx].status == Pending
    ensures DoStartJob(s, w, j).rows == s.rows && DoStartJob(s, w, j).hooks == s.hooks
    ensures exists wk: Worker :: wk.phase.Loaded? && DoStartJob(s, w, j).workers == s.workers[w := wk]
  {
    var job := s.jobs[j];
    var wk := Worker(j, job.tx, job.made + 1 >= ATTEMPTS, job.payee, s.rows[job.tx], Loaded, true);
    assert wk.phase.Loaded? && DoStartJob(s, w, j).workers == s.workers[w := wk];
  }

  lemma SkippedFrame(s: State, w: nat, j: nat)
    requires j in s.jobs && !(s.jobs[j].tx in s.rows && s.rows[s.jobs[j].tx].status == Pending)
    ensures SameButQueue(s, DoStartJob(s, w, j))
  {
  }

  lemma StartFrame(env: Env, s: State, w: nat, j: nat)
    requires j in s.jobs
    ensures DoStartJob(s, w, j).rows == s.rows && DoStartJob(s, w, j).hooks == s.hooks
    ensures WorkersSane(env, s.workers) ==> WorkersSane(env, DoStartJob(s, w, j).workers)
  {
    if s.jobs[j].tx in s.rows && s.rows[s.jobs[j].tx].status == Pending {
      StartedFrame(s, w, j);
    } else {
      SkippedFrame(s, w, j);
    }
  }

  lemma BadgeEvolves(env: Env, s: State, e: BadgeEvent)
    ensures AllEvolved(s, DoHandleBadge(env, s, e).rows)
  {
    BadgeFrame(env, s, e);
    assert Clean(NewTx(e, env));
  }

  lemma ClaimEvolves(s: State, w: nat)
    requires w in s.workers && s.workers[w].tx in s.rows
    ensures AllEvolved(s, DoClaim(s, w).rows)
  {
    var tx := s.workers[w].tx;
    OneEvolved(s, tx, s.rows[tx].(status := Processing, reference := Some(s.nextRef)));
  }

  lemma SaveEvolves(s: State, w: nat)
    requires w in s.workers && s.workers[w].tx in s.rows && s.workers[w].phase.Accepted?
    ensures AllEvolved(s, DoSaveResult(s, w).rows)
  {
    OneEvolved(s, s.workers[w].tx, ResultRow(s.workers[w].snap, s.workers[w].phase.later));
  }

  lemma CatchEvolves(env: Env, s: State, w: nat, now: int)
    requires w in s.workers && s.workers[w].tx in s.rows && s.workers[w].phase.Threw?
    ensures AllEvolved(s, DoCatch(env, s, w, now).rows)
  {
    var wk := s.workers[w];
    var row := s.rows[wk.tx];
    var row' := CaughtRow(env, row, wk, now);
    if !(Soft(wk.phase.failure) && !wk.final) {
      assert FailedWith(row, wk.phase.failure, row');
    }
    OneEvolved(s, wk.tx, row');
  }

  lemma RetrierEvolves(s: State, r: nat)
    requires r in s.retriers && s.retriers[r].tx in s.rows
    ensures AllEvolved(s, DoReset(s, r).rows) && AllEvolved(s, DoRequeue(s, r).rows)
  {
    var tx := s.retriers[r].tx;
    OneEvolved(s, tx, s.rows[tx].(retryCount := 0));
    OneEvolved(s, tx, RequeuedRow(s.rows[tx]));
  }

  lemma HookEvolves(s: State, h: nat)
    requires h in s.hooks && s.hooks[h].tx in s.rows
    ensures AllEvolved(s, DoSaveHook(s, h).rows)
  {
    assert Hooked(s, HookRow(s.hooks[h]));
    OneEvolved(s, s.hooks[h].tx, HookRow(s.hooks[h]));
  }

  predicate WritesRows(step: Step) {
    || step.HandleBadge? || step.HandleBadgeRollsBack? || step.Claim? || step.SaveResult? || step.Catch?
    || step.ResetRetryCount? || step.Requeue? || step.SaveHook?
  }

  lemma IdleWorker(env: Env, s: State, step: Step)
    requires Enabled(env, s, step)
    requires step.ProviderAccepts? || step.ProviderThrows? || step.FaultAfterTransfer? || step.FinishJob? || step.Crash?
    ensures Apply(env, s, step).rows == s.rows && Apply(env, s, step).hooks == s.hooks
  {
  }

  lemma IdleRetrier(env: Env, s: State, step: Step)
    requires Enabled(env, s, step) && (step.SelectFailed? || step.Recheck? || step.Enqueue?)
    ensures SameButQueue(s, Apply(env, s, step))
  {
  }

  lemma IdleStep(env: Env, s: State, step: Step)
    requires Enabled(env, s, step) && !WritesRows(step)
    ensures Apply(env, s, step).rows == s.rows
  {
    match step
    case StartJob(w, j) => StartFrame(env, s, w, j);
    case SelectFailed(r, tx, manual, now) => IdleRetrier(env, s, step);
    case Recheck(r) => IdleRetrier(env, s, step);
    case Enqueue(r) => IdleRetrier(env, s, step);
    case ReceiveHook(h, tx, success, reason) =>
    case _ => IdleWorker(env, s, step);
  }

  lemma SameEvolved(s: State)
    ensures AllEvolved(s, s.rows)
  {
  }

  /** Every step of every environment changes each row in one of these ways. */
  lemma StepEvolves(env: Env, s: State, step: Step)
    requires Enabled(env, s, step)
    ensures AllEvolved(s, Apply(env, s, step).rows)
  {
    match step
    case HandleBadge(e) => BadgeEvolves(env, s, e);
    case HandleBadgeRollsBack(e) =>
      RollbackFrame(env, s, e);
      SameEvolved(s);
    case Claim(w) => ClaimEvolves(s, w);
    case SaveResult(w) => SaveEvolves(s, w);
    case Catch(w, now) => CatchEvolves(env, s, w, now);
    case ResetRetryCount(r) => RetrierEvolves(s, r);
    case Requeue(r) => RetrierEvolves(s, r);
    case SaveHook(h) => HookEvolves(s, h);
    case _ =>
      IdleStep(env, s, step);
      SameEvolved(s);
  }

  /** Handing a row back is a conditional update: it touches only a row that is still PROCESSING. */
  lemma HandsBackOnlyProcessing(env: Env, s: State, w: nat, now: int)
    requires Enabled(env, s, Catch(w, now)) && Soft(s.workers[w].phase.failure) && !s.workers[w].final
    ensures var tx, s' := s.workers[w].tx, Apply(env, s, Catch(w, now));
            s'.rows == if s.rows[tx].status == Processing then s.rows[tx := s.rows[tx].(status := Pending)] else s.rows
  {
  }

  /** A rolled back badge event leaves nothing but one more job. */
  predicate OnlyQueued(s: State, s': State, job: Job) {
    && s'.rows == s.rows && s'.processed == s.processed && s'.ledger == s.ledger
    && s'.jobs == s.jobs[s.nextJob := job] && s'.nextJob == s.nextJob + 1
  }

  /** The job is for the row of that user and badge, or for one that will not exist. */
  lemma RollbackLeavesJob(env: Env, s: State, e: BadgeEvent) returns (tx: nat)
    requires Enabled(env, s, HandleBadgeRollsBack(e))
    ensures OnlyQueued(s, DoRollback(s, e), Job(tx, e.user, 0))
    ensures if HasRow(s.rows, e.user, e.badge) then
              tx in s.rows && s.rows[tx].user == e.user && s.rows[tx].badge == e.badge
            else tx == s.nextTx
  {
    tx := if HasRow(s.rows, e.user, e.badge) then RowFor(s.rows, e.user, e.badge) else s.nextTx;
  }

  // ---------------------------------------------------------------- failures in flight

  /** What the classifier makes of an error: consistent, or empty where an inherited key was looked up. */
  predicate Sane(env: Env, f: Failure) {
    Consistent(f) || (env.inheritedKeys && f.code == None && f.retryable == None)
  }

  lemma CaughtIsSane(env: Env, cause: Cause)
    requires CanThrow(env, cause)
    ensures Sane(env, Caught(env.patterns, cause))
    ensures cause.Other? ==> Consistent(Caught(env.patterns, cause))
  {
    FailuresAreConsistentIff(env.patterns, cause);
  }

  predicate WorkerSane(env: Env, wk: Worker) {
    wk.phase.Threw? ==> Sane(env, wk.phase.failure)
  }

  predicate WorkersSane(env: Env, workers: map<nat, Worker>) {
    forall w | w in workers :: WorkerSane(env, workers[w])
  }

  predicate HooksSane(hooks: map<nat, Hook>) {
    forall h | h in hooks :: Consistent(hooks[h].failure)
  }

  /** A step touches one worker at most; if that one now holds a failure, the classifier produced it. */
  lemma WorkerMoves(env: Env, s: State, step: Step)
    requires Enabled(env, s, step) && WorkersSane(env, s.workers)
    requires step.Claim? || step.ProviderAccepts? || step.SaveResult? || step.Catch? || step.FinishJob? || step.Crash?
    ensures WorkersSane(env, Apply(env, s, step).workers)
  {
  }

  lemma ThrowMoves(env: Env, s: State, w: nat, f: Failure)
    requires w in s.workers && WorkersSane(env, s.workers) && Sane(env, f)
    ensures WorkersSane(env, DoThrow(s, w, f).workers) && WorkersSane(env, DoFault(s, w, f).workers)
  {
  }

  predicate MovesNoWorker(step: Step) {
    || step.HandleBadge? || step.HandleBadgeRollsBack? || step.SelectFailed? || step.ResetRetryCount? || step.Recheck?
    || step.Requeue? || step.Enqueue? || step.ReceiveHook? || step.SaveHook?
  }

  lemma OthersIdle(env: Env, s: State, step: Step)
    requires Enabled(env, s, step) && MovesNoWorker(step)
    ensures Apply(env, s, step).workers == s.workers
  {
    match step
    case HandleBadge(e) => BadgeFrame(env, s, e);
    case HandleBadgeRollsBack(e) => RollbackFrame(env, s, e);
    case SelectFailed(r, tx, manual, now) => IdleRetrier(env, s, step);
    case Recheck(r) => IdleRetrier(env, s, step);
    case Enqueue(r) => IdleRetrier(env, s, step);
    case _ =>
  }

  lemma StepKeepsWorkersSane(env: Env, s: State, step: Step)
    requires Enabled(env, s, step) && WorkersSane(env, s.workers)
    ensures WorkersSane(env, Apply(env, s, step).workers)
  {
    if MovesNoWorker(step) {
      OthersIdle(env, s, step);
    } else {
      match step
      case StartJob(w, j) => StartFrame(env, s, w, j);
      case ProviderThrows(w, cause) =>
        CaughtIsSane(env, cause);
        ThrowMoves(env, s, w, Caught(env.patterns, cause));
      case FaultAfterTransfer(w, message) =>
        CaughtIsSane(env, Other(message));
        ThrowMoves(env, s, w, Caught(env.patterns, Other(message)));
      case _ => WorkerMoves(env, s, step);
    }
  }

  lemma StepKeepsHooksSane(env: Env, s: State, step: Step)
    requires Enabled(env, s, step) && HooksSane(s.hooks)
    ensures HooksSane(Apply(env, s, step).hooks) &&
            (s.hooks == map[] && !env.webhooks ==> Apply(env, s, step).hooks == map[])
  {
    match step
    case HandleBadge(e) => BadgeFrame(env, s, e);
    case HandleBadgeRollsBack(e) => RollbackFrame(env, s, e);
    case StartJob(w, j) => StartFrame(env, s, w, j);
    case SelectFailed(r, tx, manual, now) => IdleRetrier(env, s, step);
    case Recheck(r) => IdleRetrier(env, s, step);
    case Enqueue(r) => IdleRetrier(env, s, step);
    case ReceiveHook(h, tx, success, reason) => CaughtIsSane(env, Other(reason));
    case Claim(w) => assert DoClaim(s, w).hooks == s.hooks;
    case SaveResult(w) =>
    case Catch(w, now) =>
    case ResetRetryCount(r) =>
    case Requeue(r) =>
    case SaveHook(h) =>
    case _ => IdleWorker(env, s, step);
  }

  // ---------------------------------------------------------------- what every row shows

  /** Code and flag come together, as the public table pairs them; FAILED implies them unless keys are inherited. */
  predicate Classified(env: Env, row: Tx) {
    && (row.code.None? <==> row.retryable.None?)
    && (row.code.Some? ==> row.retryable == Some(WorthRetrying(row.code.value)))
    && (row.status == Failed && !env.inheritedKeys ==> row.code.Some?)
  }

  /** A SUCCESSFUL row has no code and no flag; without webhooks no next retry either. */
  predicate SuccessShows(env: Env, row: Tx) {
    row.status == Successful ==> row.code == None && row.retryable == None && (env.webhooks || row.nextRetryAt == None)
  }

  predicate RowsShow(env: Env, rows: map<nat, Tx>) {
    forall tx | tx in rows :: Classified(env, rows[tx]) && SuccessShows(env, rows[tx])
  }

  predicate Inv(env: Env, s: State) {
    RowsShow(env, s.rows) && WorkersSane(env, s.workers) && HooksSane(s.hooks) && (!env.webhooks ==> s.hooks == map[])
  }

  lemma EvolvedShows(env: Env, s: State, tx: nat, row': Tx)
    requires Inv(env, s) && Evolved(s, tx, row')
    ensures Classified(env, row') && SuccessShows(env, row')
  {
    assert forall w | w in s.workers :: WorkerSane(env, s.workers[w]);
  }

  lemma StepPreservesInv(env: Env, s: State, step: Step)
    requires Inv(env, s) && Enabled(env, s, step)
    ensures Inv(env, Apply(env, s, step))
  {
    StepEvolves(env, s, step);
    StepKeepsWorkersSane(env, s, step);
    StepKeepsHooksSane(env, s, step);
    var rows' := Apply(env, s, step).rows;
    forall tx | tx in rows' ensures Classified(env, rows'[tx]) && SuccessShows(env, rows'[tx]) {
      EvolvedShows(env, s, tx, rows'[tx]);
    }
  }

  lemma {:induction false} RunPreservesInv(env: Env, s: State, steps: seq<Step>, s': State)
    requires Inv(env, s) && IsRun(env, s, steps, s')
    ensures Inv(env, s')
    decreases steps
  {
    if steps != [] {
      StepPreservesInv(env, s, steps[0]);
      RunPreservesInv(env, Apply(env, s, steps[0]), steps[1..], s');
    }
  }
}

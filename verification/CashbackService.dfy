/** The cashback service as the code runs it, one call at a time; each call is a run of the protocol. */
module CashbackService {
  import opened Json
  import opened Failures
  import opened Collections
  import opened Cashback
  import opened CashbackSafety

  /** What the provider does with one call. */
  datatype Answer = Accepts(later: bool) | Throws(cause: Cause)

  predicate Possible(env: Env, answer: Answer) {
    match answer
    case Accepts(later) => later ==> env.async
    case Throws(cause) => CanThrow(env, cause)
  }

  /** The row as the claim leaves it. */
  function ClaimedRow(row: Tx, reference: nat): (r: Tx) {
    row.(status := Processing, reference := Some(reference))
  }

  /** The row after a failed attempt. */
  function ThrownRow(env: Env, row: Tx, reference: nat, final: bool, f: Failure, now: int): (r: Tx) {
    var snap := ClaimedRow(row, reference);
    if Soft(f) && !final then snap.(status := Pending) else FailedRow(snap, snap, f, now, env)
  }

  // ---------------------------------------------------------------- one call as steps

  function AtWork(s: State, j: nat, phase: Phase): (wk: Worker)
    requires j in s.jobs && s.jobs[j].tx in s.rows
  {
    var job := s.jobs[j];
    Worker(j, job.tx, job.made + 1 >= ATTEMPTS, job.payee, ClaimedRow(s.rows[job.tx], s.nextRef), phase, true)
  }

  /** The state after the claim, with the one worker at work. */
  function AfterClaim(s: State, j: nat): (s': State)
    requires j in s.jobs && s.jobs[j].tx in s.rows
  {
    var tx := s.jobs[j].tx;
    s.(rows := s.rows[tx := ClaimedRow(s.rows[tx], s.nextRef)], workers := map[0 := AtWork(s, j, Claimed)],
      nextRef := s.nextRef + 1)
  }

  predicate Payable(s: State, j: nat) {
    s.workers == map[] && j in s.jobs && s.jobs[j].tx in s.rows && s.rows[s.jobs[j].tx].status == Pending
  }

  lemma ClaimRun(env: Env, s: State, j: nat) returns (steps: seq<Step>)
    requires Payable(s, j)
    ensures IsRun(env, s, steps, AfterClaim(s, j))
  {
    var s1 := DoStartJob(s, 0, j);
    OneStepRun(env, s, StartJob(0, j));
    OneStepRun(env, s1, Claim(0));
    assert DoClaim(s1, 0) == AfterClaim(s, j);
    RunConcat(env, s, [StartJob(0, j)], s1, [Claim(0)], AfterClaim(s, j));
    steps := [StartJob(0, j)] + [Claim(0)];
  }

  function AfterAccept(s: State, j: nat, later: bool): (s': State)
    requires j in s.jobs && s.jobs[j].tx in s.rows
  {
    var tx := s.jobs[j].tx;
    var row := ClaimedRow(s.rows[tx], s.nextRef);
    s.(rows := s.rows[tx := ResultRow(row, later)], nextRef := s.nextRef + 1, calls := CallMade(s.calls, tx),
      jobs := s.jobs - {j},
       ledger := s.ledger + [Payment(tx, s.jobs[j].payee, row.badge, row.amount)])
  }

  lemma AcceptedRun(env: Env, s: State, j: nat, later: bool)
    requires Payable(s, j) && (later ==> env.async)
    ensures IsRun(env, AfterClaim(s, j), [ProviderAccepts(0, later)], DoAccept(AfterClaim(s, j), 0, later))
  {
    OneStepRun(env, AfterClaim(s, j), ProviderAccepts(0, later));
  }

  lemma SavedRun(env: Env, s: State, j: nat, later: bool) returns (steps: seq<Step>)
    requires Payable(s, j)
    ensures IsRun(env, DoAccept(AfterClaim(s, j), 0, later), steps, AfterAccept(s, j, later))
  {
    var s3 := DoAccept(AfterClaim(s, j), 0, later);
    var s4 := DoSaveResult(s3, 0);
    OneStepRun(env, s3, SaveResult(0));
    OneStepRun(env, s4, FinishJob(0));
    assert DoFinishJob(s4, 0) == AfterAccept(s, j, later);
    RunConcat(env, s3, [SaveResult(0)], s4, [FinishJob(0)], AfterAccept(s, j, later));
    steps := [SaveResult(0)] + [FinishJob(0)];
  }

  lemma AcceptRun(env: Env, s: State, j: nat, later: bool) returns (steps: seq<Step>)
    requires Payable(s, j) && (later ==> env.async)
    ensures IsRun(env, AfterClaim(s, j), steps, AfterAccept(s, j, later))
  {
    AcceptedRun(env, s, j, later);
    var rest := SavedRun(env, s, j, later);
    RunConcat(env, AfterClaim(s, j), [ProviderAccepts(0, later)], DoAccept(AfterClaim(s, j), 0, later), rest,
      AfterAccept(s, j, later));
    steps := [ProviderAccepts(0, later)] + rest;
  }

  function AfterThrow(env: Env, s: State, j: nat, f: Failure, now: int): (s': State)
    requires j in s.jobs && s.jobs[j].tx in s.rows
  {
    var tx := s.jobs[j].tx;
    var final := s.jobs[j].made + 1 >= ATTEMPTS;
    s.(rows := s.rows[tx := ThrownRow(env, s.rows[tx], s.nextRef, final, f, now)], nextRef := s.nextRef + 1,
       calls := CallMade(s.calls, tx), jobs := if Soft(f) && !final then JobAttemptFailed(s.jobs, j) else s.jobs - {j})
  }

  lemma ThrownRun(env: Env, s: State, j: nat, cause: Cause)
    requires Payable(s, j) && CanThrow(env, cause)
    ensures IsRun(env, AfterClaim(s, j), [ProviderThrows(0, cause)],
                  DoThrow(AfterClaim(s, j), 0, Caught(env.patterns, cause)))
  {
    OneStepRun(env, AfterClaim(s, j), ProviderThrows(0, cause));
  }

  lemma ThrowEnds(env: Env, s: State, j: nat, f: Failure, now: int)
    requires Payable(s, j)
    ensures DoFinishJob(DoCatch(env, DoThrow(AfterClaim(s, j), 0, f), 0, now), 0) == AfterThrow(env, s, j, f, now)
  {
  }

  lemma CaughtRun(env: Env, s: State, j: nat, f: Failure, now: int) returns (steps: seq<Step>)
    requires Payable(s, j)
    ensures IsRun(env, DoThrow(AfterClaim(s, j), 0, f), steps, AfterThrow(env, s, j, f, now))
  {
    var s3 := DoThrow(AfterClaim(s, j), 0, f);
    var s4 := DoCatch(env, s3, 0, now);
    OneStepRun(env, s3, Catch(0, now));
    OneStepRun(env, s4, FinishJob(0));
    ThrowEnds(env, s, j, f, now);
    RunConcat(env, s3, [Catch(0, now)], s4, [FinishJob(0)], AfterThrow(env, s, j, f, now));
    steps := [Catch(0, now)] + [FinishJob(0)];
  }

  lemma ThrowRun(env: Env, s: State, j: nat, cause: Cause, now: int) returns (steps: seq<Step>)
    requires Payable(s, j) && CanThrow(env, cause)
    ensures IsRun(env, AfterClaim(s, j), steps, AfterThrow(env, s, j, Caught(env.patterns, cause), now))
  {
    var f := Caught(env.patterns, cause);
    ThrownRun(env, s, j, cause);
    var rest := CaughtRun(env, s, j, f, now);
    RunConcat(env, AfterClaim(s, j), [ProviderThrows(0, cause)], DoThrow(AfterClaim(s, j), 0, f), rest,
      AfterThrow(env, s, j, f, now));
    steps := [ProviderThrows(0, cause)] + rest;
  }

  /** The whole call on a PENDING row. */
  function AfterCall(env: Env, s: State, j: nat, answer: Answer, now: int): (s': State)
    requires j in s.jobs && s.jobs[j].tx in s.rows && Possible(env, answer)
  {
    match answer
    case Accepts(later) => AfterAccept(s, j, later)
    case Throws(cause) => AfterThrow(env, s, j, Caught(env.patterns, cause), now)
  }

  lemma CallRun(env: Env, s: State, j: nat, answer: Answer, now: int) returns (steps: seq<Step>)
    requires Payable(s, j) && Possible(env, answer)
    ensures IsRun(env, s, steps, AfterCall(env, s, j, answer, now))
  {
    var rest;
    match answer {
      case Accepts(later) => rest := AcceptRun(env, s, j, later);
      case Throws(cause) => rest := ThrowRun(env, s, j, cause, now);
    }
    steps := ClaimRun(env, s, j);
    RunConcat(env, s, steps, AfterClaim(s, j), rest, AfterCall(env, s, j, answer, now));
    steps := steps + rest;
  }

  /** A job whose row is gone is retried by the queue; one whose row is not PENDING is done. */
  lemma SkipRun(env: Env, s: State, j: nat)
    requires j in s.jobs && s.workers == map[] && (s.jobs[j].tx in s.rows ==> s.rows[s.jobs[j].tx].status != Pending)
    ensures IsRun(env, s, [StartJob(0, j)],
            s.(jobs := if s.jobs[j].tx in s.rows then s.jobs - {j} else JobAttemptFailed(s.jobs, j)))
  {
    OneStepRun(env, s, StartJob(0, j));
  }

  predicate Retryable(s: State, tx: nat) {
    s.retriers == map[] && tx in s.rows && s.rows[tx].status == Failed
  }

  function AfterRetry(s: State, tx: nat): (s': State)
    requires tx in s.rows
  {
    QueueJob(s.(rows := s.rows[tx := RequeuedRow(s.rows[tx])]), tx, s.rows[tx].user)
  }

  lemma RecheckRun(env: Env, s: State, tx: nat, manual: bool, now: int) returns (steps: seq<Step>)
    requires Retryable(s, tx) && (manual || Eligible(s.rows[tx], now, env))
    ensures IsRun(env, s, steps, s.(retriers := map[0 := Rechecked(tx, s.rows[tx].user)]))
  {
    var s1 := DoSelect(s, 0, tx, manual);
    var s2 := s.(retriers := map[0 := Rechecked(tx, s.rows[tx].user)]);
    OneStepRun(env, s, SelectFailed(0, tx, manual, now));
    OneStepRun(env, s1, Recheck(0));
    assert DoRecheck(s1, 0) == s2;
    RunConcat(env, s, [SelectFailed(0, tx, manual, now)], s1, [Recheck(0)], s2);
    steps := [SelectFailed(0, tx, manual, now)] + [Recheck(0)];
  }

  lemma RequeueRun(env: Env, s: State, tx: nat) returns (steps: seq<Step>)
    requires Retryable(s, tx)
    ensures IsRun(env, s.(retriers := map[0 := Rechecked(tx, s.rows[tx].user)]), steps, AfterRetry(s, tx))
  {
    var s2 := s.(retriers := map[0 := Rechecked(tx, s.rows[tx].user)]);
    var s3 := DoRequeue(s2, 0);
    OneStepRun(env, s2, Requeue(0));
    OneStepRun(env, s3, Enqueue(0));
    assert DoEnqueue(s3, 0) == AfterRetry(s, tx);
    RunConcat(env, s2, [Requeue(0)], s3, [Enqueue(0)], AfterRetry(s, tx));
    steps := [Requeue(0)] + [Enqueue(0)];
  }

  lemma RetryRun(env: Env, s: State, tx: nat, manual: bool, now: int) returns (steps: seq<Step>)
    requires Retryable(s, tx) && (manual || Eligible(s.rows[tx], now, env))
    ensures IsRun(env, s, steps, AfterRetry(s, tx))
  {
    steps := RecheckRun(env, s, tx, manual, now);
    var rest := RequeueRun(env, s, tx);
    RunConcat(env, s, steps, s.(retriers := map[0 := Rechecked(tx, s.rows[tx].user)]), rest, AfterRetry(s, tx));
    steps := steps + rest;
  }

  lemma ExtendRun(env: Env, s0: State, steps: seq<Step>, s: State, tx: nat, now: int) returns (steps': seq<Step>)
    requires IsRun(env, s0, steps, s) && Retryable(s, tx) && Eligible(s.rows[tx], now, env)
    ensures IsRun(env, s0, steps', AfterRetry(s, tx))
  {
    var more := RetryRun(env, s, tx, false, now);
    RunConcat(env, s0, steps, s, more, AfterRetry(s, tx));
    steps' := steps + more;
  }

  // ---------------------------------------------------------------- the service

  /** The job is a first attempt for the row, and the row is the event's. */
  predicate IsFor(row: Tx, job: Job, e: BadgeEvent) {
    job.payee == e.user && job.made == 0 && row.user == e.user && row.badge == e.badge
  }

  /** What happens to a job after an attempt: one more failed run if it has any left, otherwise it is gone. */
  predicate JobAfter(jobs: map<nat, Job>, jobs': map<nat, Job>, j: nat, again: bool)
    requires j in jobs
  {
    if again then jobs' == jobs[j := Job(jobs[j].tx, jobs[j].payee, jobs[j].made + 1)] else jobs' == jobs - {j}
  }

  /**
   * One provider call on a PENDING row. An accepted transfer pays the row's amount to the job's payee and
   * clears the failure fields; a soft failure with attempts left hands the row back; any other ends the round.
   */
  predicate CallEffect(env: Env, s: State, s': State, j: nat, answer: Answer)
    requires j in s.jobs && s.jobs[j].tx in s.rows && Possible(env, answer)
  {
    var job := s.jobs[j];
    var row := s.rows[job.tx];
    && s'.rows.Keys == s.rows.Keys && (forall k | k in s.rows && k != job.tx :: s'.rows[k] == s.rows[k])
    && s'.calls == s.calls[job.tx := (if job.tx in s.calls then s.calls[job.tx] else 0) + 1]
    && var row' := s'.rows[job.tx];
    && row'.user == row.user && row'.badge == row.badge && row'.amount == row.amount
    && row'.reference == Some(s.nextRef) && s'.nextRef == s.nextRef + 1
    && match answer
       case Accepts(later) =>
         && s'.ledger == s.ledger + [Payment(job.tx, job.payee, row.badge, row.amount)]
         && row'.status == (if later then Pending else Successful) && row'.retryCount == row.retryCount
         && row'.code == None && row'.retryable == None && row'.nextRetryAt == None
         && JobAfter(s.jobs, s'.jobs, j, false)
       case Throws(cause) =>
         var again := Soft(Caught(env.patterns, cause)) && job.made + 1 < 3;
         && s'.ledger == s.ledger
         && row'.status == (if again then Pending else Failed)
         && row'.retryCount == row.retryCount + (if again then 0 else 1)
         && JobAfter(s.jobs, s'.jobs, j, again)
  }

  lemma CallMeans(env: Env, s: State, j: nat, answer: Answer, now: int)
    requires Payable(s, j) && Possible(env, answer)
    ensures CallEffect(env, s, AfterCall(env, s, j, answer, now), j, answer)
  {
  }

  class Service {
    const env: Env
    var rows: map<nat, Tx>
    var ledger: seq<Payment>
    var jobs: map<nat, Job>
    var processed: map<nat, BadgeEvent>
    var calls: map<nat, nat>
    var nextTx: nat
    var nextJob: nat
    var nextRef: nat
    var retryScanRunning: bool

    function View(): (s: State)
      reads this
    {
      State(rows, map[], ledger, jobs, map[], map[], processed, calls, nextTx, nextJob, nextRef)
    }

    constructor (env: Env)
      ensures View() == Init && !retryScanRunning && this.env == env
    {
      this.env := env;
      rows, ledger, jobs, processed, calls := map[], [], map[], map[], map[];
      nextTx, nextJob, nextRef, retryScanRunning := 0, 0, 0, false;
    }

    method AddJob(tx: nat, payee: string)
      modifies this`jobs, this`nextJob
      ensures View() == QueueJob(old(View()), tx, payee)
    {
      jobs := jobs[nextJob := Job(tx, payee, 0)];
      nextJob := nextJob + 1;
    }

    method HandleBadgeUnlocked(e: BadgeEvent)
      requires RowsOk(rows, nextTx)
      modifies this
      ensures View() == DoHandleBadge(env, old(View()), e)
      ensures retryScanRunning == old(retryScanRunning)
      ensures e.id in old(processed) ==> View() == old(View())
      ensures e.id !in old(processed) ==>
                && processed == old(processed)[e.id := e] && nextJob == old(nextJob) + 1
                && old(nextJob) in jobs && jobs[old(nextJob)].tx in rows
                && jobs == old(jobs)[old(nextJob) := jobs[old(nextJob)]]
                && IsFor(rows[jobs[old(nextJob)].tx], jobs[old(nextJob)], e)
      ensures forall tx | tx in old(rows) :: tx in rows && (tx < old(nextTx) ==> rows[tx] == old(rows)[tx])
      ensures forall tx | tx in rows && tx !in old(rows) ::
                tx == old(nextTx) && rows[tx] == Tx(e.user, e.badge, if e.reward.Some? then
                  e.reward.value else env.defaultReward,
                                                    Pending, None, None, 0, None, None)
    {
      if e.id in processed {
        return;
      }
      var tx := nextTx;
      if exists k | k in rows :: rows[k].user == e.user && rows[k].badge == e.badge {
        tx :| tx in rows && rows[tx].user == e.user && rows[tx].badge == e.badge;
        assert HasRow(rows, e.user, e.badge) && tx == RowFor(rows, e.user, e.badge);
      } else {
        rows := rows[tx := NewTx(e, env)];
        nextTx := nextTx + 1;
      }
      processed := processed[e.id := e];
      AddJob(tx, e.user);
    }

    /** One attempt of a queue job, from the lookup to the bookkeeping of the queue. */
    method ProcessPayment(j: nat, answer: Answer, now: int) returns (ghost steps: seq<Step>)
      requires j in jobs && Possible(env, answer)
      modifies this
      ensures IsRun(env, old(View()), steps, View())
      ensures var job := old(jobs)[j];
              if job.tx in old(rows) && old(rows)[job.tx].status == Pending then
                View() == AfterCall(env, old(View()), j, answer, now)
              else rows == old(rows) && ledger == old(ledger) && calls == old(calls)
      ensures old(jobs)[j].tx in old(rows) && old(rows)[old(jobs)[j].tx].status == Pending ==>
                CallEffect(env, old(View()), View(), j, answer)
      ensures old(jobs)[j].tx in old(rows) && old(rows)[old(jobs)[j].tx].status != Pending ==>
                JobAfter(old(jobs), jobs, j, false)
      ensures old(jobs)[j].tx !in old(rows) ==> JobAfter(old(jobs), jobs, j, old(jobs)[j].made + 1 < 3)
    {
      ghost var s0 := View();
      var tx := jobs[j].tx;
      if tx !in rows {
        SkipRun(env, s0, j);
        jobs := JobAttemptFailed(jobs, j);
        return [StartJob(0, j)];
      }
      if rows[tx].status != Pending {
        SkipRun(env, s0, j);
        jobs := jobs - {j};
        return [StartJob(0, j)];
      }
      steps := CallRun(env, s0, j, answer, now);
      CallMeans(env, s0, j, answer, now);
      PayPending(j, answer, now);
    }

    /** Claim, provider call and save. */
    method PayPending(j: nat, answer: Answer, now: int)
      requires j in jobs && jobs[j].tx in rows && rows[jobs[j].tx].status == Pending && Possible(env, answer)
      modifies this
      ensures View() == AfterCall(env, old(View()), j, answer, now)
      ensures retryScanRunning == old(retryScanRunning)
    {
      var tx := jobs[j].tx;
      var transaction := rows[tx].(status := Processing, reference := Some(nextRef));
      rows := rows[tx := transaction];
      nextRef := nextRef + 1;
      calls := CallMade(calls, tx);
      match answer {
        case Accepts(later) => SaveResult(j, transaction, later);
        case Throws(cause) => SaveFailure(j, transaction, Caught(env.patterns, cause), now);
      }
    }

    /** The provider took the transfer: the row is saved from the snapshot and the job is complete. */
    method SaveResult(j: nat, transaction: Tx, later: bool)
      requires j in jobs
      modifies this`rows, this`ledger, this`jobs
      ensures rows == old(rows)[old(jobs)[j].tx := ResultRow(transaction, later)] && jobs == old(jobs) - {j}
      ensures rows[old(jobs)[j].tx] ==
              transaction.(status := if later then
                Pending else Successful, code := None, retryable := None, nextRetryAt := None)
      ensures ledger == old(ledger) + [Payment(old(jobs)[j].tx, old(jobs)[j].payee, transaction.badge,
              transaction.amount)]
    {
      var job := jobs[j];
      ledger := ledger + [Payment(job.tx, job.payee, transaction.badge, transaction.amount)];
      var saved := transaction.(status := if later then Pending else Successful);
      saved := saved.(code := None, retryable := None, nextRetryAt := None);
      rows := rows[job.tx := saved];
      jobs := jobs - {j};
    }

    /** The catch block: hand the row back for another attempt, or save the failure. */
    method SaveFailure(j: nat, transaction: Tx, failure: Failure, now: int)
      requires j in jobs && jobs[j].tx in rows && rows[jobs[j].tx] == transaction && transaction.status == Processing
      modifies this`rows, this`jobs
      ensures var job := old(jobs)[j];
              if Soft(failure) && job.made + 1 < ATTEMPTS then
                rows == old(rows)[job.tx := transaction.(status := Pending)] && jobs == JobAttemptFailed(old(jobs), j)
              else
                && rows == old(rows)[job.tx := FailedRow(transaction, transaction, failure, now, env)]
                && jobs == old(jobs) - {j}
      ensures var row, again := rows[old(jobs)[j].tx], Soft(failure) && old(jobs)[j].made + 1 < 3;
              && JobAfter(old(jobs), jobs, j, again)
              && row.retryCount == transaction.retryCount + (if again then 0 else 1)
              && row.status == (if again then Pending else Failed)
              && row.code == (if again || failure.code == None then transaction.code else failure.code)
              && row.retryable == (if again || failure.retryable == None then
                 transaction.retryable else failure.retryable)
              && row.nextRetryAt == (if !again && Soft(failure) then
                 Some(now + AutoRetryDelay(env.baseDelay, row.retryCount))
                                     else transaction.nextRetryAt)
              && row.reference == transaction.reference
    {
      var job := jobs[j];
      if Soft(failure) && job.made + 1 < ATTEMPTS {
        if rows[job.tx].status == Processing {
          rows := rows[job.tx := rows[job.tx].(status := Pending)];
        }
        jobs := JobAttemptFailed(jobs, j);
        return;
      }
      var failed := transaction.(status := Failed, retryCount := transaction.retryCount + 1);
      if failure.code.Some? {
        failed := failed.(code := failure.code);
      }
      if failure.retryable.Some? {
        failed := failed.(retryable := failure.retryable);
      }
      if Soft(failure) {
        failed := failed.(nextRetryAt := Some(now + AutoRetryDelay(env.baseDelay, failed.retryCount)));
      }
      rows := rows[job.tx := failed];
      jobs := jobs - {j};
    }

    /** Throws for an unknown id and refuses unless the row is FAILED; otherwise PENDING again and queued. */
    method RetryPayment(tx: nat) returns (found: bool)
      modifies this`rows, this`jobs, this`nextJob
      ensures found <==> tx in old(rows)
      ensures View() == if Retryable(old(View()), tx) then AfterRetry(old(View()), tx) else old(View())
      ensures tx in old(rows) && old(rows)[tx].status == Failed ==>
                && rows == old(rows)[tx := old(rows)[tx].(status := Pending, nextRetryAt := None)]
                && jobs == old(jobs)[old(nextJob) := Job(tx, old(rows)[tx].user, 0)] && nextJob == old(nextJob) + 1
      ensures !(tx in old(rows) && old(rows)[tx].status == Failed) ==> rows == old(rows) && jobs == old(jobs)
    {
      if tx !in rows {
        return false;
      }
      if rows[tx].status != Failed {
        return true;
      }
      rows := rows[tx := rows[tx].(status := Pending, nextRetryAt := None)];
      AddJob(tx, rows[tx].user);
      return true;
    }

    /**
     * The retry scan. found is the result of its query; accounts are the users with bank details. Every due
     * transaction of such a user is PENDING again and queued, once; nothing else changes. queued lists them.
     */
    method RetryEligibleFailedTransactions(found: seq<nat>, accounts: set<string>, now: int)
      returns (retried: nat, ghost queued: seq<nat>, ghost steps: seq<Step>)
      requires NoRepeats(found)
      requires forall tx: nat :: tx in found <==>
                 tx in rows && rows[tx].status == Failed && rows[tx].retryable == Some(true) &&
                 rows[tx].retryCount < env.maxAutoRetries &&
                 (rows[tx].nextRetryAt == None || rows[tx].nextRetryAt.value <= now)
      modifies this
      ensures retryScanRunning == old(retryScanRunning)
      ensures IsRun(env, old(View()), steps, View())
      ensures old(retryScanRunning) ==> retried == 0 && View() == old(View())
      ensures !old(retryScanRunning) ==>
                forall tx: nat :: tx in queued <==>
                  tx in old(rows) && old(rows)[tx].status == Failed && old(rows)[tx].retryable == Some(true) &&
                  old(rows)[tx].retryCount < env.maxAutoRetries &&
                  (old(rows)[tx].nextRetryAt == None || old(rows)[tx].nextRetryAt.value <= now) &&
                  old(rows)[tx].user in accounts
      ensures NoRepeats(queued) && |queued| == retried && nextJob == old(nextJob) + retried
      ensures rows.Keys == old(rows).Keys
      ensures forall tx | tx in old(rows) && tx in queued ::
                rows[tx] == old(rows)[tx].(status := Pending, nextRetryAt := None)
      ensures forall tx | tx in old(rows) && tx !in queued :: rows[tx] == old(rows)[tx]
      ensures jobs == Enqueued(old(jobs), old(nextJob), queued, old(rows))
      ensures ledger == old(ledger) && calls == old(calls)
    {
      steps, queued := [], [];
      if retryScanRunning {
        return 0, [], [];
      }
      retryScanRunning := true;
      retried := 0;
      var before := rows;
      ghost var s0 := View();
      for i := 0 to |found|
        invariant retryScanRunning && IsRun(env, s0, steps, View())
        invariant ScanDone(s0, View(), found[..i], accounts, queued) && |queued| == retried
      {
        assert found[..i + 1] == found[..i] + [found[i]];
        assert found[i] in found && found[i] !in found[..i];
        ScanNext(s0, View(), found[..i], found[i], accounts, queued);
        if before[found[i]].user in accounts {
          steps := ExtendRun(env, s0, steps, View(), found[i], now);
          var ok := RetryPayment(found[i]);
          queued := queued + [found[i]];
          if ok {
            retried := retried + 1;
          }
        }
      }
      assert found[..|found|] == found;
      retryScanRunning := false;
    }
  }

  /** How far a scan that began in s0 has come. */
  ghost predicate ScanDone(s0: State, s: State, done: seq<nat>, accounts: set<string>, queued: seq<nat>) {
    && Scanned(s0.rows, s.rows, done, accounts, queued)
    && s.nextJob == s0.nextJob + |queued| && s.jobs == Enqueued(s0.jobs, s0.nextJob, queued, s0.rows)
    && s.ledger == s0.ledger && s.calls == s0.calls
  }

  lemma ScanNext(s0: State, s: State, done: seq<nat>, tx: nat, accounts: set<string>, queued: seq<nat>)
    requires ScanDone(s0, s, done, accounts, queued) && tx in s0.rows && tx !in done && s0.rows[tx].status == Failed
    ensures tx in s.rows && s.rows[tx] == s0.rows[tx]
    ensures s0.rows[tx].user in accounts ==> ScanDone(s0, AfterRetry(s, tx), done + [tx], accounts, queued + [tx])
    ensures s0.rows[tx].user !in accounts ==> ScanDone(s0, s, done + [tx], accounts, queued)
  {
    ScannedStep(s0.rows, s.rows, done, tx, accounts, queued);
    EnqueuedNext(s0.jobs, s0.nextJob, queued, s0.rows, tx);
  }

  /** One job for each listed transaction, numbered on from the given number. */
  function Enqueued(jobs: map<nat, Job>, nextJob: nat, txs: seq<nat>, rows: map<nat, Tx>): (r: map<nat, Job>)
    requires forall tx | tx in txs :: tx in rows
  {
    if txs == [] then jobs
    else
      var init, last := txs[..|txs| - 1], txs[|txs| - 1];
      Enqueued(jobs, nextJob, init, rows)[nextJob + |init| := Job(last, rows[last].user, 0)]
  }

  lemma EnqueuedNext(jobs: map<nat, Job>, nextJob: nat, txs: seq<nat>, rows: map<nat, Tx>, tx: nat)
    requires forall t | t in txs :: t in rows
    requires tx in rows
    ensures Enqueued(jobs, nextJob, txs + [tx], rows) ==
            Enqueued(jobs, nextJob, txs, rows)[nextJob + |txs| := Job(tx, rows[tx].user, 0)]
  {
    assert (txs + [tx])[..|txs|] == txs;
  }

  /** The part of a scan that is done: exactly the listed rows of reachable users are PENDING again. */
  ghost predicate Scanned(before: map<nat, Tx>, rows: map<nat, Tx>, done: seq<nat>, accounts: set<string>,
      queued: seq<nat>) {
    && rows.Keys == before.Keys && NoRepeats(queued)
    && (forall tx :: tx in queued <==> tx in done && tx in before && before[tx].user in accounts)
    && (forall tx | tx in before ::
          rows[tx] == if tx in queued then before[tx].(status := Pending, nextRetryAt := None) else before[tx])
  }

  lemma ScannedStep(before: map<nat, Tx>, rows: map<nat, Tx>, done: seq<nat>, tx: nat, accounts: set<string>,
                    queued: seq<nat>)
    requires Scanned(before, rows, done, accounts, queued) && tx in before && tx !in done
    ensures rows[tx] == before[tx] && tx !in queued
    ensures before[tx].user in accounts ==>
              Scanned(before, rows[tx := before[tx].(status := Pending, nextRetryAt := None)], done + [tx], accounts,
                      queued + [tx])
    ensures before[tx].user !in accounts ==> Scanned(before, rows, done + [tx], accounts, queued)
  {
  }

  /** One badge event handled: a PENDING row and its job. */
  lemma {:induction false} FirstBadge(env: Env) returns (s: State, steps: seq<Step>)
    ensures IsRun(env, Init, steps, s)
    ensures s.rows.Keys == {0} && s.rows[0].status == Pending && s.rows[0].user == "u" && s.rows[0].badge == "b"
    ensures s.rows[0].code == None && s.rows[0].retryable == None
    ensures s.jobs == map[0 := Job(0, "u", 0)] && s.workers == map[] && s.ledger == [] && s.retriers == map[] &&
            s.hooks == map[] && s.nextJob == 1
  {
    var e := BadgeEvent(0, "u", "b", None);
    steps := [HandleBadge(e)];
    s := Apply(env, Init, HandleBadge(e));
    OneStepRun(env, Init, HandleBadge(e));
  }
}

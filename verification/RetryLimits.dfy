/** Where the retry budget ends, and how the slow tier spaces its rounds. */
module RetryLimits {
  import opened Json
  import opened Failures
  import opened Cashback
  import opened RetryTokens
  import opened RetryBudget

  // ---------------------------------------------------------------- crashes before the queue has counted

  ghost predicate BudgetHolds(tailCrashes: bool, env: Env) {
    forall steps, s, tx: nat | IsDisciplinedRun(tailCrashes, env, Init, steps, s) :: CallsFor(s, tx) <= 3 * Rounds(env)
  }

  lemma {:induction false} Concat(c: bool, env: Env, s: State, x: seq<Step>, mid: State, y: seq<Step>, s': State)
    requires IsDisciplinedRun(c, env, s, x, mid) && IsDisciplinedRun(c, env, mid, y, s')
    ensures IsDisciplinedRun(c, env, s, x + y, s')
    decreases x
  {
    if x == [] {
      assert x + y == y;
    } else {
      assert (x + y)[1..] == x[1..] + y;
      Concat(c, env, Apply(env, s, x[0]), x[1..], mid, y, s');
    }
  }

  lemma One(c: bool, env: Env, s: State, step: Step)
    requires Enabled(env, s, step) && Disciplined(c, s, step)
    ensures IsDisciplinedRun(c, env, s, [step], Apply(env, s, step))
  {
    assert [step][1..] == [];
  }

  const SoftCause := Paystack(Unreachable(""))

  /** A job on its first attempt, its row PENDING, after n crashes. */
  predicate StillFirst(s: State, n: nat) {
    && s.jobs == map[0 := Job(0, "u", 0)] && 0 in s.rows && s.rows[0].status == Pending
    && (forall w | w in s.workers :: w < n && !s.workers[w].alive) && CallsFor(s, 0) == n
  }

  lemma FirstBadgeRun(env: Env) returns (s: State, steps: seq<Step>)
    ensures IsDisciplinedRun(true, env, Init, steps, s) && StillFirst(s, 0)
  {
    var e := BadgeEvent(0, "u", "b", None);
    s := DoHandleBadge(env, Init, e);
    One(true, env, Init, HandleBadge(e));
    steps := [HandleBadge(e)];
  }

  lemma AttemptClaims(env: Env, s: State, n: nat) returns (s': State, steps: seq<Step>)
    requires StillFirst(s, n)
    ensures IsDisciplinedRun(true, env, s, steps, s') && s'.jobs == s.jobs && s'.rows.Keys == s.rows.Keys
    ensures s'.rows[0].status == Processing && s'.calls == s.calls
    ensures n in s'.workers && s'.workers == s.workers[n := s'.workers[n]] && s'.workers[n].alive &&
            !s'.workers[n].final
    ensures s'.workers[n].phase.Claimed? && s'.workers[n].tx == 0
  {
    var mid := DoStartJob(s, n, 0);
    s' := DoClaim(mid, n);
    One(true, env, s, StartJob(n, 0));
    One(true, env, mid, Claim(n));
    Concat(true, env, s, [StartJob(n, 0)], mid, [Claim(n)], s');
    steps := [StartJob(n, 0)] + [Claim(n)];
  }

  lemma SoftCauseIsSoft(env: Env)
    ensures CanThrow(env, SoftCause) && Soft(Caught(env.patterns, SoftCause))
  {
  }

  lemma AttemptThrows(env: Env, s: State, n: nat) returns (s': State, steps: seq<Step>)
    requires StillFirst(s, n)
    ensures IsDisciplinedRun(true, env, s, steps, s') && s'.jobs == s.jobs && s'.rows.Keys == s.rows.Keys
    ensures s'.rows[0].status == Processing && CallsFor(s', 0) == n + 1
    ensures n in s'.workers && s'.workers == s.workers[n := s'.workers[n]] && s'.workers[n].alive &&
            !s'.workers[n].final
    ensures s'.workers[n].phase.Threw? && Soft(s'.workers[n].phase.failure) && s'.workers[n].tx == 0
  {
    SoftCauseIsSoft(env);
    var mid, x := AttemptClaims(env, s, n);
    s' := DoThrow(mid, n, Caught(env.patterns, SoftCause));
    One(true, env, mid, ProviderThrows(n, SoftCause));
    Concat(true, env, s, x, mid, [ProviderThrows(n, SoftCause)], s');
    steps := x + [ProviderThrows(n, SoftCause)];
  }

  /** The catch block hands the row back, and the process dies before the attempt is counted. */
  lemma HandsBackAndDies(env: Env, s: State, n: nat) returns (s': State, steps: seq<Step>)
    requires n in s.workers && s.workers[n].alive && s.workers[n].phase.Threw? && s.workers[n].tx in s.rows
    requires Soft(s.workers[n].phase.failure) && !s.workers[n].final && s.rows[s.workers[n].tx].status == Processing
    ensures IsDisciplinedRun(true, env, s, steps, s') && s'.jobs == s.jobs && s'.calls == s.calls
    ensures s'.rows == s.rows[s.workers[n].tx := s.rows[s.workers[n].tx].(status := Pending)]
    ensures n in s'.workers && s'.workers == s.workers[n := s'.workers[n]] && !s'.workers[n].alive
  {
    var mid := DoCatch(env, s, n, 0);
    s' := DoCrash(mid, n);
    One(true, env, s, Catch(n, 0));
    One(true, env, mid, Crash(n));
    Concat(true, env, s, [Catch(n, 0)], mid, [Crash(n)], s');
    steps := [Catch(n, 0)] + [Crash(n)];
  }

  lemma StillFirstAgain(s: State, s': State, n: nat)
    requires StillFirst(s, n) && s'.jobs == s.jobs && CallsFor(s', 0) == n + 1
    requires 0 in s'.rows && s'.rows[0].status == Pending
    requires n in s'.workers && s'.workers == s.workers[n := s'.workers[n]] && !s'.workers[n].alive
    ensures StillFirst(s', n + 1)
  {
  }

  lemma CrashParts(env: Env, s: State, n: nat) returns (mid: State, x: seq<Step>, s': State, y: seq<Step>)
    requires StillFirst(s, n)
    ensures IsDisciplinedRun(true, env, s, x, mid) && IsDisciplinedRun(true, env, mid, y, s')
    ensures s'.jobs == s.jobs && CallsFor(s', 0) == n + 1 && 0 in s'.rows && s'.rows[0].status == Pending
    ensures n in s'.workers && s'.workers == s.workers[n := s'.workers[n]] && !s'.workers[n].alive
  {
    mid, x := AttemptThrows(env, s, n);
    s', y := HandsBackAndDies(env, mid, n);
    PutTwice(s.workers, n, mid.workers[n], s'.workers[n]);
  }

  lemma PutTwice<V>(m: map<nat, V>, k: nat, a: V, b: V)
    ensures m[k := a][k := b] == m[k := b]
  {
  }

  lemma CrashOnce(env: Env, s: State, n: nat) returns (s': State, steps: seq<Step>)
    requires StillFirst(s, n)
    ensures IsDisciplinedRun(true, env, s, steps, s') && StillFirst(s', n + 1)
  {
    var mid, x, s1, y := CrashParts(env, s, n);
    s' := s1;
    StillFirstAgain(s, s', n);
    Concat(true, env, s, x, mid, y, s');
    steps := x + y;
  }

  /** Each such crash costs one call that no attempt pays for: any number of calls is reached. */
  lemma {:induction false} CrashesCostCalls(env: Env, n: nat) returns (s: State, steps: seq<Step>)
    ensures IsDisciplinedRun(true, env, Init, steps, s) && StillFirst(s, n)
  {
    if n == 0 {
      s, steps := FirstBadgeRun(env);
    } else {
      var mid, x := CrashesCostCalls(env, n - 1);
      var y;
      s, y := CrashOnce(env, mid, n - 1);
      Concat(true, env, Init, x, mid, y, s);
      steps := x + y;
    }
  }

  /**
   * The exact condition: the budget of three calls per round holds in every disciplined run if and only if the
   * process never dies between a catch block and the queue's bookkeeping. Crashes elsewhere do not matter.
   */
  lemma BudgetIff(tailCrashes: bool, env: Env)
    ensures BudgetHolds(tailCrashes, env) <==> !tailCrashes
  {
    if tailCrashes {
      var s, steps := CrashesCostCalls(env, 3 * Rounds(env) + 1);
      assert CallsFor(s, 0) > 3 * Rounds(env);
    } else {
      forall steps, s, tx: nat | IsDisciplinedRun(tailCrashes, env, Init, steps, s) ensures CallsFor(s,
        tx) <= 3 * Rounds(env) {
        CallBudget(env, steps, s, tx);
      }
    }
  }

  // ---------------------------------------------------------------- backoff

  lemma {:induction false} Pow2Monotone(a: nat, b: nat)
    requires a <= b
    ensures Pow2(a) <= Pow2(b)
    decreases b
  {
    if a < b {
      Pow2Monotone(a, b - 1);
    }
  }

  lemma MulMonotone(c: nat, a: nat, b: nat)
    requires a <= b
    ensures c * a <= c * b
  {
  }

  lemma DelaysGrow(baseDelay: nat, a: nat, b: nat)
    requires a <= b
    ensures 0 <= AutoRetryDelay(baseDelay, a) <= AutoRetryDelay(baseDelay, b) <= ONE_HOUR
  {
    var m, n := if a >= 1 then a - 1 else 0, if b >= 1 then b - 1 else 0;
    Pow2Monotone(m, n);
    MulMonotone(baseDelay, Pow2(m), Pow2(n));
  }

  /** The catch block is about to end a round: a soft failure on the last attempt of a job. */
  predicate EndsRound(s: State, w: nat) {
    && Cashback.Running(s, w) && s.workers[w].phase.Threw? && s.workers[w].tx in s.rows
    && Soft(s.workers[w].phase.failure) && s.workers[w].final
  }

  /** The delay it schedules. */
  function DelayScheduled(env: Env, s: State, w: nat, now: int): (d: int)
    requires EndsRound(s, w)
  {
    var row := DoCatch(env, s, w, now).rows[s.workers[w].tx];
    if row.nextRetryAt.Some? then row.nextRetryAt.value - now else 0
  }

  /** The end of a round counts it, and the delay follows that count. */
  lemma RoundEnds(env: Env, s: State, b: Books, w: nat, now: int)
    requires RetryBudget.Inv(env, s, b) && EndsRound(s, w)
    ensures var tx := s.workers[w].tx;
            && DoCatch(env, s, w, now).rows[tx].retryCount == s.rows[tx].retryCount + 1
            && DelayScheduled(env, s, w, now) == AutoRetryDelay(env.baseDelay, s.rows[tx].retryCount + 1)
  {
    HeldToken(env, Live(s, b), b.tok, w);
  }

  lemma Reached(env: Env, steps: seq<Step>, s: State) returns (b: Books)
    requires IsDisciplinedRun(false, env, Init, steps, s)
    ensures RetryBudget.Inv(env, s, b)
  {
    var b0 := Books(map[], {}, {});
    assert Live(Init, b0) == Init;
    b := DisciplinedRun(env, Init, b0, steps, s);
  }

  /** From the end of one round to the end of another, the retry count has grown. */
  lemma CountGrows(env: Env, s: State, b: Books, w: nat, now: int, between: seq<Step>, s': State) returns (b': Books)
    requires RetryBudget.Inv(env, s, b) && EndsRound(s, w)
    requires IsDisciplinedRun(false, env, DoCatch(env, s, w, now), between, s')
    ensures RetryBudget.Inv(env, s', b') && s.workers[w].tx in s'.rows
    ensures s'.rows[s.workers[w].tx].retryCount >= s.rows[s.workers[w].tx].retryCount + 1
  {
    RoundEnds(env, s, b, w, now);
    var mid := DisciplinedStep(env, s, b, Catch(w, now));
    b' := DisciplinedRun(env, DoCatch(env, s, w, now), mid, between, s');
  }

  lemma FirstDelay(env: Env, before: seq<Step>, s: State, w: nat, now: int)
    requires IsDisciplinedRun(false, env, Init, before, s) && EndsRound(s, w)
    ensures DelayScheduled(env, s, w, now) == AutoRetryDelay(env.baseDelay, s.rows[s.workers[w].tx].retryCount + 1)
  {
    var b := Reached(env, before, s);
    RoundEnds(env, s, b, w, now);
  }

  lemma LaterDelay(env: Env, before: seq<Step>, s: State, w: nat, now: int,
                   between: seq<Step>, s': State, w': nat, now': int)
    requires IsDisciplinedRun(false, env, Init, before, s) && EndsRound(s, w)
    requires IsDisciplinedRun(false, env, DoCatch(env, s, w, now), between, s') && EndsRound(s', w')
    requires s'.workers[w'].tx == s.workers[w].tx
    ensures var tx := s.workers[w].tx;
            && s'.rows[tx].retryCount >= s.rows[tx].retryCount + 1
            && DelayScheduled(env, s', w', now') == AutoRetryDelay(env.baseDelay, s'.rows[tx].retryCount + 1)
  {
    var b := Reached(env, before, s);
    var b' := CountGrows(env, s, b, w, now, between, s');
    RoundEnds(env, s', b', w', now');
  }

  /**
   * Over every disciplined run, crashes and rollbacks included: of two rounds of a transaction that end one after
   * the other, the later schedules at least the delay of the earlier, and none exceeds an hour.
   */
  lemma DelaysNeverShrink(env: Env, before: seq<Step>, s: State, w: nat, now: int,
                          between: seq<Step>, s': State, w': nat, now': int)
    requires IsDisciplinedRun(false, env, Init, before, s) && EndsRound(s, w)
    requires IsDisciplinedRun(false, env, DoCatch(env, s, w, now), between, s') && EndsRound(s', w')
    requires s'.workers[w'].tx == s.workers[w].tx
    ensures 0 <= DelayScheduled(env, s, w, now) <= DelayScheduled(env, s', w', now') <= ONE_HOUR
  {
    FirstDelay(env, before, s, w, now);
    LaterDelay(env, before, s, w, now, between, s', w', now');
    var tx := s.workers[w].tx;
    DelaysGrow(env.baseDelay, s.rows[tx].retryCount + 1, s'.rows[tx].retryCount + 1);
  }

  // ---------------------------------------------------------------- no retry before its time

  /** Every automatic selection of the run finds a soft failure within its retries, and due. */
  ghost predicate OnTime(env: Env, s: State, steps: seq<Step>)
    decreases steps
  {
    steps == [] ||
    (Enabled(env, s, steps[0]) && OnTime(env, Apply(env, s, steps[0]), steps[1..]) &&
     (steps[0].SelectFailed? && !steps[0].manual ==>
        var row := s.rows[steps[0].tx];
        && row.status == Failed && row.retryable == Some(true) && row.retryCount < env.maxAutoRetries
        && (row.nextRetryAt == None || row.nextRetryAt.value <= steps[0].now)))
  }

  /** In every run of every environment no scan selects a row before its nextRetryAt. */
  lemma {:induction false} ScansAreOnTime(env: Env, s: State, steps: seq<Step>, s': State)
    requires IsRun(env, s, steps, s')
    ensures OnTime(env, s, steps)
    decreases steps
  {
    if steps != [] {
      ScansAreOnTime(env, Apply(env, s, steps[0]), steps[1..], s');
    }
  }

  predicate NoRetrierOn(s: State, tx: nat) {
    forall r | r in s.retriers :: s.retriers[r].tx != tx
  }

  predicate Selects(step: Step, tx: nat) {
    step.SelectFailed? && step.tx == tx
  }

  lemma KnownBadgeKeepsRetriers(env: Env, s: State, e: BadgeEvent)
    requires HasRow(s.rows, e.user, e.badge) || e.id in s.processed
    ensures DoHandleBadge(env, s, e).retriers == s.retriers
  {
  }

  lemma NewBadgeKeepsRetriers(env: Env, s: State, e: BadgeEvent)
    requires !HasRow(s.rows, e.user, e.badge) && e.id !in s.processed
    ensures DoHandleBadge(env, s, e).retriers == s.retriers
  {
  }

  lemma KnownRollbackKeepsRetriers(s: State, e: BadgeEvent)
    requires HasRow(s.rows, e.user, e.badge)
    ensures DoRollback(s, e).retriers == s.retriers
  {
  }

  lemma BadgeKeepsRetriers(env: Env, s: State, e: BadgeEvent)
    ensures DoHandleBadge(env, s, e).retriers == s.retriers && DoRollback(s, e).retriers == s.retriers
  {
    if HasRow(s.rows, e.user, e.badge) {
      KnownBadgeKeepsRetriers(env, s, e);
      KnownRollbackKeepsRetriers(s, e);
    } else {
      RollbackState(s, e);
      if e.id in s.processed {
        KnownBadgeKeepsRetriers(env, s, e);
      } else {
        NewBadgeKeepsRetriers(env, s, e);
      }
    }
  }

  predicate ByRetrier(step: Step) {
    step.SelectFailed? || step.ResetRetryCount? || step.Recheck? || step.Requeue? || step.Enqueue?
  }

  lemma WorkersKeepRetriers(env: Env, s: State, step: Step)
    requires Enabled(env, s, step) && !ByRetrier(step)
    ensures Apply(env, s, step).retriers == s.retriers
  {
    match step
    case HandleBadge(e) => BadgeKeepsRetriers(env, s, e);
    case HandleBadgeRollsBack(e) => BadgeKeepsRetriers(env, s, e);
    case StartJob(w, j) =>
      var job := s.jobs[j];
      assert DoStartJob(s, w, j).retriers == s.retriers;
    case _ =>
  }

  lemma RetriersComeFromSelection(env: Env, s: State, step: Step, tx: nat)
    requires Enabled(env, s, step) && NoRetrierOn(s, tx) && !Selects(step, tx)
    ensures NoRetrierOn(Apply(env, s, step), tx)
  {
    if !ByRetrier(step) {
      WorkersKeepRetriers(env, s, step);
    }
  }

  lemma WaitsOneStep(env: Env, s: State, b: Books, step: Step, tx: nat) returns (b': Books)
    requires RetryBudget.Inv(env, s, b) && Enabled(env, s, step) && Disciplined(false, s, step)
    requires tx in s.rows && s.rows[tx].status == Failed && NoRetrierOn(s, tx) && !Selects(step, tx)
    ensures RetryBudget.Inv(env, Apply(env, s, step), b') && NoRetrierOn(Apply(env, s, step), tx)
    ensures tx in Apply(env, s, step).rows && Apply(env, s, step).rows[tx] == s.rows[tx]
  {
    NobodyHolds(env, Live(s, b), b.tok, tx);
    b' := DisciplinedStep(env, s, b, step);
    RetriersComeFromSelection(env, s, step, tx);
  }

  /** A FAILED row that no retry holds stays exactly as it is until one is selected for it. */
  lemma {:induction false} WaitsForSelection(env: Env, s: State, b: Books, steps: seq<Step>, s': State, tx: nat)
    requires RetryBudget.Inv(env, s, b) && IsDisciplinedRun(false, env, s, steps, s')
    requires tx in s.rows && s.rows[tx].status == Failed && NoRetrierOn(s, tx)
    requires forall i | 0 <= i < |steps| :: !Selects(steps[i], tx)
    ensures tx in s'.rows && s'.rows[tx] == s.rows[tx]
    decreases steps
  {
    if steps != [] {
      var b' := WaitsOneStep(env, s, b, steps[0], tx);
      WaitsForSelection(env, Apply(env, s, steps[0]), b', steps[1..], s', tx);
    }
  }

  lemma RoundLeavesNoRetrier(env: Env, s: State, b: Books, w: nat, now: int)
    requires RetryBudget.Inv(env, s, b) && EndsRound(s, w)
    ensures var s', tx := DoCatch(env, s, w, now), s.workers[w].tx;
            && NoRetrierOn(s', tx) && tx in s'.rows && s'.rows[tx].status == Failed
            && s'.rows[tx].nextRetryAt == Some(now + DelayScheduled(env, s, w, now))
  {
    HeldToken(env, Live(s, b), b.tok, w);
  }

  /** After a round, the row stays as saved until a retry is selected for it. */
  lemma SavedUntilSelected(env: Env, before: seq<Step>, s: State, w: nat, now: int, between: seq<Step>, s': State)
    requires IsDisciplinedRun(false, env, Init, before, s) && EndsRound(s, w)
    requires IsDisciplinedRun(false, env, DoCatch(env, s, w, now), between, s')
    requires forall i | 0 <= i < |between| :: !Selects(between[i], s.workers[w].tx)
    ensures s.workers[w].tx in s'.rows
    ensures s'.rows[s.workers[w].tx].nextRetryAt == Some(now + DelayScheduled(env, s, w, now))
  {
    var b := Reached(env, before, s);
    RoundLeavesNoRetrier(env, s, b, w, now);
    var mid := DisciplinedStep(env, s, b, Catch(w, now));
    WaitsForSelection(env, DoCatch(env, s, w, now), mid, between, s', s.workers[w].tx);
  }

  /** The slow tier waits: the next automatic selection comes no sooner than the delay the round scheduled. */
  lemma NextRetryWaits(env: Env, before: seq<Step>, s: State, w: nat, now: int,
                       between: seq<Step>, s': State, r: nat, now': int)
    requires IsDisciplinedRun(false, env, Init, before, s) && EndsRound(s, w)
    requires IsDisciplinedRun(false, env, DoCatch(env, s, w, now), between, s')
    requires forall i | 0 <= i < |between| :: !Selects(between[i], s.workers[w].tx)
    requires Enabled(env, s', SelectFailed(r, s.workers[w].tx, false, now'))
    ensures now' >= now + DelayScheduled(env, s, w, now)
  {
    SavedUntilSelected(env, before, s, w, now, between, s');
  }

  /** Delays start at the base and double with every failed round, up to one hour. */
  lemma DelaysDouble(baseDelay: nat, count: nat)
    ensures AutoRetryDelay(baseDelay, 1) == if baseDelay <= 3600000 then baseDelay else 3600000
    ensures count >= 1 ==>
              var d := 2 * AutoRetryDelay(baseDelay, count);
              AutoRetryDelay(baseDelay, count + 1) == if d <= 3600000 then d else 3600000
  {
    if count >= 1 {
      assert Pow2(count) == 2 * Pow2(count - 1);
      assert baseDelay * Pow2(count) == 2 * (baseDelay * Pow2(count - 1));
    }
  }
}

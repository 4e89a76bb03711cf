/** When the attempt counter of a row can go down: exactly when a publisher claims with a snapshot that is behind. */
module OutboxAttempts {
  import opened Outbox
  import opened OutboxSafety

  // ---------------------------------------------------------------- never behind, never down

  predicate Behind(s: State, task: Task) {
    task.id in s.rows && task.snap.attempts < s.rows[task.id].attempts
  }

  /** What an owner will write back counts at least as many attempts as the row shows. */
  predicate OwnersUpToDate(s: State) {
    forall t | t in s.tasks && Owns(s.tasks[t]) :: !Behind(s, s.tasks[t])
  }

  /** The claim is about to win with an outdated count: both sides of the test are known before the update. */
  predicate LateClaim(s: State, step: Step) {
    && step.Claim? && step.t in s.tasks && s.tasks[step.t].Loaded? && s.tasks[step.t].id in s.rows
    && s.rows[s.tasks[step.t].id].status == Pending && Behind(s, s.tasks[step.t])
  }

  predicate NoneLower(s: State, s': State) {
    forall id | id in s.rows :: id in s'.rows && s.rows[id].attempts <= s'.rows[id].attempts
  }

  ghost predicate NoLateClaim(s: State, steps: seq<Step>, maxAttempts: nat)
    decreases steps
  {
    steps == [] ||
    (Enabled(s, steps[0], maxAttempts) && !LateClaim(s, steps[0]) &&
     NoLateClaim(Apply(s, steps[0], maxAttempts), steps[1..], maxAttempts))
  }

  lemma StepKeepsUpToDate(s: State, step: Step, maxAttempts: nat)
    requires Inv(s, maxAttempts) && OwnersUpToDate(s) && Enabled(s, step, maxAttempts) && !LateClaim(s, step)
    ensures OwnersUpToDate(Apply(s, step, maxAttempts)) && NoneLower(s, Apply(s, step, maxAttempts))
  {
    assert forall t | t in s.tasks :: TaskOk(s, s.tasks[t], maxAttempts);
  }

  /** Without late claims no attempt counter ever goes down, whoever else publishes, fails or dies. */
  lemma {:induction false} AttemptsNeverFall(s: State, steps: seq<Step>, s': State, maxAttempts: nat)
    requires maxAttempts >= 1 && Inv(s, maxAttempts) && OwnersUpToDate(s)
    requires IsRun(s, steps, s', maxAttempts) && NoLateClaim(s, steps, maxAttempts)
    ensures NoneLower(s, s') && OwnersUpToDate(s')
    decreases steps
  {
    if steps != [] {
      var mid := Apply(s, steps[0], maxAttempts);
      StepKeepsUpToDate(s, steps[0], maxAttempts);
      StepPreservesInv(s, steps[0], maxAttempts);
      AttemptsNeverFall(mid, steps[1..], s', maxAttempts);
    }
  }

  // ---------------------------------------------------------------- behind, hence down

  /** After a late claim two more steps of the same publisher, a confirm and a save, lower the counter. */
  lemma LateClaimLowers(s: State, t: nat, maxAttempts: nat) returns (rest: seq<Step>, s': State)
    requires Inv(s, maxAttempts) && Enabled(s, Claim(t), maxAttempts) && LateClaim(s, Claim(t))
    ensures IsRun(Apply(s, Claim(t), maxAttempts), rest, s', maxAttempts)
    ensures NoLateClaim(Apply(s, Claim(t), maxAttempts), rest, maxAttempts) && !NoneLower(s, s')
  {
    var s1 := Apply(s, Claim(t), maxAttempts);
    var s2 := Apply(s1, BrokerConfirms(t), maxAttempts);
    s' := Apply(s2, Save(t), maxAttempts);
    rest := [BrokerConfirms(t), Save(t)];
    assert rest[1..] == [Save(t)];
    OneStepRun(s2, Save(t), maxAttempts);
    RunStep(s1, rest, s', maxAttempts);
    assert NoLateClaim(s2, [Save(t)], maxAttempts) by {
      assert [Save(t)][1..] == [];
    }
    assert s'.rows[s.tasks[t].id].attempts < s.rows[s.tasks[t].id].attempts;
  }

  /** Nothing that follows the claim, short of another late one, lowers a counter. */
  ghost predicate ClaimIsHarmless(s: State, t: nat, maxAttempts: nat)
    requires Enabled(s, Claim(t), maxAttempts)
  {
    forall rest, s' |
      IsRun(Apply(s, Claim(t), maxAttempts), rest, s', maxAttempts) &&
      NoLateClaim(Apply(s, Claim(t), maxAttempts), rest, maxAttempts) :: NoneLower(s, s')
  }

  lemma NoneLowerTrans(a: State, b: State, c: State)
    requires NoneLower(a, b) && NoneLower(b, c)
    ensures NoneLower(a, c)
  {
  }

  /**
   * The exact condition, from any state in which nobody has claimed late yet: a claim can lead to a lower
   * counter if and only if it wins with a snapshot whose count is below the row's.
   */
  lemma HarmlessIffNotLate(s: State, t: nat, maxAttempts: nat)
    requires maxAttempts >= 1 && Inv(s, maxAttempts) && OwnersUpToDate(s) && Enabled(s, Claim(t), maxAttempts)
    ensures ClaimIsHarmless(s, t, maxAttempts) <==> !LateClaim(s, Claim(t))
  {
    var s1 := Apply(s, Claim(t), maxAttempts);
    if LateClaim(s, Claim(t)) {
      var rest, s' := LateClaimLowers(s, t, maxAttempts);
    } else {
      StepKeepsUpToDate(s, Claim(t), maxAttempts);
      StepPreservesInv(s, Claim(t), maxAttempts);
      forall rest, s' | IsRun(s1, rest, s', maxAttempts) &&
        NoLateClaim(s1, rest, maxAttempts) ensures NoneLower(s, s') {
        AttemptsNeverFall(s1, rest, s', maxAttempts);
        NoneLowerTrans(s, s1, s');
      }
    }
  }

  // ---------------------------------------------------------------- and such claims are reachable

  /** A publisher that holds a snapshot writes back the snapshot's count, however old it is. */
  lemma StaleAttempt(s: State, t: nat, maxAttempts: nat) returns (s': State)
    requires t in s.tasks && s.tasks[t].Loaded? && s.tasks[t].id in s.rows && s.rows[s.tasks[t].id].status == Pending
    ensures IsRun(s, [Claim(t), BrokerFails(t), Save(t)], s', maxAttempts)
    ensures s'.rows == s.rows[s.tasks[t].id := AfterFailure(s.tasks[t].snap, maxAttempts)]
  {
    var s1 := Apply(s, Claim(t), maxAttempts);
    var s2 := Apply(s1, BrokerFails(t), maxAttempts);
    s' := Apply(s2, Save(t), maxAttempts);
    OneStepRun(s2, Save(t), maxAttempts);
    assert [BrokerFails(t), Save(t)][1..] == [Save(t)];
    RunStep(s1, [BrokerFails(t), Save(t)], s', maxAttempts);
    assert [Claim(t), BrokerFails(t), Save(t)][1..] == [BrokerFails(t), Save(t)];
    RunStep(s, [Claim(t), BrokerFails(t), Save(t)], s', maxAttempts);
  }

  lemma ReadEarly() returns (s: State)
    ensures IsRun(Init, [Insert(0), ReadById(1, 0)], s, 5)
    ensures s.rows == map[0 := Row(Pending, 0)] && s.log.Keys == {0} && s.tasks == map[1 := Loaded(0, Row(Pending, 0))]
  {
    var s1 := Apply(Init, Insert(0), 5);
    s := Apply(s1, ReadById(1, 0), 5);
    OneStepRun(s1, ReadById(1, 0), 5);
    assert [Insert(0), ReadById(1, 0)][1..] == [ReadById(1, 0)];
    RunStep(Init, [Insert(0), ReadById(1, 0)], s, 5);
  }

  /**
   * So the attempt counter is not monotone: here a row that has two failed attempts goes back to one,
   * because a publisher that read it before the first attempt finally gets to run.
   */
  lemma AttemptsAreNotMonotone() returns (prefix: seq<Step>, before: State, steps: seq<Step>, after: State)
    ensures IsRun(Init, prefix, before, 5) && IsRun(before, steps, after, 5)
    ensures 0 in before.rows && before.rows[0] == Row(Pending, 2)
    ensures 0 in after.rows && after.rows[0] == Row(Pending, 1)
  {
    var s1 := ReadEarly();
    var s2 := FailedAttempt(s1, 0, 0, 5);
    var a := Attempt(0, 0, false);
    RunConcat(Init, [Insert(0), ReadById(1, 0)], s1, a, s2, 5);
    before := FailedAttempt(s2, 0, 0, 5);
    RunConcat(Init, [Insert(0), ReadById(1, 0)] + a, s2, a, before, 5);
    prefix := [Insert(0), ReadById(1, 0)] + a + a;
    after := StaleAttempt(before, 1, 5);
    steps := [Claim(1), BrokerFails(1), Save(1)];
  }
}

/** What every interleaving of publishers keeps, and one publication left undisturbed. */
module OutboxSafety {
  import opened Outbox

  // ---------------------------------------------------------------- invariant

  predicate RowOk(row: Row, maxAttempts: nat) {
    && row.attempts <= maxAttempts
    && (row.status == Failed <==> row.attempts == maxAttempts)
  }

  predicate TaskOk(s: State, task: Task, maxAttempts: nat) {
    && task.id in s.rows
    && (if task.Failing? then RowOk(task.snap, maxAttempts) && task.snap.status in {Pending, Failed}
        else task.snap.attempts < maxAttempts)
    && (task.Confirmed? ==> task.snap.status == Published)
    && (Owns(task) ==> s.rows[task.id].status == Publishing)
  }

  /** How many confirms a row has, given the failed saves, its status and its owner. */
  predicate LogOk(row: Row, h: History) {
    match row.status
    case Published => h.confirms == h.failedSaves + 1
    case Publishing => h.failedSaves <= h.confirms <= h.failedSaves + 1
    case _ => h.confirms == h.failedSaves
  }

  predicate OwnerLogOk(task: Task, h: History) {
    Owns(task) ==> h.confirms == h.failedSaves + (if task.Confirmed? then 1 else 0)
  }

  predicate OneOwner(s: State) {
    forall t, u | t in s.tasks && u in s.tasks && Owns(s.tasks[t]) && Owns(s.tasks[u]) &&
      s.tasks[t].id == s.tasks[u].id :: t == u
  }

  predicate Inv(s: State, maxAttempts: nat) {
    && s.log.Keys == s.rows.Keys
    && (forall id | id in s.rows :: RowOk(s.rows[id], maxAttempts) && LogOk(s.rows[id], s.log[id]))
    && (forall t | t in s.tasks :: TaskOk(s, s.tasks[t], maxAttempts) && OwnerLogOk(s.tasks[t], s.log[s.tasks[t].id]))
    && OneOwner(s)
  }

  predicate NoOtherOwner(s: State, t: nat, id: nat) {
    forall u | u in s.tasks && u != t && s.tasks[u].id == id :: !Owns(s.tasks[u])
  }

  predicate SameRow(s: State, s': State, id: nat) {
    (id in s.rows <==> id in s'.rows) && (id in s.rows ==> s.rows[id] == s'.rows[id]) &&
    (id in s.log <==> id in s'.log) && (id in s.log ==> s.log[id] == s'.log[id])
  }

  /** A change confined to one task and its row is harmless if no other task owns that row. */
  lemma LocalChange(s: State, s': State, t: nat, id: nat, maxAttempts: nat)
    requires Inv(s, maxAttempts)
    requires forall k | k != id :: SameRow(s, s', k)
    requires forall u | u != t :: (u in s.tasks <==> u in s'.tasks) && (u in s.tasks ==> s.tasks[u] == s'.tasks[u])
    requires id in s'.rows && id in s'.log && RowOk(s'.rows[id], maxAttempts) && LogOk(s'.rows[id], s'.log[id])
    requires t in s'.tasks ==>
              s'.tasks[t].id == id && TaskOk(s', s'.tasks[t], maxAttempts) && OwnerLogOk(s'.tasks[t], s'.log[id])
    requires SameRow(s, s', id) || NoOtherOwner(s, t, id)
    requires t in s'.tasks && Owns(s'.tasks[t]) ==> NoOtherOwner(s, t, id)
    ensures Inv(s', maxAttempts)
  {
    forall k ensures k in s'.log <==> k in s'.rows {
      assert k != id ==> SameRow(s, s', k);
    }
    forall u | u in s'.tasks ensures TaskOk(s', s'.tasks[u], maxAttempts) &&
      OwnerLogOk(s'.tasks[u], s'.log[s'.tasks[u].id]) {
      if u != t {
        assert TaskOk(s, s.tasks[u], maxAttempts);
        if s.tasks[u].id != id {
          assert SameRow(s, s', s.tasks[u].id);
        }
      }
    }
    forall k | k in s'.rows ensures RowOk(s'.rows[k], maxAttempts) && LogOk(s'.rows[k], s'.log[k]) {
      if k != id {
        assert SameRow(s, s', k);
      }
    }
  }

  lemma OwnersAreAlone(s: State, t: nat, maxAttempts: nat)
    requires Inv(s, maxAttempts) && t in s.tasks && Owns(s.tasks[t])
    ensures NoOtherOwner(s, t, s.tasks[t].id)
  {
  }

  lemma StepPreservesInv(s: State, step: Step, maxAttempts: nat)
    requires maxAttempts >= 1
    requires Inv(s, maxAttempts) && Enabled(s, step, maxAttempts)
    ensures Inv(Apply(s, step, maxAttempts), maxAttempts)
  {
    match step {
      case Insert(id) => InsertPreservesInv(s, id, maxAttempts);
      case ReadById(t, id) => ReadPreservesInv(s, step, t, id, maxAttempts);
      case ReadPending(t, id) => ReadPreservesInv(s, step, t, id, maxAttempts);
      case Claim(t) => ClaimPreservesInv(s, t, maxAttempts);
      case BrokerConfirms(t) => ConfirmPreservesInv(s, t, maxAttempts);
      case BrokerFails(t) => CallFailurePreservesInv(s, t, maxAttempts);
      case Save(t) => SavePreservesInv(s, t, maxAttempts);
      case SaveFails(t) => SaveFailurePreservesInv(s, t, maxAttempts);
      case Crash(t) => LocalChange(s, Apply(s, step, maxAttempts), t, s.tasks[t].id, maxAttempts);
    }
  }

  lemma InsertPreservesInv(s: State, id: nat, maxAttempts: nat)
    requires maxAttempts >= 1 && Inv(s, maxAttempts) && Enabled(s, Insert(id), maxAttempts)
    ensures Inv(Apply(s, Insert(id), maxAttempts), maxAttempts)
  {
    assert forall u | u in s.tasks :: TaskOk(s, s.tasks[u], maxAttempts);
  }

  lemma ReadPreservesInv(s: State, step: Step, t: nat, id: nat, maxAttempts: nat)
    requires step == ReadById(t, id) || step == ReadPending(t, id)
    requires Inv(s, maxAttempts) && Enabled(s, step, maxAttempts)
    ensures Inv(Apply(s, step, maxAttempts), maxAttempts)
  {
    LocalChange(s, Apply(s, step, maxAttempts), t, id, maxAttempts);
  }

  lemma CallFailurePreservesInv(s: State, t: nat, maxAttempts: nat)
    requires Inv(s, maxAttempts) && Enabled(s, BrokerFails(t), maxAttempts)
    ensures Inv(Apply(s, BrokerFails(t), maxAttempts), maxAttempts)
  {
    OwnersAreAlone(s, t, maxAttempts);
    LocalChange(s, Apply(s, BrokerFails(t), maxAttempts), t, s.tasks[t].id, maxAttempts);
  }

  lemma SavePreservesInv(s: State, t: nat, maxAttempts: nat)
    requires Inv(s, maxAttempts) && Enabled(s, Save(t), maxAttempts)
    ensures Inv(Apply(s, Save(t), maxAttempts), maxAttempts)
  {
    OwnersAreAlone(s, t, maxAttempts);
    LocalChange(s, Apply(s, Save(t), maxAttempts), t, s.tasks[t].id, maxAttempts);
  }

  lemma SaveFailurePreservesInv(s: State, t: nat, maxAttempts: nat)
    requires Inv(s, maxAttempts) && Enabled(s, SaveFails(t), maxAttempts)
    ensures Inv(Apply(s, SaveFails(t), maxAttempts), maxAttempts)
  {
    OwnersAreAlone(s, t, maxAttempts);
    LocalChange(s, Apply(s, SaveFails(t), maxAttempts), t, s.tasks[t].id, maxAttempts);
  }

  lemma ClaimPreservesInv(s: State, t: nat, maxAttempts: nat)
    requires Inv(s, maxAttempts) && Enabled(s, Claim(t), maxAttempts)
    ensures Inv(Apply(s, Claim(t), maxAttempts), maxAttempts)
  {
    var id := s.tasks[t].id;
    assert s.rows[id].status == Pending ==> NoOtherOwner(s, t, id) by {
      assert forall u | u in s.tasks :: TaskOk(s, s.tasks[u], maxAttempts);
    }
    LocalChange(s, Apply(s, Claim(t), maxAttempts), t, id, maxAttempts);
  }

  lemma ConfirmPreservesInv(s: State, t: nat, maxAttempts: nat)
    requires Inv(s, maxAttempts) && Enabled(s, BrokerConfirms(t), maxAttempts)
    ensures Inv(Apply(s, BrokerConfirms(t), maxAttempts), maxAttempts)
  {
    OwnersAreAlone(s, t, maxAttempts);
    LocalChange(s, Apply(s, BrokerConfirms(t), maxAttempts), t, s.tasks[t].id, maxAttempts);
  }

  lemma {:induction false} RunPreservesInv(s: State, steps: seq<Step>, s': State, maxAttempts: nat)
    requires maxAttempts >= 1
    requires Inv(s, maxAttempts) && IsRun(s, steps, s', maxAttempts)
    ensures Inv(s', maxAttempts)
    decreases steps
  {
    if steps != [] {
      StepPreservesInv(s, steps[0], maxAttempts);
      RunPreservesInv(Apply(s, steps[0], maxAttempts), steps[1..], s', maxAttempts);
    }
  }

  // ---------------------------------------------------------------- main results

  /**
   * In every reachable state, whoever reads what when: a row has at most one owner, PUBLISHED implies a
   * confirm, confirms exceed the failed PUBLISHED-saves by at most one, and FAILED is exactly the state of
   * having used up the attempts.
   */
  lemma RowSafety(steps: seq<Step>, s: State, maxAttempts: nat, id: nat)
    requires maxAttempts >= 1 && IsRun(Init, steps, s, maxAttempts) && id in s.rows
    ensures forall t, u | t in s.tasks && u in s.tasks && Owns(s.tasks[t]) && Owns(s.tasks[u]) &&
                          s.tasks[t].id == id && s.tasks[u].id == id :: t == u
    ensures forall t | t in s.tasks && Owns(s.tasks[t]) && s.tasks[t].id == id :: s.rows[id].status == Publishing
    ensures id in s.log && s.log[id].confirms <= 1 + s.log[id].failedSaves
    ensures s.rows[id].status == Published ==> s.log[id].confirms >= 1
    ensures s.rows[id].status == Failed <==> s.rows[id].attempts == maxAttempts
    ensures s.rows[id].status != Failed ==> s.rows[id].attempts < maxAttempts
  {
    RunPreservesInv(Init, steps, s, maxAttempts);
    assert forall t | t in s.tasks :: TaskOk(s, s.tasks[t], maxAttempts);
  }

  /** PUBLISHED and FAILED rows are never written again, whatever the publishers hold. */
  lemma {:induction false} TerminalStaysTerminal(s: State, steps: seq<Step>, s': State, maxAttempts: nat, id: nat)
    requires maxAttempts >= 1 && Inv(s, maxAttempts) && IsRun(s, steps, s', maxAttempts)
    requires id in s.rows && s.rows[id].status in {Published, Failed}
    ensures id in s'.rows && s'.rows[id] == s.rows[id]
    ensures id in s.log && id in s'.log && s'.log[id] == s.log[id]
    decreases steps
  {
    if steps != [] {
      assert forall t | t in s.tasks :: TaskOk(s, s.tasks[t], maxAttempts);
      StepPreservesInv(s, steps[0], maxAttempts);
      TerminalStaysTerminal(Apply(s, steps[0], maxAttempts), steps[1..], s', maxAttempts, id);
    } else {
      assert id in s.log;
    }
  }

  lemma RunStep(s: State, steps: seq<Step>, s': State, maxAttempts: nat)
    requires steps != [] && Enabled(s, steps[0], maxAttempts)
    requires IsRun(Apply(s, steps[0], maxAttempts), steps[1..], s', maxAttempts)
    ensures IsRun(s, steps, s', maxAttempts)
  {
  }

  lemma {:induction false} RunConcat(s: State, a: seq<Step>, mid: State, b: seq<Step>, s': State, maxAttempts: nat)
    requires IsRun(s, a, mid, maxAttempts) && IsRun(mid, b, s', maxAttempts)
    ensures IsRun(s, a + b, s', maxAttempts)
    decreases a
  {
    if a == [] {
      assert a + b == b;
    } else {
      assert (a + b)[1..] == a[1..] + b;
      RunConcat(Apply(s, a[0], maxAttempts), a[1..], mid, b, s', maxAttempts);
    }
  }

  lemma OneStepRun(s: State, step: Step, maxAttempts: nat)
    requires Enabled(s, step, maxAttempts)
    ensures IsRun(s, [step], Apply(s, step, maxAttempts), maxAttempts)
  {
    assert [step][1..] == [];
  }

  // ---------------------------------------------------------------- one undisturbed publication

  /** publishById, or one turn of publishPendingBatch, with nobody else interfering. */
  function Attempt(t: nat, id: nat, ok: bool): (steps: seq<Step>) {
    [ReadPending(t, id), Claim(t), if ok then BrokerConfirms(t) else BrokerFails(t), Save(t)]
  }

  /** What such an undisturbed publication leaves in the row. */
  function Published1(row: Row, ok: bool, maxAttempts: nat): (r: Row) {
    if ok then Row(Published, row.attempts) else AfterFailure(row, maxAttempts)
  }

  lemma SerialAttempt(s: State, t: nat, id: nat, ok: bool, maxAttempts: nat) returns (s': State)
    requires t !in s.tasks && id in s.rows && id in s.log && s.rows[id].status == Pending
    ensures IsRun(s, Attempt(t, id, ok), s', maxAttempts)
    ensures s'.rows == s.rows[id := Published1(s.rows[id], ok, maxAttempts)]
    ensures s'.tasks == s.tasks
    ensures s'.log == s.log[id := s.log[id].(confirms := s.log[id].confirms + (if ok then 1 else 0))]
  {
    var call := if ok then BrokerConfirms(t) else BrokerFails(t);
    var s1 := Apply(s, ReadPending(t, id), maxAttempts);
    var s2 := Apply(s1, Claim(t), maxAttempts);
    var s3 := Apply(s2, call, maxAttempts);
    s' := Apply(s3, Save(t), maxAttempts);
    assert s'.tasks == s.tasks;
    var steps := Attempt(t, id, ok);
    assert steps[1..] == [Claim(t), call, Save(t)];
    assert steps[1..][1..] == [call, Save(t)];
    assert [call, Save(t)][1..] == [Save(t)];
    OneStepRun(s3, Save(t), maxAttempts);
    RunStep(s2, [call, Save(t)], s', maxAttempts);
    RunStep(s1, [Claim(t), call, Save(t)], s', maxAttempts);
    RunStep(s, steps, s', maxAttempts);
  }

  lemma FailedAttempt(s: State, t: nat, id: nat, maxAttempts: nat) returns (s': State)
    requires t !in s.tasks && id in s.rows && id in s.log && s.rows[id].status == Pending
    ensures IsRun(s, Attempt(t, id, false), s', maxAttempts)
    ensures s'.rows == s.rows[id := AfterFailure(s.rows[id], maxAttempts)]
    ensures s'.tasks == s.tasks
    ensures s'.log.Keys == s.log.Keys
  {
    s' := SerialAttempt(s, t, id, false, maxAttempts);
  }

  /**
   * A save that fails changes no row. After a confirm it is caught and counted as a failed attempt; in the catch
   * block itself it ends the publisher, and the row stays as its claim left it.
   */
  lemma FailedSaveMeans(s: State, t: nat, maxAttempts: nat)
    requires Enabled(s, SaveFails(t), maxAttempts)
    ensures var task, s' := s.tasks[t], Apply(s, SaveFails(t), maxAttempts);
      && s'.rows == s.rows
      && (task.Failing? ==> s'.tasks == s.tasks - {t} && s'.log == s.log)
      && (task.Confirmed? ==>
            && t in s'.tasks && s'.tasks[t].Failing? && s'.tasks[t].id == task.id
            && s'.tasks[t].snap.attempts == task.snap.attempts + 1
            && s'.tasks[t].snap.status == (if task.snap.attempts + 1 >= maxAttempts then Failed else Pending))
  {
  }
}

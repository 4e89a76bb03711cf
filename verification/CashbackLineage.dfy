/** Where cashback rows come from: each was created by one announced badge, for its user and reward. */
module CashbackLineage {
  import opened Json
  import opened Loyalty
  import opened Cashback
  import opened CashbackSafety

  predicate IsBadge(outbox: seq<Announcement>, id: nat) {
    id < |outbox| && outbox[id].BadgeUnlocked?
  }

  function BadgeEventOf(outbox: seq<Announcement>, id: nat): (e: BadgeEvent)
    requires IsBadge(outbox, id)
  {
    BadgeEvent(id, outbox[id].payee, outbox[id].badgeName, Some(outbox[id].reward))
  }

  predicate IsCommitOrRollback(c: Step) {
    c.HandleBadge? || c.HandleBadgeRollsBack?
  }

  predicate RowFromEvent(processed: map<nat, BadgeEvent>, row: Tx, id: nat) {
    id in processed && processed[id].user == row.user && processed[id].badge == row.badge &&
      processed[id].reward == Some(row.amount)
  }

  /** Each row was created by a processed event for its user, badge and amount. */
  ghost predicate RowsFrom(rows: map<nat, Tx>, processed: map<nat, BadgeEvent>) {
    forall tx | tx in rows :: exists id :: RowFromEvent(processed, rows[tx], id)
  }

  predicate ProcessedFrom(outbox: seq<Announcement>, processed: map<nat, BadgeEvent>) {
    forall id | id in processed :: IsBadge(outbox, id) && processed[id] == BadgeEventOf(outbox, id)
  }

  ghost predicate CashbackInv(outbox: seq<Announcement>, c: State) {
    CashbackSafety.Inv(c) && ProcessedFrom(outbox, c.processed) && RowsFrom(c.rows, c.processed)
  }

  lemma ProcessedFromMore(outbox: seq<Announcement>, more: seq<Announcement>, processed: map<nat, BadgeEvent>)
    requires ProcessedFrom(outbox, processed) && outbox <= more
    ensures ProcessedFrom(more, processed)
  {
    forall id | id in processed ensures IsBadge(more, id) && processed[id] == BadgeEventOf(more, id) {
      assert more[id] == outbox[id];
    }
  }

  lemma RowsFromMore(rows: map<nat, Tx>, processed: map<nat, BadgeEvent>, e: BadgeEvent)
    requires RowsFrom(rows, processed) && e.id !in processed
    ensures RowsFrom(rows, processed[e.id := e])
  {
    var processed' := processed[e.id := e];
    forall tx | tx in rows ensures exists id :: RowFromEvent(processed', rows[tx], id) {
      var id :| RowFromEvent(processed, rows[tx], id);
      assert RowFromEvent(processed', rows[tx], id);
    }
  }

  predicate SameIdentities(rows: map<nat, Tx>, rows': map<nat, Tx>) {
    rows'.Keys == rows.Keys && forall tx | tx in rows :: SameIdentity(rows[tx], rows'[tx])
  }

  lemma RowsFromSame(rows: map<nat, Tx>, rows': map<nat, Tx>, processed: map<nat, BadgeEvent>)
    requires RowsFrom(rows, processed) && SameIdentities(rows, rows')
    ensures RowsFrom(rows', processed)
  {
    forall tx | tx in rows' ensures exists id :: RowFromEvent(processed, rows'[tx], id) {
      var id :| RowFromEvent(processed, rows[tx], id);
      assert RowFromEvent(processed, rows'[tx], id);
    }
  }

  lemma RepeatParts(env: Env, c: State, e: BadgeEvent)
    requires e.id !in c.processed && HasRow(c.rows, e.user, e.badge)
    ensures DoHandleBadge(env, c, e).processed == c.processed[e.id := e] && DoHandleBadge(env, c, e).rows == c.rows
  {
  }

  lemma NewParts(env: Env, c: State, e: BadgeEvent)
    requires e.id !in c.processed && !HasRow(c.rows, e.user, e.badge)
    ensures DoHandleBadge(env, c, e).processed == c.processed[e.id := e]
    ensures DoHandleBadge(env, c, e).rows == c.rows[c.nextTx := NewTx(e, env)]
  {
  }

  lemma CommitKeepsRows(env: Env, c: State, e: BadgeEvent)
    requires RowsFrom(c.rows, c.processed) && e.reward.Some? && e.id !in c.processed
    ensures DoHandleBadge(env, c, e).processed == c.processed[e.id := e]
    ensures RowsFrom(DoHandleBadge(env, c, e).rows, c.processed[e.id := e])
  {
    RowsFromMore(c.rows, c.processed, e);
    if HasRow(c.rows, e.user, e.badge) {
      RepeatParts(env, c, e);
    } else {
      NewParts(env, c, e);
      assert RowFromEvent(c.processed[e.id := e], NewTx(e, env), e.id);
    }
  }

  lemma CashbackCommitted(env: Env, outbox: seq<Announcement>, c: State, id: nat)
    requires CashbackInv(outbox, c) && IsBadge(outbox, id)
    ensures CashbackInv(outbox, DoHandleBadge(env, c, BadgeEventOf(outbox, id)))
  {
    HandleBadgePreserves(env, c, BadgeEventOf(outbox, id));
    if id !in c.processed {
      CommitKeepsRows(env, c, BadgeEventOf(outbox, id));
    }
  }

  lemma CashbackRolledBack(outbox: seq<Announcement>, c: State, e: BadgeEvent)
    requires CashbackInv(outbox, c)
    ensures CashbackInv(outbox, DoRollback(c, e))
  {
    RollbackPreserves(c, e);
  }

  // ---------------------------------------------------------------- other steps

  lemma OneRowSame(rows: map<nat, Tx>, tx: nat, row: Tx)
    requires tx in rows && SameIdentity(rows[tx], row)
    ensures SameIdentities(rows, rows[tx := row])
  {
  }

  /** Same events, same rows for the same users, badges and amounts. */
  predicate SameLineage(c: State, c': State) {
    c'.processed == c.processed && SameIdentities(c.rows, c'.rows)
  }

  lemma ClaimLineage(c: State, w: nat)
    requires w in c.workers && c.workers[w].tx in c.rows
    ensures SameLineage(c, DoClaim(c, w))
  {
    var tx := c.workers[w].tx;
    OneRowSame(c.rows, tx, c.rows[tx].(status := Processing, reference := Some(c.nextRef)));
  }

  lemma SaveLineage(c: State, w: nat)
    requires w in c.workers && WorkerOk(c.rows, c.workers[w]) && c.workers[w].phase.Accepted?
    ensures SameLineage(c, DoSaveResult(c, w))
  {
    OneRowSame(c.rows, c.workers[w].tx, ResultRow(c.workers[w].snap, c.workers[w].phase.later));
  }

  lemma CatchLineage(env: Env, c: State, w: nat, now: int)
    requires w in c.workers && WorkerOk(c.rows, c.workers[w]) && c.workers[w].phase.Threw?
    ensures SameLineage(c, DoCatch(env, c, w, now))
  {
    OneRowSame(c.rows, c.workers[w].tx, CaughtRow(env, c.rows[c.workers[w].tx], c.workers[w], now));
  }

  lemma RetrierLineage(c: State, r: nat)
    requires r in c.retriers && c.retriers[r].tx in c.rows
    ensures SameLineage(c, DoReset(c, r)) && SameLineage(c, DoRequeue(c, r)) && SameLineage(c, DoRecheck(c, r)) &&
            SameLineage(c, DoEnqueue(c, r))
  {
    var tx := c.retriers[r].tx;
    OneRowSame(c.rows, tx, RequeuedRow(c.rows[tx]));
    OneRowSame(c.rows, tx, c.rows[tx].(retryCount := 0));
  }

  lemma RowsAlone(c: State, c': State)
    requires c'.rows == c.rows && c'.processed == c.processed
    ensures SameLineage(c, c')
  {
  }

  lemma StartLineage(c: State, w: nat, j: nat)
    requires j in c.jobs
    ensures SameLineage(c, DoStartJob(c, w, j))
  {
  }

  lemma StepLineage(env: Env, c: State, step: Step)
    requires Synchronous(env) && CashbackSafety.Inv(c) && !IsCommitOrRollback(step) && Enabled(env, c, step)
    ensures SameLineage(c, Apply(env, c, step))
  {
    match step
    case StartJob(w, j) => StartLineage(c, w, j);
    case Claim(w) => ClaimLineage(c, w);
    case SaveResult(w) => SaveLineage(c, w);
    case Catch(w, now) => CatchLineage(env, c, w, now);
    case ProviderAccepts(w, later) => RowsAlone(c, DoAccept(c, w, later));
    case ProviderThrows(w, cause) => RowsAlone(c, DoThrow(c, w, Failures.Caught(env.patterns, cause)));
    case FaultAfterTransfer(w, f) =>
    case FinishJob(w) => RowsAlone(c, DoFinishJob(c, w));
    case Crash(w) => RowsAlone(c, DoCrash(c, w));
    case ResetRetryCount(r) => RetrierLineage(c, r);
    case Recheck(r) => RetrierLineage(c, r);
    case Requeue(r) => RetrierLineage(c, r);
    case Enqueue(r) => RetrierLineage(c, r);
    case SelectFailed(r, tx, manual, now) => RowsAlone(c, DoSelect(c, r, tx, manual));
    case ReceiveHook(h, tx, success, f) =>
    case SaveHook(h) =>
  }

  lemma CashbackStepped(env: Env, outbox: seq<Announcement>, c: State, step: Step)
    requires Synchronous(env) && CashbackInv(outbox, c) && !IsCommitOrRollback(step) && Enabled(env, c, step)
    ensures CashbackInv(outbox, Apply(env, c, step))
  {
    CashbackSafety.StepPreservesInv(env, c, step);
    StepLineage(env, c, step);
    RowsFromSame(c.rows, Apply(env, c, step).rows, c.processed);
  }
}

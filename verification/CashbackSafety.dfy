/** At most one payment per user and badge: for every interleaving, exactly when the provider is synchronous. */
module CashbackSafety {
  import opened Json
  import opened Failures
  import opened Collections
  import opened Cashback

  /** The worker holds the claim: it won the compare-and-set and has not written the row back. */
  predicate Owns(wk: Worker) {
    wk.phase.Claimed? || wk.phase.Accepted? || wk.phase.Threw?
  }

  /** The transfer went out: the row says so, or its owner has yet to save that (or died first). */
  ghost predicate Paid(rows: map<nat, Tx>, workers: map<nat, Worker>, tx: nat)
    requires tx in rows
  {
    rows[tx].status == Successful || exists w :: w in workers && workers[w].tx == tx && workers[w].phase.Accepted?
  }

  predicate Billed(ledger: seq<Payment>, tx: nat) {
    exists i :: 0 <= i < |ledger| && ledger[i].tx == tx
  }

  predicate SameIdentity(a: Tx, b: Tx) {
    a.user == b.user && a.badge == b.badge && a.amount == b.amount
  }

  predicate WorkerOk(rows: map<nat, Tx>, wk: Worker) {
    && wk.tx in rows
    && SameIdentity(wk.snap, rows[wk.tx]) && wk.payee == rows[wk.tx].user
    && (Owns(wk) ==> rows[wk.tx].status == Processing)
    && (wk.phase.Accepted? ==> !wk.phase.later)
  }

  predicate WorkersOk(rows: map<nat, Tx>, workers: map<nat, Worker>) {
    forall w | w in workers :: WorkerOk(rows, workers[w])
  }

  predicate OneOwner(workers: map<nat, Worker>) {
    forall v, w | v in workers && w in workers && Owns(workers[v]) && Owns(workers[w]) &&
      workers[v].tx == workers[w].tx :: v == w
  }

  ghost predicate ProcessingHasOwner(rows: map<nat, Tx>, workers: map<nat, Worker>) {
    forall tx | tx in rows && rows[tx].status == Processing :: exists w ::
          w in workers && workers[w].tx == tx && Owns(workers[w])
  }

  predicate PaymentOk(rows: map<nat, Tx>, p: Payment) {
    p.tx in rows && p.payee == rows[p.tx].user && p.badge == rows[p.tx].badge && p.amount == rows[p.tx].amount
  }

  ghost predicate LedgerOk(rows: map<nat, Tx>, workers: map<nat, Worker>, ledger: seq<Payment>) {
    && (forall i | 0 <= i < |ledger| :: PaymentOk(rows, ledger[i]))
    && (forall i, j | 0 <= i < j < |ledger| :: ledger[i].tx != ledger[j].tx)
    && (forall tx | tx in rows :: Billed(ledger, tx) <==> Paid(rows, workers, tx))
  }

  /** Rows, workers and ledger: the part in which money moves. */
  ghost predicate CoreInv(rows: map<nat, Tx>, workers: map<nat, Worker>, ledger: seq<Payment>) {
    && WorkersOk(rows, workers)
    && OneOwner(workers)
    && ProcessingHasOwner(rows, workers)
    && LedgerOk(rows, workers, ledger)
  }

  predicate RowsOk(rows: map<nat, Tx>, nextTx: nat) {
    && (forall tx | tx in rows :: tx < nextTx)
    && (forall a, b | a in rows && b in rows && rows[a].user == rows[b].user && rows[a].badge == rows[b].badge ::
       a == b)
  }

  predicate JobsOk(jobs: map<nat, Job>, rows: map<nat, Tx>, nextTx: nat) {
    forall j | j in jobs :: jobs[j].tx < nextTx && (jobs[j].tx in rows ==> jobs[j].payee == rows[jobs[j].tx].user)
  }

  predicate RetriersOk(retriers: map<nat, Retrier>, rows: map<nat, Tx>) {
    forall r | r in retriers :: retriers[r].tx in rows && retriers[r].payee == rows[retriers[r].tx].user
  }

  /** Queue, retries and identities. */
  predicate SideInv(s: State) {
    RowsOk(s.rows, s.nextTx) && JobsOk(s.jobs, s.rows, s.nextTx) && RetriersOk(s.retriers, s.rows) && s.hooks == map[]
  }

  /** Updating a row without changing whose it is leaves the side conditions alone. */
  lemma {:induction false} SideKept(s: State, rows': map<nat, Tx>)
    requires SideInv(s) && rows'.Keys == s.rows.Keys && forall tx | tx in s.rows :: SameIdentity(s.rows[tx], rows'[tx])
    ensures RowsOk(rows', s.nextTx) && JobsOk(s.jobs, rows', s.nextTx) && RetriersOk(s.retriers, rows')
  {
  }

  lemma {:induction false} QueueKept(s: State, tx: nat, payee: string)
    requires SideInv(s) && tx < s.nextTx && (tx in s.rows ==> payee == s.rows[tx].user)
    ensures SideInv(QueueJob(s, tx, payee))
  {
  }

  ghost predicate Inv(s: State) {
    CoreInv(s.rows, s.workers, s.ledger) && SideInv(s)
  }

  predicate Synchronous(env: Env) {
    !env.async && !env.faults && !env.webhooks
  }

  // ---------------------------------------------------------------- local changes to the core

  predicate NoOtherOwner(workers: map<nat, Worker>, w: nat, tx: nat) {
    forall v | v in workers && v != w && workers[v].tx == tx :: !Owns(workers[v])
  }

  ghost predicate OnlyWorker(workers: map<nat, Worker>, workers': map<nat, Worker>, w: nat) {
    forall v | v != w :: (v in workers <==> v in workers') && (v in workers ==> workers[v] == workers'[v])
  }

  /** Same money-relevant view of one worker before and after. */
  predicate SameRole(workers: map<nat, Worker>, workers': map<nat, Worker>, w: nat) {
    if w in workers && Owns(workers[w])
    then w in workers' && workers'[w].tx == workers[w].tx && workers'[w].phase == workers[w].phase
    else w in workers' ==> !Owns(workers'[w])
  }

  lemma {:induction false} TouchKeepsRoles(rows: map<nat, Tx>, workers: map<nat, Worker>, workers': map<nat, Worker>,
      w: nat)
    requires WorkersOk(rows, workers) && OneOwner(workers) && ProcessingHasOwner(rows, workers)
    requires OnlyWorker(workers, workers', w) && SameRole(workers, workers', w)
    requires w in workers' ==> WorkerOk(rows, workers'[w])
    ensures WorkersOk(rows, workers') && OneOwner(workers') && ProcessingHasOwner(rows, workers')
  {
    forall v | v in workers' ensures WorkerOk(rows, workers'[v]) {
      if v != w { assert v in workers; }
    }
    forall tx | tx in rows && rows[tx].status == Processing
      ensures exists v :: v in workers' && workers'[v].tx == tx && Owns(workers'[v])
    {
      var v :| v in workers && workers[v].tx == tx && Owns(workers[v]);
      assert v in workers' && workers'[v].tx == tx && Owns(workers'[v]);
    }
  }

  lemma {:induction false} TouchKeepsPaid(rows: map<nat, Tx>, workers: map<nat, Worker>, workers': map<nat, Worker>,
      w: nat, tx: nat)
    requires OnlyWorker(workers, workers', w) && SameRole(workers, workers', w) && tx in rows
    ensures Paid(rows, workers, tx) <==> Paid(rows, workers', tx)
  {
    if v :| v in workers && workers[v].tx == tx && workers[v].phase.Accepted? {
      assert v in workers' && workers'[v].tx == tx && workers'[v].phase.Accepted?;
    }
    if v :| v in workers' && workers'[v].tx == tx && workers'[v].phase.Accepted? {
      assert v in workers && workers[v].tx == tx && workers[v].phase.Accepted?;
    }
  }

  /** A worker that starts, gives up, dies or finishes without touching the row. */
  lemma {:induction false} WorkerTouch(rows: map<nat, Tx>, workers: map<nat, Worker>, workers': map<nat, Worker>,
      ledger: seq<Payment>, w: nat)
    requires CoreInv(rows, workers, ledger)
    requires OnlyWorker(workers, workers', w) && SameRole(workers, workers', w)
    requires w in workers' ==> WorkerOk(rows, workers'[w])
    ensures CoreInv(rows, workers', ledger)
  {
    TouchKeepsRoles(rows, workers, workers', w);
    forall tx | tx in rows ensures Paid(rows, workers, tx) <==> Paid(rows, workers', tx) {
      TouchKeepsPaid(rows, workers, workers', w, tx);
    }
  }

  /** A row changes while nobody owns it, before or after, and its paid state is unaffected. */
  lemma {:induction false} RowTouch(rows: map<nat, Tx>, workers: map<nat, Worker>, ledger: seq<Payment>, tx: nat,
      row: Tx)
    requires CoreInv(rows, workers, ledger) && tx in rows && SameIdentity(rows[tx], row)
    requires row.status == rows[tx].status || (rows[tx].status == Failed && row.status == Pending)
    ensures CoreInv(rows[tx := row], workers, ledger)
  {
    var rows' := rows[tx := row];
    forall w | w in workers ensures WorkerOk(rows', workers[w]) {
      assert WorkerOk(rows, workers[w]);
    }
    forall k | k in rows' && rows'[k].status == Processing
      ensures exists v :: v in workers && workers[v].tx == k && Owns(workers[v])
    {
      assert rows[k].status == Processing;
    }
    forall k | k in rows' ensures Paid(rows', workers, k) <==> Paid(rows, workers, k) {
    }
  }

  lemma {:induction false} NewRow(rows: map<nat, Tx>, workers: map<nat, Worker>, ledger: seq<Payment>, tx: nat, row: Tx)
    requires CoreInv(rows, workers, ledger) && tx !in rows && row.status == Pending
    ensures CoreInv(rows[tx := row], workers, ledger)
  {
    var rows' := rows[tx := row];
    assert forall w | w in workers :: WorkerOk(rows, workers[w]);
    forall k | k in rows' ensures Billed(ledger, k) <==> Paid(rows', workers, k) {
      if k == tx {
        assert forall i | 0 <= i < |ledger| :: PaymentOk(rows, ledger[i]);
      } else {
        assert Paid(rows', workers, k) <==> Paid(rows, workers, k);
      }
    }
    forall k | k in rows' && rows'[k].status == Processing
      ensures exists v :: v in workers && workers[v].tx == k && Owns(workers[v])
    {
      assert rows[k].status == Processing;
    }
  }

  /** The owner of a row, or the worker about to own it, moves: row, role and ledger change together. */
  lemma {:induction false} OwnerMove(rows: map<nat, Tx>, workers: map<nat, Worker>, ledger: seq<Payment>,
                  w: nat, row: Tx, wk: Worker, ledger': seq<Payment>)
    requires CoreInv(rows, workers, ledger)
    requires w in workers && wk.tx == workers[w].tx && NoOtherOwner(workers, w, wk.tx)
    requires SameIdentity(rows[wk.tx], row) && WorkerOk(rows[wk.tx := row], wk)
    requires row.status == Processing <==> Owns(wk)
    requires ledger' == ledger || (ledger' == ledger +
             [Payment(wk.tx, rows[wk.tx].user, rows[wk.tx].badge, rows[wk.tx].amount)] && !Billed(ledger, wk.tx))
    requires Billed(ledger', wk.tx) <==> (row.status == Successful || wk.phase.Accepted?)
    ensures CoreInv(rows[wk.tx := row], workers[w := wk], ledger')
  {
    OwnerMoveWorkers(rows, workers, ledger, w, row, wk);
    OwnerMoveLedger(rows, workers, ledger, w, row, wk, ledger');
  }

  lemma {:induction false} OwnerMoveWorkers(rows: map<nat, Tx>, workers: map<nat, Worker>, ledger: seq<Payment>,
      w: nat, row: Tx, wk: Worker)
    requires CoreInv(rows, workers, ledger)
    requires w in workers && wk.tx == workers[w].tx && NoOtherOwner(workers, w, wk.tx)
    requires SameIdentity(rows[wk.tx], row) && WorkerOk(rows[wk.tx := row], wk)
    requires row.status == Processing <==> Owns(wk)
    ensures WorkersOk(rows[wk.tx := row], workers[w := wk])
    ensures OneOwner(workers[w := wk])
    ensures ProcessingHasOwner(rows[wk.tx := row], workers[w := wk])
  {
    var rows', workers' := rows[wk.tx := row], workers[w := wk];
    forall v | v in workers' ensures WorkerOk(rows', workers'[v]) {
      assert v != w ==> WorkerOk(rows, workers[v]);
    }
    forall k | k in rows' && rows'[k].status == Processing
      ensures exists v :: v in workers' && workers'[v].tx == k && Owns(workers'[v])
    {
      if k == wk.tx {
        assert w in workers' && workers'[w].tx == k && Owns(workers'[w]);
      } else {
        var v :| v in workers && workers[v].tx == k && Owns(workers[v]);
        assert v in workers' && workers'[v].tx == k && Owns(workers'[v]);
      }
    }
  }

  lemma {:induction false} OwnerMoveLedger(rows: map<nat, Tx>, workers: map<nat, Worker>, ledger: seq<Payment>,
                        w: nat, row: Tx, wk: Worker, ledger': seq<Payment>)
    requires CoreInv(rows, workers, ledger)
    requires w in workers && wk.tx == workers[w].tx && wk.tx in rows && NoOtherOwner(workers, w, wk.tx)
    requires SameIdentity(rows[wk.tx], row)
    requires ledger' == ledger || (ledger' == ledger +
             [Payment(wk.tx, rows[wk.tx].user, rows[wk.tx].badge, rows[wk.tx].amount)] && !Billed(ledger, wk.tx))
    requires Billed(ledger', wk.tx) <==> (row.status == Successful || wk.phase.Accepted?)
    ensures LedgerOk(rows[wk.tx := row], workers[w := wk], ledger')
  {
    var rows', workers' := rows[wk.tx := row], workers[w := wk];
    forall i | 0 <= i < |ledger'| ensures PaymentOk(rows', ledger'[i]) {
      assert i < |ledger| ==> PaymentOk(rows, ledger[i]);
    }
    forall k | k in rows' ensures Billed(ledger', k) <==> Paid(rows', workers', k) {
      if k == wk.tx {
        if row.status != Successful {
          if wk.phase.Accepted? {
            assert w in workers' && workers'[w].tx == k && workers'[w].phase.Accepted?;
          } else {
            assert forall v | v in workers' && workers'[v].tx == k :: !workers'[v].phase.Accepted?;
          }
        }
      } else {
        BilledElsewhere(ledger, ledger', k);
        PaidElsewhere(rows, workers, w, row, wk, k);
      }
    }
  }

  lemma {:induction false} BilledElsewhere(ledger: seq<Payment>, ledger': seq<Payment>, k: nat)
    requires ledger <= ledger' && forall i | |ledger| <= i < |ledger'| :: ledger'[i].tx != k
    ensures Billed(ledger, k) <==> Billed(ledger', k)
  {
    if Billed(ledger, k) {
      var i :| 0 <= i < |ledger| && ledger[i].tx == k;
      assert ledger'[i].tx == k;
    }
    if Billed(ledger', k) {
      var i :| 0 <= i < |ledger'| && ledger'[i].tx == k;
      assert ledger[i].tx == k;
    }
  }

  lemma {:induction false} PaidElsewhere(rows: map<nat, Tx>, workers: map<nat, Worker>, w: nat, row: Tx, wk: Worker,
      k: nat)
    requires w in workers && wk.tx == workers[w].tx && k in rows && k != wk.tx
    ensures Paid(rows, workers, k) <==> Paid(rows[wk.tx := row], workers[w := wk], k)
  {
    var workers' := workers[w := wk];
    if v :| v in workers && workers[v].tx == k && workers[v].phase.Accepted? {
      assert v in workers' && workers'[v].tx == k && workers'[v].phase.Accepted?;
    }
    if v :| v in workers' && workers'[v].tx == k && workers'[v].phase.Accepted? {
      assert v in workers && workers[v].tx == k && workers[v].phase.Accepted?;
    }
  }

  lemma {:induction false} OwnerIsAlone(rows: map<nat, Tx>, workers: map<nat, Worker>, ledger: seq<Payment>, w: nat)
    requires CoreInv(rows, workers, ledger) && w in workers && Owns(workers[w])
    ensures NoOtherOwner(workers, w, workers[w].tx)
    ensures Billed(ledger, workers[w].tx) <==> workers[w].phase.Accepted?
  {
    var tx := workers[w].tx;
    assert WorkerOk(rows, workers[w]);
    assert Billed(ledger, tx) <==> Paid(rows, workers, tx);
  }

  // ---------------------------------------------------------------- every step

  lemma {:induction false} HandleBadgePreserves(env: Env, s: State, e: BadgeEvent)
    requires Inv(s)
    ensures Inv(DoHandleBadge(env, s, e))
  {
    if e.id !in s.processed {
      if HasRow(s.rows, e.user, e.badge) {
        QueueKept(s.(processed := s.processed[e.id := e]), RowFor(s.rows, e.user, e.badge), e.user);
      } else {
        NewRow(s.rows, s.workers, s.ledger, s.nextTx, NewTx(e, env));
        NewRowSide(env, s, e);
      }
    }
  }

  lemma {:induction false} NewRowSide(env: Env, s: State, e: BadgeEvent)
    requires SideInv(s) && !HasRow(s.rows, e.user, e.badge) && e.id !in s.processed
    ensures SideInv(DoHandleBadge(env, s, e))
  {
    var mid := s.(processed := s.processed[e.id := e], rows := s.rows[s.nextTx := NewTx(e, env)],
      nextTx := s.nextTx + 1);
    assert RowsOk(mid.rows, mid.nextTx);
    assert JobsOk(mid.jobs, mid.rows, mid.nextTx);
    assert RetriersOk(mid.retriers, mid.rows);
    QueueKept(mid, s.nextTx, e.user);
  }

  lemma {:induction false} RollbackPreserves(s: State, e: BadgeEvent)
    requires Inv(s)
    ensures Inv(DoRollback(s, e))
  {
    if HasRow(s.rows, e.user, e.badge) {
      QueueKept(s, RowFor(s.rows, e.user, e.badge), e.user);
    } else {
      QueueKept(s.(nextTx := s.nextTx + 1), s.nextTx, e.user);
    }
  }

  lemma {:induction false} StartWorker(rows: map<nat, Tx>, workers: map<nat, Worker>, ledger: seq<Payment>, w: nat,
      wk: Worker)
    requires CoreInv(rows, workers, ledger) && w !in workers && WorkerOk(rows, wk) && !Owns(wk)
    ensures CoreInv(rows, workers[w := wk], ledger)
  {
    WorkerTouch(rows, workers, workers[w := wk], ledger, w);
  }

  lemma {:induction false} StartJobPreserves(s: State, w: nat, j: nat)
    requires Inv(s) && w !in s.workers && j in s.jobs
    ensures Inv(DoStartJob(s, w, j))
  {
    var job := s.jobs[j];
    if job.tx !in s.rows {
      assert JobsOk(JobAttemptFailed(s.jobs, j), s.rows, s.nextTx);
    } else if s.rows[job.tx].status != Pending {
      assert JobsOk(s.jobs - {j}, s.rows, s.nextTx);
    } else {
      StartWorker(s.rows, s.workers, s.ledger, w,
                  Worker(j, job.tx, job.made + 1 >= ATTEMPTS, job.payee, s.rows[job.tx], Loaded, true));
    }
  }

  lemma {:induction false} ClaimWinPreserves(s: State, w: nat)
    requires CoreInv(s.rows, s.workers, s.ledger) && w in s.workers && s.workers[w].phase.Loaded?
    requires s.workers[w].tx in s.rows && s.rows[s.workers[w].tx].status == Pending
    ensures CoreInv(DoClaim(s, w).rows, DoClaim(s, w).workers, s.ledger)
  {
    var wk := s.workers[w];
    var s' := DoClaim(s, w);
    assert WorkerOk(s.rows, wk);
    assert NoOtherOwner(s.workers, w, wk.tx) by {
      assert forall v | v in s.workers :: WorkerOk(s.rows, s.workers[v]);
    }
    assert !Billed(s.ledger, wk.tx) by {
      assert forall v | v in s.workers :: WorkerOk(s.rows, s.workers[v]);
      assert !Paid(s.rows, s.workers, wk.tx);
    }
    OwnerMove(s.rows, s.workers, s.ledger, w, s'.rows[wk.tx], s'.workers[w], s.ledger);
  }

  lemma {:induction false} ClaimLossPreserves(s: State, w: nat)
    requires Inv(s) && w in s.workers && s.workers[w].phase.Loaded?
    ensures CoreInv(s.rows, s.workers - {w}, s.ledger)
    ensures JobsOk(s.jobs - {s.workers[w].job}, s.rows, s.nextTx)
  {
    WorkerTouch(s.rows, s.workers, s.workers - {w}, s.ledger, w);
  }

  lemma {:induction false} ClaimWins(s: State, w: nat)
    requires Inv(s) && w in s.workers && s.workers[w].phase.Loaded?
    requires s.workers[w].tx in s.rows && s.rows[s.workers[w].tx].status == Pending
    ensures Inv(DoClaim(s, w))
  {
    SideKept(s, DoClaim(s, w).rows);
    ClaimWinPreserves(s, w);
  }

  lemma {:induction false} ClaimPreserves(s: State, w: nat)
    requires Inv(s) && w in s.workers && s.workers[w].phase.Loaded? && s.workers[w].tx in s.rows
    ensures Inv(DoClaim(s, w))
  {
    if s.rows[s.workers[w].tx].status == Pending {
      ClaimWins(s, w);
    } else {
      ClaimLossPreserves(s, w);
    }
  }

  lemma {:induction false} AcceptPreserves(s: State, w: nat)
    requires Inv(s) && w in s.workers && s.workers[w].phase.Claimed?
    ensures Inv(DoAccept(s, w, false))
  {
    var wk := s.workers[w];
    var s' := DoAccept(s, w, false);
    assert WorkerOk(s.rows, wk);
    OwnerIsAlone(s.rows, s.workers, s.ledger, w);
    assert s'.ledger[|s.ledger|].tx == wk.tx;
    OwnerMove(s.rows, s.workers, s.ledger, w, s.rows[wk.tx], s'.workers[w], s'.ledger);
    assert s.rows[wk.tx := s.rows[wk.tx]] == s.rows;
  }

  lemma {:induction false} ThrowPreserves(s: State, w: nat, f: Failure)
    requires Inv(s) && w in s.workers && s.workers[w].phase.Claimed?
    ensures Inv(DoThrow(s, w, f))
  {
    var wk := s.workers[w];
    assert WorkerOk(s.rows, wk);
    OwnerIsAlone(s.rows, s.workers, s.ledger, w);
    OwnerMove(s.rows, s.workers, s.ledger, w, s.rows[wk.tx], wk.(phase := Threw(f)), s.ledger);
    assert s.rows[wk.tx := s.rows[wk.tx]] == s.rows;
  }

  lemma {:induction false} SaveResultPreserves(s: State, w: nat)
    requires Inv(s) && w in s.workers && s.workers[w].phase.Accepted?
    ensures Inv(DoSaveResult(s, w))
  {
    var wk := s.workers[w];
    var s' := DoSaveResult(s, w);
    assert WorkerOk(s.rows, wk);
    SideKept(s, s'.rows);
    OwnerIsAlone(s.rows, s.workers, s.ledger, w);
    OwnerMove(s.rows, s.workers, s.ledger, w, s'.rows[wk.tx], s'.workers[w], s.ledger);
  }

  lemma {:induction false} CatchPreserves(env: Env, s: State, w: nat, now: int)
    requires Inv(s) && w in s.workers && s.workers[w].phase.Threw?
    ensures Inv(DoCatch(env, s, w, now))
  {
    var wk := s.workers[w];
    assert WorkerOk(s.rows, wk);
    var s' := DoCatch(env, s, w, now);
    SideKept(s, s'.rows);
    OwnerIsAlone(s.rows, s.workers, s.ledger, w);
    OwnerMove(s.rows, s.workers, s.ledger, w, s'.rows[wk.tx], s'.workers[w], s.ledger);
  }

  lemma {:induction false} FinishPreserves(s: State, w: nat)
    requires Inv(s) && w in s.workers && !Owns(s.workers[w])
    ensures Inv(DoFinishJob(s, w))
  {
    WorkerTouch(s.rows, s.workers, s.workers - {w}, s.ledger, w);
    assert JobsOk(DoFinishJob(s, w).jobs, s.rows, s.nextTx);
  }

  lemma {:induction false} CrashPreserves(s: State, w: nat)
    requires Inv(s) && w in s.workers
    ensures Inv(DoCrash(s, w))
  {
    assert WorkerOk(s.rows, s.workers[w]);
    WorkerTouch(s.rows, s.workers, DoCrash(s, w).workers, s.ledger, w);
  }

  lemma {:induction false} ResetPreserves(s: State, r: nat)
    requires Inv(s) && r in s.retriers
    ensures Inv(DoReset(s, r))
  {
    var tx := s.retriers[r].tx;
    SideKept(s, DoReset(s, r).rows);
    RowTouch(s.rows, s.workers, s.ledger, tx, s.rows[tx].(retryCount := 0));
  }

  lemma {:induction false} RequeuePreserves(s: State, r: nat)
    requires Inv(s) && r in s.retriers
    ensures Inv(DoRequeue(s, r))
  {
    var tx := s.retriers[r].tx;
    SideKept(s, DoRequeue(s, r).rows);
    RowTouch(s.rows, s.workers, s.ledger, tx, RequeuedRow(s.rows[tx]));
  }

  lemma {:induction false} EnqueuePreserves(s: State, r: nat)
    requires Inv(s) && r in s.retriers
    ensures Inv(DoEnqueue(s, r))
  {
    var mid := s.(retriers := s.retriers - {r});
    assert RetriersOk(mid.retriers, mid.rows);
    QueueKept(mid, s.retriers[r].tx, s.retriers[r].payee);
  }

  lemma {:induction false} SelectPreserves(s: State, r: nat, tx: nat, manual: bool)
    requires Inv(s) && tx in s.rows
    ensures Inv(DoSelect(s, r, tx, manual))
  {
    assert RetriersOk(DoSelect(s, r, tx, manual).retriers, s.rows);
  }

  lemma {:induction false} RecheckPreserves(s: State, r: nat)
    requires Inv(s) && r in s.retriers
    ensures Inv(DoRecheck(s, r))
  {
    RecheckSide(s.rows, s.retriers, r);
  }

  lemma {:induction false} RecheckSide(rows: map<nat, Tx>, retriers: map<nat, Retrier>, r: nat)
    requires RetriersOk(retriers, rows) && r in retriers
    ensures RetriersOk(retriers[r := Rechecked(retriers[r].tx, retriers[r].payee)], rows)
    ensures RetriersOk(retriers - {r}, rows)
  {
  }

  predicate ByWorker(step: Step) {
    step.Claim? || step.ProviderAccepts? || step.ProviderThrows? || step.SaveResult? || step.Catch? ||
      step.FinishJob? || step.Crash?
  }

  lemma {:induction false} WorkerStepPreserves(env: Env, s: State, step: Step)
    requires Synchronous(env) && Inv(s) && Enabled(env, s, step) && ByWorker(step)
    ensures Inv(Apply(env, s, step))
  {
    match step {
      case Claim(w) => ClaimPreserves(s, w);
      case ProviderAccepts(w, later) => AcceptPreserves(s, w);
      case ProviderThrows(w, cause) => ThrowPreserves(s, w, Caught(env.patterns, cause));
      case SaveResult(w) => SaveResultPreserves(s, w);
      case Catch(w, now) => CatchPreserves(env, s, w, now);
      case FinishJob(w) => FinishPreserves(s, w);
      case Crash(w) => CrashPreserves(s, w);
    }
  }

  lemma {:induction false} StepPreservesInv(env: Env, s: State, step: Step)
    requires Synchronous(env) && Inv(s) && Enabled(env, s, step)
    ensures Inv(Apply(env, s, step))
  {
    match step {
      case HandleBadge(e) => HandleBadgePreserves(env, s, e);
      case HandleBadgeRollsBack(e) => RollbackPreserves(s, e);
      case StartJob(w, j) => StartJobPreserves(s, w, j);
      case SelectFailed(r, tx, manual, now) => SelectPreserves(s, r, tx, manual);
      case ResetRetryCount(r) => ResetPreserves(s, r);
      case Recheck(r) => RecheckPreserves(s, r);
      case Requeue(r) => RequeuePreserves(s, r);
      case Enqueue(r) => EnqueuePreserves(s, r);
      case FaultAfterTransfer(w, f) =>
      case ReceiveHook(h, tx, success, f) =>
      case SaveHook(h) =>
      case _ => WorkerStepPreserves(env, s, step);
    }
  }

  lemma {:induction false} RunPreservesInv(env: Env, s: State, steps: seq<Step>, s': State)
    requires Synchronous(env) && Inv(s) && IsRun(env, s, steps, s')
    ensures Inv(s')
    decreases steps
  {
    if steps != [] {
      StepPreservesInv(env, s, steps[0]);
      RunPreservesInv(env, Apply(env, s, steps[0]), steps[1..], s');
    }
  }

  // ---------------------------------------------------------------- main results

  lemma {:induction false} InitInv()
    ensures Inv(Init)
  {
  }

  /** No user is paid twice for one badge. */
  predicate AtMostOnce(ledger: seq<Payment>) {
    forall i, j | 0 <= i < j < |ledger| :: !(ledger[i].payee == ledger[j].payee && ledger[i].badge == ledger[j].badge)
  }

  lemma {:induction false} InvAtMostOnce(s: State)
    requires Inv(s)
    ensures AtMostOnce(s.ledger)
  {
    forall i, j | 0 <= i < j < |s.ledger|
      ensures !(s.ledger[i].payee == s.ledger[j].payee && s.ledger[i].badge == s.ledger[j].badge)
    {
      assert PaymentOk(s.rows, s.ledger[i]) && PaymentOk(s.rows, s.ledger[j]);
      assert s.ledger[i].tx != s.ledger[j].tx;
    }
  }

  ghost function LedgerTotal(ledger: seq<Payment>): (t: int) {
    if ledger == [] then 0 else LedgerTotal(ledger[..|ledger| - 1]) + ledger[|ledger| - 1].amount
  }

  function BilledTxs(ledger: seq<Payment>): (r: set<nat>) {
    set p | p in ledger :: p.tx
  }

  ghost function AmountsOf(rows: map<nat, Tx>, txs: set<nat>): (m: map<nat, int>)
    requires txs <= rows.Keys
  {
    map tx | tx in txs :: rows[tx].amount as int
  }

  lemma {:induction false} AmountsAdd(rows: map<nat, Tx>, txs: set<nat>, tx: nat)
    requires txs <= rows.Keys && tx in rows && tx !in txs
    ensures Total(AmountsOf(rows, txs + {tx})) == Total(AmountsOf(rows, txs)) + rows[tx].amount
  {
    var m, v := AmountsOf(rows, txs), rows[tx].amount as int;
    assert AmountsOf(rows, txs + {tx}) == m[tx := v];
    TotalUpdate<nat>(m, tx, v);
  }

  lemma {:induction false} LastTx(ledger: seq<Payment>)
    requires ledger != []
    requires forall i, j | 0 <= i < j < |ledger| :: ledger[i].tx != ledger[j].tx
    ensures ledger[|ledger| - 1].tx !in BilledTxs(ledger[..|ledger| - 1])
    ensures BilledTxs(ledger) == BilledTxs(ledger[..|ledger| - 1]) + {ledger[|ledger| - 1].tx}
  {
    assert ledger == ledger[..|ledger| - 1] + [ledger[|ledger| - 1]];
  }

  lemma {:induction false} LedgerTotalIsRowTotal(rows: map<nat, Tx>, ledger: seq<Payment>)
    requires forall i | 0 <= i < |ledger| :: PaymentOk(rows, ledger[i])
    requires forall i, j | 0 <= i < j < |ledger| :: ledger[i].tx != ledger[j].tx
    ensures BilledTxs(ledger) <= rows.Keys
    ensures LedgerTotal(ledger) == Total(AmountsOf(rows, BilledTxs(ledger)))
  {
    if ledger == [] {
      assert AmountsOf(rows, BilledTxs(ledger)) == map[];
    } else {
      var init, last := ledger[..|ledger| - 1], ledger[|ledger| - 1];
      LedgerTotalIsRowTotal(rows, init);
      assert PaymentOk(rows, ledger[|ledger| - 1]);
      LastTx(ledger);
      AmountsAdd(rows, BilledTxs(init), last.tx);
    }
  }

  ghost function PaidTxs(s: State): (r: set<nat>) {
    set tx | tx in s.rows && Paid(s.rows, s.workers, tx)
  }

  /** Money sent is the sum of the amounts of the rows paid, each counted once. */
  lemma {:induction false} MoneyConserved(s: State)
    requires Inv(s)
    ensures LedgerTotal(s.ledger) == Total(AmountsOf(s.rows, PaidTxs(s)))
  {
    LedgerTotalIsRowTotal(s.rows, s.ledger);
    assert PaidTxs(s) == BilledTxs(s.ledger) by {
      forall tx | tx in PaidTxs(s) ensures tx in BilledTxs(s.ledger) {
        assert Billed(s.ledger, tx);
        var i :| 0 <= i < |s.ledger| && s.ledger[i].tx == tx;
        assert s.ledger[i] in s.ledger;
      }
      forall tx | tx in BilledTxs(s.ledger) ensures tx in PaidTxs(s) {
        var i :| 0 <= i < |s.ledger| && s.ledger[i].tx == tx;
        assert Billed(s.ledger, tx);
      }
    }
  }

  /**
   * With a synchronous provider, over every interleaving of workers, job re-attempts, repeated and rolled
   * back badge events, crashes, manual retries and scans: no double payment, a PROCESSING row has exactly
   * one owner, and money out equals the amounts of the paid rows.
   */
  lemma {:induction false} PaymentSafety(env: Env, steps: seq<Step>, s: State)
    requires Synchronous(env) && IsRun(env, Init, steps, s)
    ensures AtMostOnce(s.ledger)
    ensures OneOwner(s.workers) && ProcessingHasOwner(s.rows, s.workers)
    ensures forall w | w in s.workers && Owns(s.workers[w]) ::
              s.workers[w].tx in s.rows && s.rows[s.workers[w].tx].status == Processing
    ensures LedgerTotal(s.ledger) == Total(AmountsOf(s.rows, PaidTxs(s)))
  {
    InitInv();
    RunPreservesInv(env, Init, steps, s);
    InvAtMostOnce(s);
    MoneyConserved(s);
    assert forall w | w in s.workers :: WorkerOk(s.rows, s.workers[w]);
  }

  lemma {:induction false} WorkerStepKeepsSuccess(env: Env, s: State, step: Step, tx: nat)
    requires Synchronous(env) && WorkersOk(s.rows, s.workers) && Enabled(env, s, step) && ByWorker(step)
    requires tx in s.rows && s.rows[tx].status == Successful
    ensures tx in Apply(env, s, step).rows && Apply(env, s, step).rows[tx] == s.rows[tx]
  {
    assert WorkerOk(s.rows, s.workers[step.w]);
  }

  lemma {:induction false} RetryStepKeepsSuccess(env: Env, s: State, step: Step, tx: nat)
    requires Enabled(env, s, step)
    requires step.SelectFailed? || step.ResetRetryCount? || step.Recheck? || step.Requeue? || step.Enqueue?
    requires tx in s.rows && s.rows[tx].status == Successful
    ensures tx in Apply(env, s, step).rows && Apply(env, s, step).rows[tx].status == Successful
  {
  }

  lemma {:induction false} BadgeKeepsRow(env: Env, s: State, e: BadgeEvent, tx: nat)
    requires tx in s.rows && tx < s.nextTx
    ensures tx in DoHandleBadge(env, s, e).rows && DoHandleBadge(env, s, e).rows[tx] == s.rows[tx]
  {
  }

  lemma {:induction false} RollbackKeepsRow(s: State, e: BadgeEvent, tx: nat)
    requires tx in s.rows
    ensures tx in DoRollback(s, e).rows && DoRollback(s, e).rows[tx] == s.rows[tx]
  {
  }

  lemma {:induction false} StepKeepsSuccess(env: Env, s: State, step: Step, tx: nat)
    requires Synchronous(env) && Enabled(env, s, step)
    requires WorkersOk(s.rows, s.workers) && s.hooks == map[] && tx < s.nextTx
    requires tx in s.rows && s.rows[tx].status == Successful
    ensures tx in Apply(env, s, step).rows && Apply(env, s, step).rows[tx].status == Successful
  {
    match step {
      case HandleBadge(e) => BadgeKeepsRow(env, s, e, tx);
      case HandleBadgeRollsBack(e) => RollbackKeepsRow(s, e, tx);
      case StartJob(w, j) => assert DoStartJob(s, w, j).rows == s.rows;
      case SelectFailed(r, t, manual, now) => RetryStepKeepsSuccess(env, s, step, tx);
      case ResetRetryCount(r) => RetryStepKeepsSuccess(env, s, step, tx);
      case Recheck(r) => RetryStepKeepsSuccess(env, s, step, tx);
      case Requeue(r) => RetryStepKeepsSuccess(env, s, step, tx);
      case Enqueue(r) => RetryStepKeepsSuccess(env, s, step, tx);
      case FaultAfterTransfer(w, f) =>
      case ReceiveHook(h, t, success, f) =>
      case SaveHook(h) =>
      case _ => WorkerStepKeepsSuccess(env, s, step, tx);
    }
  }

  /** SUCCESSFUL is terminal. */
  lemma {:induction false} SuccessIsTerminal(env: Env, s: State, steps: seq<Step>, s': State, tx: nat)
    requires Synchronous(env) && Inv(s) && IsRun(env, s, steps, s')
    requires tx in s.rows && s.rows[tx].status == Successful
    ensures tx in s'.rows && s'.rows[tx].status == Successful
    decreases steps
  {
    if steps != [] {
      StepPreservesInv(env, s, steps[0]);
      StepKeepsSuccess(env, s, steps[0], tx);
      SuccessIsTerminal(env, Apply(env, s, steps[0]), steps[1..], s', tx);
    }
  }
}

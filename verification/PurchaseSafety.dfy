/** Idempotent creation: what every interleaving of requests keeps. */
module PurchaseSafety {
  import opened Json
  import opened Purchase

  // ---------------------------------------------------------------- invariant

  predicate DistinctKeys(db: Db) {
    forall p, q | p in db.purchases && q in db.purchases && db.purchases[p].key.Some? &&
      db.purchases[p].key == db.purchases[q].key :: p == q
  }

  predicate Announces(db: Db, e: nat, p: nat) {
    e in db.outbox && p in db.purchases && db.outbox[e] == OutboxEvent(db.purchases[p].user, p, db.purchases[p].amount)
  }

  /** Purchase rows and PurchaseCompleted rows correspond one to one, with the same user and amount. */
  ghost predicate OneToOne(db: Db) {
    && (forall e | e in db.outbox :: Announces(db, e, db.outbox[e].purchase))
    && (forall p | p in db.purchases :: exists e :: Announces(db, e, p))
    && (forall e, f | e in db.outbox && f in db.outbox && db.outbox[e].purchase == db.outbox[f].purchase :: e == f)
  }

  /** What a call has to show for itself. */
  predicate CallOk(s: State, call: Call) {
    match call.phase
    case Prepared(p, e) => p in s.drawn && e in s.drawn && p != e && p !in s.db.purchases && e !in s.db.outbox
    case Committed(p) => p in s.db.purchases &&
      s.db.purchases[p] == PurchaseRow(call.req.user, call.req.amount, call.req.key)
    case Answered(p) =>
      && p in s.db.purchases && s.db.purchases[p].key == call.req.key
      && (!Keyed(call.req) ==> s.db.purchases[p] == PurchaseRow(call.req.user, call.req.amount, call.req.key))
    case Collided => Keyed(call.req) && KeyTaken(s.db, call.req.key.value)
    case _ => true
  }

  function PurchaseOf(call: Call): (p: Option<nat>) {
    match call.phase
    case Prepared(p, _) => Some(p)
    case Committed(p) => Some(p)
    case Answered(p) => Some(p)
    case _ => None
  }

  /** Without a usable key no two calls ever share a purchase. */
  predicate OwnPurchase(calls: map<nat, Call>, r: nat, q: nat)
    requires r in calls && q in calls
  {
    r != q && PurchaseOf(calls[r]).Some? && PurchaseOf(calls[r]) == PurchaseOf(calls[q]) ==>
      Keyed(calls[r].req) && Keyed(calls[q].req) && !calls[r].phase.Prepared? && !calls[q].phase.Prepared?
  }

  predicate OwnEvent(calls: map<nat, Call>, r: nat, q: nat)
    requires r in calls && q in calls
  {
    r != q && calls[r].phase.Prepared? && calls[q].phase.Prepared? ==> calls[r].phase.event != calls[q].phase.event
  }

  ghost predicate Inv(s: State) {
    && DistinctKeys(s.db) && OneToOne(s.db)
    && s.db.purchases.Keys <= s.drawn && s.db.outbox.Keys <= s.drawn
    && (forall r | r in s.calls :: CallOk(s, s.calls[r]))
    && (forall r, q | r in s.calls && q in s.calls :: OwnPurchase(s.calls, r, q) && OwnEvent(s.calls, r, q))
  }

  /** Only the phase of one call changes. */
  lemma PhaseChange(s: State, r: nat, phase: Phase)
    requires Inv(s) && r in s.calls && CallOk(s, s.calls[r].(phase := phase)) && !phase.Prepared?
    requires forall q | q in s.calls && q != r && PurchaseOf(s.calls[r].(phase := phase)).Some? ::
               PurchaseOf(s.calls[q]) == PurchaseOf(s.calls[r].(phase := phase)) ==>
                 Keyed(s.calls[r].req) && Keyed(s.calls[q].req) && !s.calls[q].phase.Prepared?
    ensures Inv(To(s, r, phase))
  {
    var s' := To(s, r, phase);
    forall q | q in s'.calls ensures CallOk(s', s'.calls[q]) {
      assert q != r ==> CallOk(s, s.calls[q]);
    }
    forall a, b | a in s'.calls && b in s'.calls ensures OwnPurchase(s'.calls, a, b) && OwnEvent(s'.calls, a, b) {
      assert OwnPurchase(s.calls, a, b) && OwnEvent(s.calls, a, b);
    }
  }

  lemma HitPreserves(s: State, r: nat, p: nat)
    requires Inv(s) && r in s.calls && Keyed(s.calls[r].req) && HoldsKey(s.db, p, s.calls[r].req.key.value)
    ensures Inv(To(s, r, Answered(p)))
  {
    forall q | q in s.calls && PurchaseOf(s.calls[q]) == Some(p) ensures Keyed(s.calls[q].req) &&
      !s.calls[q].phase.Prepared? {
      assert CallOk(s, s.calls[q]);
    }
    PhaseChange(s, r, Answered(p));
  }

  lemma MissPreserves(s: State, r: nat, p: nat, e: nat)
    requires Inv(s) && Enabled(s, LookupMiss(r, p, e))
    ensures Inv(Apply(s, LookupMiss(r, p, e)))
  {
    var s' := Apply(s, LookupMiss(r, p, e));
    forall q | q in s'.calls ensures CallOk(s', s'.calls[q]) {
      assert CallOk(s, s.calls[q]);
    }
    forall a, b | a in s'.calls && b in s'.calls ensures OwnPurchase(s'.calls, a, b) && OwnEvent(s'.calls, a, b) {
      assert CallOk(s, s.calls[a]) && CallOk(s, s.calls[b]) && OwnPurchase(s.calls, a, b) && OwnEvent(s.calls, a, b);
    }
  }

  lemma AnnouncesStays(db: Db, req: Request, p: nat, e: nat, f: nat, q: nat)
    requires Announces(db, f, q) && p !in db.purchases && e !in db.outbox
    ensures Announces(Written(db, req, p, e), f, q)
  {
  }

  /** The new event announces the new purchase, and no older event does. */
  lemma WrittenAnnounced(db: Db, req: Request, p: nat, e: nat)
    requires OneToOne(db) && p !in db.purchases && e !in db.outbox
    ensures Announces(Written(db, req, p, e), e, p)
    ensures forall f | f in db.outbox :: db.outbox[f].purchase != p
  {
    forall f | f in db.outbox ensures db.outbox[f].purchase != p {
      assert Announces(db, f, db.outbox[f].purchase);
    }
  }

  lemma WrittenOneToOne(db: Db, req: Request, p: nat, e: nat)
    requires OneToOne(db) && p !in db.purchases && e !in db.outbox
    ensures OneToOne(Written(db, req, p, e))
  {
    var db' := Written(db, req, p, e);
    WrittenAnnounced(db, req, p, e);
    forall f | f in db'.outbox ensures Announces(db', f, db'.outbox[f].purchase) {
      if f != e {
        AnnouncesStays(db, req, p, e, f, db.outbox[f].purchase);
      }
    }
    forall q | q in db'.purchases ensures exists f :: Announces(db', f, q) {
      if q != p {
        var f :| Announces(db, f, q);
        AnnouncesStays(db, req, p, e, f, q);
      }
    }
  }

  lemma WrittenDistinctKeys(db: Db, req: Request, p: nat, e: nat)
    requires DistinctKeys(db) && p !in db.purchases
    requires req.key.Some? ==> !KeyTaken(db, req.key.value)
    ensures DistinctKeys(Written(db, req, p, e))
  {
  }

  lemma TakenStaysTaken(db: Db, req: Request, p: nat, e: nat, k: string)
    requires KeyTaken(db, k) && p !in db.purchases
    ensures KeyTaken(Written(db, req, p, e), k)
  {
    var q :| q in db.purchases && db.purchases[q].key == Some(k);
    assert Written(db, req, p, e).purchases[q].key == Some(k);
  }

  lemma CommitPreserves(s: State, r: nat)
    requires Inv(s) && Open(s, r) && s.calls[r].phase.Prepared?
    requires s.calls[r].req.key.Some? ==> !KeyTaken(s.db, s.calls[r].req.key.value)
    ensures Inv(Transacted(s, r))
  {
    var req, p, e := s.calls[r].req, s.calls[r].phase.purchase, s.calls[r].phase.event;
    assert CallOk(s, s.calls[r]);
    WrittenOneToOne(s.db, req, p, e);
    WrittenDistinctKeys(s.db, req, p, e);
    var s' := Transacted(s, r);
    forall q | q in s'.calls ensures CallOk(s', s'.calls[q]) {
      assert q != r ==> CallOk(s, s.calls[q]) && OwnPurchase(s.calls, r, q) && OwnEvent(s.calls, r, q);
      if q != r && s.calls[q].phase.Collided? {
        TakenStaysTaken(s.db, req, p, e, s.calls[q].req.key.value);
      }
    }
    forall a, b | a in s'.calls && b in s'.calls ensures OwnPurchase(s'.calls, a, b) && OwnEvent(s'.calls, a, b) {
      assert OwnPurchase(s.calls, a, b) && OwnEvent(s.calls, a, b);
    }
  }

  lemma ArrivePreserves(s: State, r: nat, req: Request)
    requires Inv(s) && r !in s.calls
    ensures Inv(Apply(s, Arrive(r, req)))
  {
    var s' := Apply(s, Arrive(r, req));
    forall q | q in s'.calls ensures CallOk(s', s'.calls[q]) {
      assert q != r ==> CallOk(s, s.calls[q]);
    }
    assert forall a, b | a in s.calls && b in s.calls :: OwnPurchase(s.calls, a, b) && OwnEvent(s.calls, a, b);
  }

  lemma TransactPreserves(s: State, r: nat)
    requires Inv(s) && Enabled(s, Transact(r))
    ensures Inv(Transacted(s, r))
  {
    if s.calls[r].req.key.Some? && KeyTaken(s.db, s.calls[r].req.key.value) {
      PhaseChange(s, r, if Keyed(s.calls[r].req) then Collided else Thrown);
    } else {
      CommitPreserves(s, r);
    }
  }

  lemma PublishedPreserves(s: State, r: nat)
    requires Inv(s) && Enabled(s, Published(r))
    ensures Inv(Apply(s, Published(r)))
  {
    assert CallOk(s, s.calls[r]);
    assert forall q | q in s.calls :: OwnPurchase(s.calls, r, q);
    PhaseChange(s, r, Answered(s.calls[r].phase.purchase));
  }

  lemma StepPreservesInv(s: State, step: Step)
    requires Inv(s) && Enabled(s, step)
    ensures Inv(Apply(s, step))
  {
    match step
    case Arrive(r, req) => ArrivePreserves(s, r, req);
    case LookupHit(r, p) => HitPreserves(s, r, p);
    case SecondLookupHit(r, p) =>
      assert CallOk(s, s.calls[r]);
      HitPreserves(s, r, p);
    case LookupMiss(r, p, e) => MissPreserves(s, r, p, e);
    case Transact(r) => TransactPreserves(s, r);
    case Published(r) => PublishedPreserves(s, r);
    case SecondLookupMiss(r) => PhaseChange(s, r, Thrown);
    case Broken(r) => PhaseChange(s, r, Thrown);
  }

  lemma {:induction false} RunPreservesInv(s: State, steps: seq<Step>, s': State)
    requires Inv(s) && IsRun(s, steps, s')
    ensures Inv(s')
    decreases steps
  {
    if steps != [] {
      StepPreservesInv(s, steps[0]);
      RunPreservesInv(Apply(s, steps[0]), steps[1..], s');
    }
  }

  // ---------------------------------------------------------------- main results

  predicate AnsweredWith(s: State, r: nat, p: nat) {
    r in s.calls && s.calls[r].phase == Answered(p)
  }

  /** Successful responses to one non-empty key all name the same purchase, the only one with that key. */
  lemma SameKeySamePurchase(steps: seq<Step>, s: State, r: nat, q: nat, p: nat, p': nat)
    requires IsRun(Init, steps, s) && AnsweredWith(s, r, p) && AnsweredWith(s, q, p')
    requires Keyed(s.calls[r].req) && s.calls[r].req.key == s.calls[q].req.key
    ensures p == p' && HoldsKey(s.db, p, s.calls[r].req.key.value)
    ensures forall other | HoldsKey(s.db, other, s.calls[r].req.key.value) :: other == p
  {
    RunPreservesInv(Init, steps, s);
    assert CallOk(s, s.calls[r]) && CallOk(s, s.calls[q]);
  }

  /** Without a key every success is a purchase of its own, with the caller's user and amount. */
  lemma NoKeyNewPurchase(steps: seq<Step>, s: State, r: nat, q: nat, p: nat, p': nat)
    requires IsRun(Init, steps, s) && AnsweredWith(s, r, p) && AnsweredWith(s, q, p') && r != q
    requires s.calls[r].req.key.None?
    ensures p != p' && p in s.db.purchases &&
            s.db.purchases[p] == PurchaseRow(s.calls[r].req.user, s.calls[r].req.amount, None)
  {
    RunPreservesInv(Init, steps, s);
    assert CallOk(s, s.calls[r]) && OwnPurchase(s.calls, r, q);
  }

  /** The empty key is never replayed: at most one request carrying it succeeds. */
  lemma EmptyKeySucceedsOnce(steps: seq<Step>, s: State, r: nat, q: nat, p: nat, p': nat)
    requires IsRun(Init, steps, s) && AnsweredWith(s, r, p) && AnsweredWith(s, q, p')
    requires s.calls[r].req.key == s.calls[q].req.key == Some("")
    ensures r == q
  {
    RunPreservesInv(Init, steps, s);
    assert CallOk(s, s.calls[r]) && CallOk(s, s.calls[q]) && OwnPurchase(s.calls, r, q);
    assert HoldsKey(s.db, p, "") && HoldsKey(s.db, p', "");
  }

  /** In every reachable state, failed publishes and lost responses included. */
  lemma PurchasesMatchOutbox(steps: seq<Step>, s: State)
    requires IsRun(Init, steps, s)
    ensures OneToOne(s.db)
  {
    RunPreservesInv(Init, steps, s);
  }

  /** The transaction of a request whose key is in use writes nothing: a usable key collides, the empty one fails. */
  lemma UsedKeyWritesNothing(s: State, r: nat)
    requires Enabled(s, Transact(r)) && s.calls[r].req.key.Some? && KeyTaken(s.db, s.calls[r].req.key.value)
    ensures var s' := Apply(s, Transact(r));
            && s'.db == s.db && r in s'.calls && s'.calls[r].req == s.calls[r].req
            && s'.calls[r].phase == (if s.calls[r].req.key.value == "" then Thrown else Collided)
  {
  }

  /** A request that lost the race always finds the winner's purchase, and answers with it. */
  lemma LoserFindsWinner(steps: seq<Step>, s: State, r: nat)
    requires IsRun(Init, steps, s) && r in s.calls && s.calls[r].phase.Collided?
    ensures !Enabled(s, SecondLookupMiss(r)) && exists p :: Enabled(s, SecondLookupHit(r, p))
    ensures forall p | Enabled(s, SecondLookupHit(r, p)) ::
              AnsweredWith(Apply(s, SecondLookupHit(r, p)), r, p) && HoldsKey(s.db, p, s.calls[r].req.key.value)
  {
    RunPreservesInv(Init, steps, s);
    assert CallOk(s, s.calls[r]);
    var p :| p in s.db.purchases && s.db.purchases[p].key == Some(s.calls[r].req.key.value);
    assert Enabled(s, SecondLookupHit(r, p));
  }
}

/** createPurchase as the code runs it, one call at a time; each call is a run of the protocol. */
module PurchaseService {
  import opened Json
  import opened Purchase

  lemma OneStep(s: State, step: Step, rest: seq<Step>, s': State)
    requires Enabled(s, step) && IsRun(Apply(s, step), rest, s')
    ensures IsRun(s, [step] + rest, s')
  {
    assert ([step] + rest)[1..] == rest;
  }

  function Alone(db: Db, drawn: set<nat>, req: Request, phase: Phase): (s: State) {
    State(db, map[0 := Call(req, phase)], drawn)
  }

  lemma HitRun(db: Db, drawn: set<nat>, req: Request, p: nat) returns (steps: seq<Step>)
    requires Keyed(req) && HoldsKey(db, p, req.key.value)
    ensures IsRun(Alone(db, drawn, req, Started), steps, Alone(db, drawn, req, Answered(p)))
  {
    steps := [LookupHit(0, p)] + [];
    OneStep(Alone(db, drawn, req, Started), LookupHit(0, p), [], Alone(db, drawn, req, Answered(p)));
  }

  lemma RefusedRun(db: Db, drawn: set<nat>, req: Request, p: nat, e: nat) returns (steps: seq<Step>)
    requires req.key == Some("") && KeyTaken(db, "") && p !in drawn && e !in drawn && p != e
    ensures IsRun(Alone(db, drawn, req, Started), steps, Alone(db, drawn + {p, e}, req, Thrown))
  {
    var s' := Alone(db, drawn + {p, e}, req, Thrown);
    OneStep(Alone(db, drawn + {p, e}, req, Prepared(p, e)), Transact(0), [], s');
    OneStep(Alone(db, drawn, req, Started), LookupMiss(0, p, e), [Transact(0)] + [], s');
    steps := [LookupMiss(0, p, e)] + ([Transact(0)] + []);
  }

  lemma FinishRun(db: Db, drawn: set<nat>, req: Request, p: nat, published: bool) returns (steps: seq<Step>)
    ensures IsRun(Alone(db, drawn, req, Committed(p)), steps,
            Alone(db, drawn, req, if published then Answered(p) else Thrown))
  {
    var last := if published then Published(0) else Broken(0);
    OneStep(Alone(db, drawn, req, Committed(p)), last, [],
      Alone(db, drawn, req, if published then Answered(p) else Thrown));
    steps := [last] + [];
  }

  lemma CommittedRun(db: Db, drawn: set<nat>, req: Request, p: nat, e: nat, published: bool) returns (steps: seq<Step>)
    requires (req.key.Some? ==> !KeyTaken(db, req.key.value)) && p !in drawn && e !in drawn && p != e
    ensures IsRun(Alone(db, drawn, req, Started), steps,
                  Alone(Written(db, req, p, e), drawn + {p, e}, req, if published then Answered(p) else Thrown))
  {
    var db', d' := Written(db, req, p, e), drawn + {p, e};
    var s' := Alone(db', d', req, if published then Answered(p) else Thrown);
    var last := FinishRun(db', d', req, p, published);
    assert Apply(Alone(db, d', req, Prepared(p, e)), Transact(0)) == Alone(db', d', req, Committed(p));
    assert Apply(Alone(db, drawn, req, Started), LookupMiss(0, p, e)) == Alone(db, d', req, Prepared(p, e));
    OneStep(Alone(db, d', req, Prepared(p, e)), Transact(0), last, s');
    OneStep(Alone(db, drawn, req, Started), LookupMiss(0, p, e), [Transact(0)] + last, s');
    steps := [LookupMiss(0, p, e)] + ([Transact(0)] + last);
  }

  /** The fields are the tables of the purchase database. */
  class Service {
    var purchases: map<nat, PurchaseRow>
    var outbox: map<nat, OutboxEvent>
    var drawn: set<nat>

    function Tables(): (db: Db)
      reads this
    {
      Db(purchases, outbox)
    }

    constructor ()
      ensures Tables() == Init.db && drawn == Init.drawn
    {
      purchases, outbox, drawn := map[], map[], {};
    }

    /** One uninterrupted call with fresh ids p and e; published says whether publishMany returned. */
    method CreatePurchase(req: Request, p: nat, e: nat, published: bool)
      returns (res: Option<nat>, ghost steps: seq<Step>)
      requires p !in drawn && e !in drawn && p != e
      modifies this
      ensures IsRun(Alone(old(Tables()), old(drawn), req, Started), steps,
                    Alone(Tables(), drawn, req, if res.Some? then Answered(res.value) else Thrown))
      ensures req.key.Some? && KeyTaken(old(Tables()), req.key.value) ==> Tables() == old(Tables())
      ensures Keyed(req) && KeyTaken(old(Tables()), req.key.value) ==>
              res.Some? && HoldsKey(Tables(), res.value, req.key.value)
      ensures req.key == Some("") && KeyTaken(old(Tables()), "") ==> res == None
      ensures (req.key.Some? ==> !KeyTaken(old(Tables()), req.key.value)) ==>
                Tables() == Written(old(Tables()), req, p, e) && res == if published then Some(p) else None
    {
      if Keyed(req) && KeyTaken(Tables(), req.key.value) {
        var found :| found in purchases && purchases[found].key == Some(req.key.value);
        steps := HitRun(Tables(), drawn, req, found);
        return Some(found), steps;
      }
      if req.key.Some? && KeyTaken(Tables(), req.key.value) {
        steps := RefusedRun(Tables(), drawn, req, p, e);
        drawn := drawn + {p, e};
        return None, steps;
      }
      steps := CommittedRun(Tables(), drawn, req, p, e, published);
      drawn := drawn + {p, e};
      purchases := purchases[p := PurchaseRow(req.user, req.amount, req.key)];
      outbox := outbox[e := OutboxEvent(req.user, p, req.amount)];
      res := if published then Some(p) else None;
    }
  }
}

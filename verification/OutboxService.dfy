/** The outbox service as the code runs it, one call at a time, and how its scanner drains the table. */
module OutboxService {
  import opened Collections
  import opened Outbox
  import opened OutboxSafety

  /** The table together with the number of broker calls made for each row. */
  datatype Store = Store(rows: map<nat, Row>, calls: map<nat, nat>)

  /** The broker's answer to the call made for a row. */
  type Answers = nat -> bool

  function Calls(calls: map<nat, nat>, id: nat): (n: nat) {
    if id in calls then calls[id] else 0
  }

  /** Publishing one row by id: nothing happens unless the claim finds it PENDING. */
  function PublishOne(s: Store, id: nat, ok: bool, maxAttempts: nat): (r: Store) {
    if id in s.rows && s.rows[id].status == Pending then
      Store(s.rows[id := Published1(s.rows[id], ok, maxAttempts)], s.calls[id := Calls(s.calls, id) + 1])
    else s
  }

  function PublishAll(s: Store, ids: seq<nat>, answers: Answers, maxAttempts: nat): (r: Store)
    decreases |ids|
  {
    if ids == [] then s
    else
      var init, last := ids[..|ids| - 1], ids[|ids| - 1];
      PublishOne(PublishAll(s, init, answers, maxAttempts), last, answers(last), maxAttempts)
  }

  /** The ids a scan picks up: PENDING rows in creation order, at most batchSize of them. */
  function PendingIds(created: seq<nat>, rows: map<nat, Row>): (r: seq<nat>)
    ensures forall id :: id in r <==> id in created && id in rows && rows[id].status == Pending
    ensures NoRepeats(created) ==> NoRepeats(r)
  {
    if created == [] then []
    else
      var init, last := created[..|created| - 1], created[|created| - 1];
      assert created == init + [last];
      var rest := PendingIds(init, rows);
      if last in rows && rows[last].status == Pending then rest + [last] else rest
  }

  function Batch(created: seq<nat>, rows: map<nat, Row>, batchSize: nat): (r: seq<nat>) {
    var all := PendingIds(created, rows);
    if |all| <= batchSize then all else all[..batchSize]
  }

  function Tick(s: Store, created: seq<nat>, answers: Answers, batchSize: nat, maxAttempts: nat): (r: Store) {
    PublishAll(s, Batch(created, s.rows, batchSize), answers, maxAttempts)
  }

  /** The broker calls these publications make, in order. */
  function CallFor(s: Store, id: nat): (r: seq<nat>) {
    if id in s.rows && s.rows[id].status == Pending then [id] else []
  }

  function CallsFor(s: Store, ids: seq<nat>, answers: Answers, maxAttempts: nat): (r: seq<nat>)
    decreases |ids|
  {
    if ids == [] then []
    else
      var init, last := ids[..|ids| - 1], ids[|ids| - 1];
      CallsFor(s, init, answers, maxAttempts) + CallFor(PublishAll(s, init, answers, maxAttempts), last)
  }

  // ---------------------------------------------------------------- what a tick does, row by row

  function Min(a: nat, b: nat): (m: nat) {
    if a <= b then a else b
  }

  /** How many of the rows created before position k are PENDING. */
  function PendingBefore(created: seq<nat>, rows: map<nat, Row>, k: nat): (n: nat)
    requires k <= |created|
  {
    if k == 0 then 0
    else
      PendingBefore(created, rows, k - 1) +
      (if created[k - 1] in rows && rows[created[k - 1]].status == Pending then 1 else 0)
  }

  /** The row at position k is PENDING and among the batchSize oldest that are. */
  predicate OldestPending(created: seq<nat>, rows: map<nat, Row>, k: nat, batchSize: nat)
    requires k < |created|
  {
    created[k] in rows && rows[created[k]].status == Pending && PendingBefore(created, rows, k) < batchSize
  }

  /** The row after one broker call: PUBLISHED, or one attempt more and FAILED once they are used up. */
  function Answered(row: Row, ok: bool, maxAttempts: nat): (r: Row) {
    if ok then Row(Published, row.attempts)
    else if row.attempts + 1 >= maxAttempts then Row(Failed, row.attempts + 1)
    else Row(Pending, row.attempts + 1)
  }

  lemma {:induction false} PendingBeforeLast(created: seq<nat>, rows: map<nat, Row>, k: nat)
    requires k < |created|
    ensures PendingBefore(created[..|created| - 1], rows, k) == PendingBefore(created, rows, k)
  {
    if k > 0 {
      PendingBeforeLast(created, rows, k - 1);
      assert created[..|created| - 1][k - 1] == created[k - 1];
    }
  }

  predicate PendingAt(created: seq<nat>, rows: map<nat, Row>, k: nat)
    requires k < |created|
  {
    created[k] in rows && rows[created[k]].status == Pending
  }

  lemma PendingIdsLast(created: seq<nat>, rows: map<nat, Row>)
    requires created != []
    ensures var n := |created| - 1;
            PendingIds(created, rows) ==
            PendingIds(created[..n], rows) + (if PendingAt(created, rows, n) then [created[n]] else [])
  {
  }

  lemma {:induction false} PendingLength(created: seq<nat>, rows: map<nat, Row>)
    ensures |PendingIds(created, rows)| == PendingBefore(created, rows, |created|)
  {
    if created != [] {
      var n := |created| - 1;
      PendingLength(created[..n], rows);
      PendingIdsLast(created, rows);
      PendingBeforeLast(created, rows, n);
    }
  }

  lemma LastPlace(created: seq<nat>, rows: map<nat, Row>)
    requires created != [] && PendingAt(created, rows, |created| - 1)
    ensures |PendingIds(created[..|created| - 1], rows)| == PendingBefore(created, rows, |created| - 1)
  {
    PendingLength(created[..|created| - 1], rows);
    PendingBeforeLast(created, rows, |created| - 1);
  }

  lemma AppendKeeps(a: seq<nat>, b: seq<nat>, p: nat, x: nat)
    requires p < |a| && a[p] == x
    ensures p < |a + b| && (a + b)[p] == x
  {
  }

  /** A PENDING row stands in the query's result at the number of PENDING rows created before it. */
  lemma {:induction false} PendingPlaces(created: seq<nat>, rows: map<nat, Row>, k: nat, p: nat)
    requires k < |created| && PendingAt(created, rows, k) && p == PendingBefore(created, rows, k)
    ensures p < |PendingIds(created, rows)| && PendingIds(created, rows)[p] == created[k]
  {
    var n := |created| - 1;
    var init := created[..n];
    PendingIdsLast(created, rows);
    if k < n {
      assert init[k] == created[k];
      PendingBeforeLast(created, rows, k);
      PendingPlaces(init, rows, k, p);
      AppendKeeps(PendingIds(init, rows), if PendingAt(created, rows, n) then [created[n]] else [], p, created[k]);
    } else {
      LastPlace(created, rows);
    }
  }

  /** The batch holds exactly the oldest PENDING rows, in creation order. */
  lemma BatchMeans(created: seq<nat>, rows: map<nat, Row>, batchSize: nat, k: nat)
    requires NoRepeats(created) && k < |created|
    ensures |Batch(created, rows, batchSize)| == Min(batchSize, PendingBefore(created, rows, |created|))
    ensures created[k] in Batch(created, rows, batchSize) <==> OldestPending(created, rows, k, batchSize)
    ensures OldestPending(created, rows, k, batchSize) ==>
              PendingBefore(created, rows, k) < |Batch(created, rows, batchSize)| &&
              Batch(created, rows, batchSize)[PendingBefore(created, rows, k)] == created[k]
  {
    PendingLength(created, rows);
    if PendingAt(created, rows, k) {
      PendingPlaces(created, rows, k, PendingBefore(created, rows, k));
    }
    var all, ids := PendingIds(created, rows), Batch(created, rows, batchSize);
    if created[k] in ids {
      var q :| 0 <= q < |ids| && ids[q] == created[k];
      assert all[q] == created[k] && created[k] in all;
    }
  }

  lemma {:induction false} PublishAllOn(s: Store, ids: seq<nat>, answers: Answers, maxAttempts: nat, id: nat)
    requires NoRepeats(ids) && forall i | i in ids :: i in s.rows && s.rows[i].status == Pending
    ensures var r := PublishAll(s, ids, answers, maxAttempts);
      && r.rows.Keys == s.rows.Keys
      && (id in ids ==> r.rows[id] == Answered(s.rows[id], answers(id), maxAttempts) &&
                        Calls(r.calls, id) == Calls(s.calls, id) + 1)
      && (id !in ids ==> (id in s.rows ==> r.rows[id] == s.rows[id]) && Calls(r.calls, id) == Calls(s.calls, id))
    decreases |ids|
  {
    if ids != [] {
      var init, last := ids[..|ids| - 1], ids[|ids| - 1];
      assert ids == init + [last];
      PublishAllOn(s, init, answers, maxAttempts, id);
      PublishAllOn(s, init, answers, maxAttempts, last);
    }
  }

  /**
   * What one tick does, row by row. made lists its broker calls: as many as there are PENDING rows, up to the
   * batch size, and the row with p older PENDING ones is call number p. Such a row is called once and takes the
   * broker's answer; every other row and its number of calls stay.
   */
  predicate OldestCalled(created: seq<nat>, s: Store, r: Store, made: seq<nat>, answers: Answers, batchSize: nat,
                         maxAttempts: nat)
  {
    && |made| == Min(batchSize, PendingBefore(created, s.rows, |created|))
    && forall k | 0 <= k < |created| :: CalledInTurn(created, s, r, made, answers, batchSize, maxAttempts, k)
  }

  predicate CalledInTurn(created: seq<nat>, s: Store, r: Store, made: seq<nat>, answers: Answers, batchSize: nat,
                         maxAttempts: nat, k: nat)
    requires k < |created|
  {
    var id, p := created[k], PendingBefore(created, s.rows, k);
    && id in s.rows && id in r.rows
    && if s.rows[id].status == Pending && p < batchSize then
         && p < |made| && made[p] == id
         && Calls(r.calls, id) == Calls(s.calls, id) + 1
         && r.rows[id] == Answered(s.rows[id], answers(id), maxAttempts)
       else
         Calls(r.calls, id) == Calls(s.calls, id) && r.rows[id] == s.rows[id]
  }

  lemma TickMeans(s: Store, created: seq<nat>, answers: Answers, batchSize: nat, maxAttempts: nat)
    requires NoRepeats(created) && Elements(created) == s.rows.Keys && batchSize >= 1
    ensures OldestCalled(created, s, Tick(s, created, answers, batchSize, maxAttempts),
            Batch(created, s.rows, batchSize),
                         answers, batchSize, maxAttempts)
  {
    var ids := Batch(created, s.rows, batchSize);
    assert forall i | i in ids :: i in PendingIds(created, s.rows);
    if created != [] {
      BatchMeans(created, s.rows, batchSize, 0);
    }
    forall k | 0 <= k < |created|
      ensures CalledInTurn(created, s, Tick(s, created, answers, batchSize, maxAttempts), ids, answers, batchSize,
                           maxAttempts, k)
    {
      assert created[k] in Elements(created);
      BatchMeans(created, s.rows, batchSize, k);
      PublishAllOn(s, ids, answers, maxAttempts, created[k]);
    }
  }

  // ---------------------------------------------------------------- the service

  class Service {
    const maxAttempts: nat
    const batchSize: nat
    var rows: map<nat, Row>
    var calls: map<nat, nat>
    var created: seq<nat>
    var called: seq<nat>   // the ids of all broker calls, in order

    ghost predicate Valid()
      reads this
    {
      && maxAttempts >= 1 && batchSize >= 1
      && NoRepeats(created) && Elements(created) == rows.Keys
      && forall id | id in rows :: RowOk(rows[id], maxAttempts)
    }

    ghost function State(): (s: Store)
      reads this
    {
      Store(rows, calls)
    }

    constructor (batchSize: nat, maxAttempts: nat)
      requires maxAttempts >= 1 && batchSize >= 1
      ensures Valid() && rows == map[] && calls == map[] && created == [] && called == []
      ensures this.maxAttempts == maxAttempts && this.batchSize == batchSize
    {
      this.maxAttempts, this.batchSize := maxAttempts, batchSize;
      rows, calls, created, called := map[], map[], [], [];
    }

    /** The domain transaction writes the row; its id is new. */
    method Insert(id: nat)
      requires Valid() && id !in rows
      modifies this
      ensures Valid()
      ensures rows == old(rows)[id := Row(Pending, 0)] && created == old(created) + [id] && calls == old(calls)
      ensures called == old(called)
    {
      assert forall k | k in created :: k in Elements(created);
      rows := rows[id := Row(Pending, 0)];
      created := created + [id];
      assert Elements(created) == Elements(old(created)) + {id};
    }

    /** UPDATE ... SET status = PUBLISHING WHERE id = ? AND status = PENDING */
    method ClaimForPublishing(id: nat) returns (claimed: bool)
      requires Valid()
      modifies this`rows
      ensures Valid()
      ensures claimed <==> id in old(rows) && old(rows)[id].status == Pending
      ensures rows == if claimed then old(rows)[id := old(rows)[id].(status := Publishing)] else old(rows)
    {
      claimed := id in rows && rows[id].status == Pending;
      if claimed {
        rows := rows[id := rows[id].(status := Publishing)];
      }
    }

    method PublishRecord(id: nat, event: Row, ok: bool) returns (sent: bool)
      requires Valid() && id in rows && event.attempts < maxAttempts
      modifies this`rows, this`calls, this`called
      ensures Valid() && sent == ok
      ensures rows == old(rows)[id := Published1(event, ok, maxAttempts)]
      ensures calls == old(calls)[id := Calls(old(calls), id) + 1] && called == old(called) + [id]
    {
      called := called + [id];
      calls := calls[id := Calls(calls, id) + 1];
      if ok {
        rows := rows[id := event.(status := Published)];
      } else {
        var attempts := event.attempts + 1;
        rows := rows[id := Row(if attempts >= maxAttempts then Failed else Pending, attempts)];
      }
      sent := ok;
    }

    method PublishById(id: nat, ok: bool) returns (sent: bool)
      requires Valid()
      modifies this`rows, this`calls, this`called
      ensures Valid()
      ensures State() == PublishOne(old(State()), id, ok, maxAttempts)
      ensures sent <==> ok && id in old(rows) && old(rows)[id].status == Pending
      ensures called == old(called) + CallFor(old(State()), id)
    {
      if id !in rows || rows[id].status == Published || rows[id].attempts >= maxAttempts {
        return false;
      }
      var event := rows[id];
      var claimed := ClaimForPublishing(id);
      if !claimed {
        return false;
      }
      event := event.(status := Publishing);
      sent := PublishRecord(id, event, ok);
    }

    method PublishMany(ids: seq<nat>, answers: Answers)
      requires Valid()
      modifies this`rows, this`calls, this`called
      ensures Valid()
      ensures State() == PublishAll(old(State()), ids, answers, maxAttempts)
      ensures called == old(called) + CallsFor(old(State()), ids, answers, maxAttempts)
    {
      for i := 0 to |ids|
        invariant Valid()
        invariant State() == PublishAll(old(State()), ids[..i], answers, maxAttempts)
        invariant called == old(called) + CallsFor(old(State()), ids[..i], answers, maxAttempts)
      {
        assert ids[..i + 1][..i] == ids[..i];
        var _ := PublishById(ids[i], answers(ids[i]));
      }
      assert ids[..|ids|] == ids;
    }

    method PublishPendingBatch(answers: Answers)
      requires Valid()
      modifies this`rows, this`calls, this`called
      ensures Valid()
      ensures State() == Tick(old(State()), created, answers, batchSize, maxAttempts)
      ensures old(called) <= called
      ensures OldestCalled(created, old(State()), State(), called[|old(called)|..], answers, batchSize, maxAttempts)
    {
      var ids := Batch(created, rows, batchSize);
      var snapshot := rows;
      for i := 0 to |ids|
        invariant Valid() && called == old(called) + ids[..i]
        invariant State() == PublishAll(old(State()), ids[..i], answers, maxAttempts)
        invariant forall k | i <= k < |ids| :: ids[k] in snapshot && ids[k] in rows && rows[ids[k]] == snapshot[ids[k]]
      {
        assert ids[..i + 1][..i] == ids[..i] && ids[..i + 1] == ids[..i] + [ids[i]];
        assert ids[i] in PendingIds(created, snapshot);
        PublishSnapshot(ids[i], snapshot[ids[i]], answers(ids[i]));
      }
      assert ids[..|ids|] == ids && called[|old(called)|..] == ids;
      TickMeans(old(State()), created, answers, batchSize, maxAttempts);
    }

    /** The loop body of publishPendingBatch, on the snapshot taken when the batch was read. */
    method PublishSnapshot(id: nat, event: Row, ok: bool)
      requires Valid() && id in rows && rows[id] == event
      modifies this`rows, this`calls, this`called
      ensures Valid()
      ensures State() == PublishOne(old(State()), id, ok, maxAttempts)
      ensures called == old(called) + CallFor(old(State()), id)
    {
      var claimed := ClaimForPublishing(id);
      if claimed {
        var _ := PublishRecord(id, event.(status := Publishing), ok);
      }
    }
  }

  // ---------------------------------------------------------------- the service is a run of the protocol

  /** Each call of the service is a run of the interleaved protocol in which nobody else moves. */
  lemma PublishOneIsRun(s: State, calls: map<nat, nat>, t: nat, id: nat, ok: bool,
      maxAttempts: nat) returns (steps: seq<Step>, s': State)
    requires t !in s.tasks && s.log.Keys == s.rows.Keys
    ensures IsRun(s, steps, s', maxAttempts)
    ensures s'.rows == PublishOne(Store(s.rows, calls), id, ok, maxAttempts).rows
    ensures s'.tasks == s.tasks && s'.log.Keys == s'.rows.Keys
  {
    if id in s.rows && s.rows[id].status == Pending {
      steps := Attempt(t, id, ok);
      s' := SerialAttempt(s, t, id, ok, maxAttempts);
    } else {
      steps, s' := [], s;
    }
  }

  lemma {:induction false} PublishAllIsRun(s: State, calls: map<nat, nat>, t: nat, ids: seq<nat>, answers: Answers,
      maxAttempts: nat)
    returns (steps: seq<Step>, s': State)
    requires t !in s.tasks && s.log.Keys == s.rows.Keys
    ensures IsRun(s, steps, s', maxAttempts)
    ensures s'.rows == PublishAll(Store(s.rows, calls), ids, answers, maxAttempts).rows
    ensures s'.tasks == s.tasks && s'.log.Keys == s'.rows.Keys
    decreases |ids|
  {
    if ids == [] {
      steps, s' := [], s;
    } else {
      var init, last := ids[..|ids| - 1], ids[|ids| - 1];
      var a, mid := PublishAllIsRun(s, calls, t, init, answers, maxAttempts);
      var b;
      b, s' := PublishOneIsRun(mid, PublishAll(Store(s.rows, calls), init, answers, maxAttempts).calls, t, last,
        answers(last), maxAttempts);
      RunConcat(s, a, mid, b, s', maxAttempts);
      steps := a + b;
    }
  }

  // ---------------------------------------------------------------- draining

  ghost function WorkMap(rows: map<nat, Row>, maxAttempts: nat): (m: map<nat, int>) {
    map id | id in rows && rows[id].status == Pending :: maxAttempts - rows[id].attempts
  }

  /** Attempts the PENDING rows still have in them. */
  ghost function Work(rows: map<nat, Row>, maxAttempts: nat): (w: int) {
    Total(WorkMap(rows, maxAttempts))
  }

  predicate AllRowsOk(rows: map<nat, Row>, maxAttempts: nat) {
    forall id | id in rows :: RowOk(rows[id], maxAttempts)
  }

  /** A row has had one broker call per failed attempt, and one more if it got through. */
  predicate CallsOk(s: Store) {
    forall id | id in s.rows :: s.rows[id].status != Publishing &&
      Calls(s.calls, id) == s.rows[id].attempts + (if s.rows[id].status == Published then 1 else 0)
  }

  lemma RowUpdateWorks(rows: map<nat, Row>, id: nat, row: Row, maxAttempts: nat)
    requires id in rows && rows[id].status == Pending && rows[id].attempts < maxAttempts
    requires row.status == Pending ==> row.attempts == rows[id].attempts + 1
    ensures Work(rows[id := row], maxAttempts) <= Work(rows, maxAttempts) - 1
  {
    var m, m' := WorkMap(rows, maxAttempts), WorkMap(rows[id := row], maxAttempts);
    if row.status == Pending {
      assert m' == m[id := m[id] - 1];
      TotalUpdate<nat>(m, id, m[id] - 1);
    } else {
      assert m' == m - {id};
      TotalRemove<nat>(m, id);
      assert m[id] == maxAttempts - rows[id].attempts;
    }
  }

  lemma PublishOneWorks(s: Store, id: nat, ok: bool, maxAttempts: nat)
    requires AllRowsOk(s.rows, maxAttempts) && CallsOk(s)
    ensures var r := PublishOne(s, id, ok, maxAttempts);
      && AllRowsOk(r.rows, maxAttempts) && CallsOk(r) && r.rows.Keys == s.rows.Keys
      && (forall k | k in s.rows && k != id :: r.rows[k] == s.rows[k])
      && Work(r.rows, maxAttempts) <= Work(s.rows, maxAttempts) -
         (if id in s.rows && s.rows[id].status == Pending then 1 else 0)
  {
    if id in s.rows && s.rows[id].status == Pending {
      RowUpdateWorks(s.rows, id, Published1(s.rows[id], ok, maxAttempts), maxAttempts);
    }
  }

  lemma {:induction false} PublishAllWorks(s: Store, ids: seq<nat>, answers: Answers, maxAttempts: nat)
    requires AllRowsOk(s.rows, maxAttempts) && CallsOk(s) && NoRepeats(ids)
    requires forall id | id in ids :: id in s.rows && s.rows[id].status == Pending
    ensures var r := PublishAll(s, ids, answers, maxAttempts);
      && AllRowsOk(r.rows, maxAttempts) && CallsOk(r) && r.rows.Keys == s.rows.Keys
      && (forall k | k in s.rows && k !in ids :: r.rows[k] == s.rows[k])
      && Work(r.rows, maxAttempts) <= Work(s.rows, maxAttempts) - |ids|
    decreases |ids|
  {
    if ids != [] {
      var init, last := ids[..|ids| - 1], ids[|ids| - 1];
      assert ids == init + [last];
      assert forall id | id in init :: id in ids;
      assert last !in init;
      PublishAllWorks(s, init, answers, maxAttempts);
      PublishOneWorks(PublishAll(s, init, answers, maxAttempts), last, answers(last), maxAttempts);
    }
  }

  predicate Drained(rows: map<nat, Row>) {
    forall id | id in rows :: rows[id].status != Pending
  }

  /** Each tick over a table with something PENDING uses up at least one attempt. */
  lemma TickWorks(s: Store, created: seq<nat>, answers: Answers, batchSize: nat, maxAttempts: nat)
    requires AllRowsOk(s.rows, maxAttempts) && CallsOk(s) && batchSize >= 1
    requires NoRepeats(created) && Elements(created) == s.rows.Keys
    ensures var r := Tick(s, created, answers, batchSize, maxAttempts);
      && AllRowsOk(r.rows, maxAttempts) && CallsOk(r) && r.rows.Keys == s.rows.Keys
      && (Drained(s.rows) ==> r == s)
      && (!Drained(s.rows) ==> Work(r.rows, maxAttempts) < Work(s.rows, maxAttempts))
  {
    var all := PendingIds(created, s.rows);
    var ids := Batch(created, s.rows, batchSize);
    assert forall id | id in ids :: id in all;
    PublishAllWorks(s, ids, answers, maxAttempts);
    if !Drained(s.rows) {
      var id :| id in s.rows && s.rows[id].status == Pending;
      assert id in Elements(created);
      assert id in all;
    } else {
      assert all == [] by {
        assert forall id :: id !in all;
      }
    }
  }

  /** The table after a sequence of scanner ticks. */
  function Ticks(s: Store, created: seq<nat>, answers: seq<Answers>, batchSize: nat, maxAttempts: nat): (r: Store)
    decreases |answers|
  {
    if answers == [] then s
    else Ticks(Tick(s, created, answers[0], batchSize, maxAttempts), created, answers[1..], batchSize, maxAttempts)
  }

  lemma {:induction false} TicksDrain(s: Store, created: seq<nat>, answers: seq<Answers>, batchSize: nat,
      maxAttempts: nat)
    requires AllRowsOk(s.rows, maxAttempts) && CallsOk(s) && batchSize >= 1
    requires NoRepeats(created) && Elements(created) == s.rows.Keys
    ensures var r := Ticks(s, created, answers, batchSize, maxAttempts);
      && AllRowsOk(r.rows, maxAttempts) && CallsOk(r) && r.rows.Keys == s.rows.Keys
      && (|answers| >= Work(s.rows, maxAttempts) ==> Drained(r.rows))
    decreases |answers|
  {
    if answers == [] {
      if !Drained(s.rows) {
        WorkPositive(s.rows, maxAttempts);
      }
    } else {
      TickWorks(s, created, answers[0], batchSize, maxAttempts);
      TicksDrain(Tick(s, created, answers[0], batchSize, maxAttempts), created, answers[1..], batchSize, maxAttempts);
      if Drained(s.rows) {
        DrainedStays(s, created, answers, batchSize, maxAttempts);
      }
    }
  }

  lemma WorkPositive(rows: map<nat, Row>, maxAttempts: nat)
    requires AllRowsOk(rows, maxAttempts) && !Drained(rows)
    ensures Work(rows, maxAttempts) >= 1
  {
    var m := WorkMap(rows, maxAttempts);
    var id :| id in rows && rows[id].status == Pending;
    TotalRemove(m, id);
    TotalMonotone(map[], m - {id});
    assert Total<nat>(map[]) == 0;
  }

  lemma {:induction false} DrainedStays(s: Store, created: seq<nat>, answers: seq<Answers>, batchSize: nat,
      maxAttempts: nat)
    requires AllRowsOk(s.rows, maxAttempts) && CallsOk(s) && batchSize >= 1 && Drained(s.rows)
    requires NoRepeats(created) && Elements(created) == s.rows.Keys
    ensures Ticks(s, created, answers, batchSize, maxAttempts) == s
    decreases |answers|
  {
    if answers != [] {
      TickWorks(s, created, answers[0], batchSize, maxAttempts);
      DrainedStays(s, created, answers[1..], batchSize, maxAttempts);
    }
  }

  lemma {:induction false} TotalBound(m: map<nat, int>, bound: nat)
    requires forall k | k in m :: m[k] <= bound
    ensures Total(m) <= |m| * bound
    decreases |m|
  {
    if m != map[] {
      var k :| k in m;
      RemoveShrinks(m, k);
      TotalRemove(m, k);
      TotalBound(m - {k}, bound);
      assert |m - {k}| == |m| - 1 by { assert (m - {k}).Keys == m.Keys - {k}; }
      assert |m| * bound == (|m| - 1) * bound + bound;
    }
  }

  lemma WorkBound(rows: map<nat, Row>, maxAttempts: nat)
    ensures Work(rows, maxAttempts) <= |rows| * maxAttempts
  {
    var m := WorkMap(rows, maxAttempts);
    TotalBound(m, maxAttempts);
    SubsetCardinality(m.Keys, rows.Keys);
    MulMonotone(|m.Keys|, |rows.Keys|, maxAttempts);
  }

  lemma MulMonotone(a: nat, b: nat, c: nat)
    requires a <= b
    ensures a * c <= b * c
  {
  }

  /**
   * With serial ticks, no crashes, no failed saves and no inserts, rows * maxAttempts ticks leave nothing
   * PENDING whatever the broker answers, and no row has seen more than maxAttempts broker calls.
   */
  lemma OutboxDrains(s: Store, created: seq<nat>, answers: seq<Answers>, batchSize: nat, maxAttempts: nat)
    requires AllRowsOk(s.rows, maxAttempts) && CallsOk(s) && batchSize >= 1 && maxAttempts >= 1
    requires NoRepeats(created) && Elements(created) == s.rows.Keys
    requires |answers| >= |s.rows| * maxAttempts
    ensures var r := Ticks(s, created, answers, batchSize, maxAttempts);
      && Drained(r.rows) && r.rows.Keys == s.rows.Keys
      && (forall id | id in r.rows :: Calls(r.calls, id) <= maxAttempts)
  {
    WorkBound(s.rows, maxAttempts);
    TicksDrain(s, created, answers, batchSize, maxAttempts);
  }
}

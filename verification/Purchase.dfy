/**
 * createPurchase as a protocol: requests that share an idempotency key interleave between the first
 * lookup, the transaction with its unique constraint, and the second lookup of the catch path.
 */
module Purchase {

  import opened Json

  /** The optional idempotency key of a request; the empty string is falsy in the code's guards. */
  datatype Request = Request(user: string, amount: nat, key: Option<string>)

  datatype PurchaseRow = PurchaseRow(user: string, amount: nat, key: Option<string>)

  /** The payload of a PurchaseCompleted outbox row. */
  datatype OutboxEvent = OutboxEvent(user: string, purchase: nat, amount: nat)

  datatype Db = Db(purchases: map<nat, PurchaseRow>, outbox: map<nat, OutboxEvent>)

  datatype Phase =
    | Started
    | Prepared(purchase: nat, event: nat)   // lookup missed or skipped, ids drawn, transaction not yet run
    | Collided                              // unique violation on the key, second lookup outstanding
    | Committed(purchase: nat)              // publishMany outstanding
    | Answered(purchase: nat)
    | Thrown

  datatype Call = Call(req: Request, phase: Phase)

  /** Drawn ids are remembered: createReadableId never repeats one. */
  datatype State = State(db: Db, calls: map<nat, Call>, drawn: set<nat>)

  const Init := State(Db(map[], map[]), map[], {})

  datatype Step =
    | Arrive(r: nat, req: Request)
    | LookupHit(r: nat, p: nat)
    | LookupMiss(r: nat, p: nat, e: nat)
    | Transact(r: nat)
    | SecondLookupHit(r: nat, p: nat)
    | SecondLookupMiss(r: nat)
    | Published(r: nat)
    | Broken(r: nat)          // any other error: the lookup, the transaction, or publishMany

  predicate HoldsKey(db: Db, p: nat, k: string) {
    p in db.purchases && db.purchases[p].key == Some(k)
  }

  predicate KeyTaken(db: Db, k: string) {
    exists p | p in db.purchases :: db.purchases[p].key == Some(k)
  }

  /** The key as the guards see it: given and not empty. */
  predicate Keyed(req: Request) {
    req.key.Some? && req.key.value != ""
  }

  predicate Open(s: State, r: nat) {
    r in s.calls && !s.calls[r].phase.Answered? && !s.calls[r].phase.Thrown?
  }

  predicate Enabled(s: State, step: Step) {
    match step
    case Arrive(r, req) => r !in s.calls
    case LookupHit(r, p) =>
      Open(s, r) && s.calls[r].phase.Started? && Keyed(s.calls[r].req) && HoldsKey(s.db, p, s.calls[r].req.key.value)
    case LookupMiss(r, p, e) =>
      && Open(s, r) && s.calls[r].phase.Started? && p !in s.drawn && e !in s.drawn && p != e
      && (Keyed(s.calls[r].req) ==> !KeyTaken(s.db, s.calls[r].req.key.value))
    case Transact(r) => Open(s, r) && s.calls[r].phase.Prepared?
    case SecondLookupHit(r, p) =>
      Open(s, r) && s.calls[r].phase.Collided? && s.calls[r].req.key.Some? &&
        HoldsKey(s.db, p, s.calls[r].req.key.value)
    case SecondLookupMiss(r) =>
      Open(s, r) && s.calls[r].phase.Collided? && s.calls[r].req.key.Some? && !KeyTaken(s.db, s.calls[r].req.key.value)
    case Published(r) => Open(s, r) && s.calls[r].phase.Committed?
    case Broken(r) => Open(s, r)
  }

  function To(s: State, r: nat, phase: Phase): (s': State)
    requires r in s.calls
  {
    s.(calls := s.calls[r := s.calls[r].(phase := phase)])
  }

  /** The rows one transaction writes. */
  function Written(db: Db, req: Request, p: nat, e: nat): (db': Db) {
    Db(db.purchases[p := PurchaseRow(req.user, req.amount, req.key)],
      db.outbox[e := OutboxEvent(req.user, p, req.amount)])
  }

  /** The unique constraint counts the empty string as a key; the guards do not. */
  function Transacted(s: State, r: nat): (s': State)
    requires Open(s, r) && s.calls[r].phase.Prepared?
  {
    var req := s.calls[r].req;
    if req.key.Some? && KeyTaken(s.db, req.key.value) then To(s, r, if Keyed(req) then Collided else Thrown)
    else To(s, r, Committed(s.calls[r].phase.purchase)).(db := Written(s.db, req, s.calls[r].phase.purchase,
      s.calls[r].phase.event))
  }

  function Apply(s: State, step: Step): (s': State)
    requires Enabled(s, step)
  {
    match step
    case Arrive(r, req) => s.(calls := s.calls[r := Call(req, Started)])
    case LookupHit(r, p) => To(s, r, Answered(p))
    case LookupMiss(r, p, e) => To(s, r, Prepared(p, e)).(drawn := s.drawn + {p, e})
    case Transact(r) => Transacted(s, r)
    case SecondLookupHit(r, p) => To(s, r, Answered(p))
    case SecondLookupMiss(r) => To(s, r, Thrown)
    case Published(r) => To(s, r, Answered(s.calls[r].phase.purchase))
    case Broken(r) => To(s, r, Thrown)
  }

  ghost predicate IsRun(s: State, steps: seq<Step>, s': State)
    decreases steps
  {
    if steps == [] then s' == s
    else Enabled(s, steps[0]) && IsRun(Apply(s, steps[0]), steps[1..], s')
  }
}

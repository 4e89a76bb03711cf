/**
 * The whole system: purchases, their outbox and queue, the loyalty handler, its outbox and queue, and
 * cashback. Every component takes its own steps; they meet where one transaction writes two of them,
 * where a publisher sends to the broker, and where a running consumer commits its handler's effect.
 */
module Pipeline {
  import opened Json
  import opened Collections
  import opened Closure
  import opened Loyalty
  import opened LoyaltyRuns
  import Purchase
  import Outbox
  import Broker
  import Cashback
  import CashbackSafety
  import opened CashbackLineage

  datatype System = System(
    purchase: Purchase.State, purchaseOutbox: Outbox.State, purchaseQueue: Broker.State,
    loyalty: Db, badgeOutbox: Outbox.State, badgeQueue: Broker.State,
    cashback: Cashback.State)

  const Init := System(Purchase.Init, Outbox.Init, Broker.Init, EmptyDb, Outbox.Init, Broker.Init, Cashback.Init)

  datatype Config = Config(maxAttempts: nat, ownChannel: bool, env: Cashback.Env)

  predicate Sensible(cfg: Config) {
    cfg.maxAttempts >= 1 && CashbackSafety.Synchronous(cfg.env)
  }

  datatype Step =
    | PurchaseStep(p: Purchase.Step)
    | PurchaseOutboxStep(o: Outbox.Step)
    | PurchaseSend(t: nat)                             // a publisher's message reaches the broker
    | PurchaseQueueStep(b: Broker.Step)
    | LoyaltyCommit(h: nat, cat: Catalog, db: Db)      // the handler's transaction, with the configs it read
    | BadgeOutboxStep(o: Outbox.Step)
    | BadgeSend(t: nat)
    | BadgeQueueStep(b: Broker.Step)
    | CashbackCommit(h: nat)
    | CashbackRollback(h: nat)
    | CashbackStep(c: Cashback.Step)

  /** The purchase events that exist, as the loyalty service reads them. */
  function EventsIn(outbox: map<nat, Purchase.OutboxEvent>): (r: Events) {
    map e | e in outbox :: PurchaseEvent(e, outbox[e].user, outbox[e].amount)
  }

  function Below(n: nat): (r: set<nat>)
    ensures forall id: nat :: id in r <==> id < n
  {
    if n == 0 then {} else Below(n - 1) + {n - 1}
  }

  /** Rows that a domain transaction adds to an outbox. */
  function WithRows(o: Outbox.State, ids: set<nat>): (o': Outbox.State) {
    if ids == {} then o
    else o.(rows := o.rows + map id: nat | id in ids :: Outbox.Row(Outbox.Pending, 0),
            log := o.log + map id: nat | id in ids :: Outbox.History(0, 0))
  }

  predicate Sending(o: Outbox.State, t: nat) {
    t in o.tasks && o.tasks[t].Claimed?
  }

  ghost predicate Enabled(cfg: Config, s: System, step: Step) {
    match step
    case PurchaseStep(p) => Purchase.Enabled(s.purchase, p)
    case PurchaseOutboxStep(o) =>
      && !o.Insert? && Outbox.Enabled(s.purchaseOutbox, o, cfg.maxAttempts)
      && (o.BrokerConfirms? ==> s.purchaseOutbox.tasks[o.t].id in s.purchaseQueue.published)
    case PurchaseSend(t) => Sending(s.purchaseOutbox, t)
    case PurchaseQueueStep(b) =>
      && !b.Publish? && Broker.Enabled(s.purchaseQueue, b)
      && (b.Succeed? ==> s.purchaseQueue.handlers[b.h].msg in s.loyalty.processed)
    case LoyaltyCommit(h, cat, db) =>
      && ValidCatalog(cat) && h in s.purchaseQueue.handlers
      && var e := s.purchaseQueue.handlers[h].msg;
         e in s.purchase.db.outbox && Handled(cat, s.loyalty, EventsIn(s.purchase.db.outbox)[e], db)
    case BadgeOutboxStep(o) =>
      && !o.Insert? && Outbox.Enabled(s.badgeOutbox, o, cfg.maxAttempts)
      && (o.BrokerConfirms? ==> IsBadge(s.loyalty.outbox, s.badgeOutbox.tasks[o.t].id) ==>
         s.badgeOutbox.tasks[o.t].id in s.badgeQueue.published)
    case BadgeSend(t) => Sending(s.badgeOutbox, t) && IsBadge(s.loyalty.outbox, s.badgeOutbox.tasks[t].id)
    case BadgeQueueStep(b) =>
      && !b.Publish? && Broker.Enabled(s.badgeQueue, b)
      && (b.Succeed? ==> s.badgeQueue.handlers[b.h].msg in s.cashback.processed)
    case CashbackCommit(h) => h in s.badgeQueue.handlers && IsBadge(s.loyalty.outbox, s.badgeQueue.handlers[h].msg)
    case CashbackRollback(h) =>
      h in s.badgeQueue.handlers && IsBadge(s.loyalty.outbox, s.badgeQueue.handlers[h].msg) &&
        s.badgeQueue.handlers[h].msg !in s.cashback.processed
    case CashbackStep(c) => !IsCommitOrRollback(c) && Cashback.Enabled(cfg.env, s.cashback, c)
  }

  /** A purchase transaction writes its outbox rows too. */
  function AfterPurchase(s: System, p: Purchase.State): (s': System) {
    s.(purchase := p, purchaseOutbox := WithRows(s.purchaseOutbox, p.db.outbox.Keys - s.purchase.db.outbox.Keys))
  }

  function AfterLoyalty(s: System, db: Db): (s': System) {
    s.(loyalty := db, badgeOutbox := WithRows(s.badgeOutbox, Below(|db.outbox|) - Below(|s.loyalty.outbox|)))
  }

  ghost function Apply(cfg: Config, s: System, step: Step): (s': System)
    requires Enabled(cfg, s, step)
  {
    match step
    case PurchaseStep(p) => AfterPurchase(s, Purchase.Apply(s.purchase, p))
    case PurchaseOutboxStep(o) => s.(purchaseOutbox := Outbox.Apply(s.purchaseOutbox, o, cfg.maxAttempts))
    case PurchaseSend(t) => s.(purchaseQueue := Broker.Apply(cfg.ownChannel, s.purchaseQueue,
      Broker.Publish(s.purchaseOutbox.tasks[t].id)))
    case PurchaseQueueStep(b) => s.(purchaseQueue := Broker.Apply(cfg.ownChannel, s.purchaseQueue, b))
    case LoyaltyCommit(h, cat, db) => AfterLoyalty(s, db)
    case BadgeOutboxStep(o) => s.(badgeOutbox := Outbox.Apply(s.badgeOutbox, o, cfg.maxAttempts))
    case BadgeSend(t) => s.(badgeQueue := Broker.Apply(cfg.ownChannel, s.badgeQueue,
      Broker.Publish(s.badgeOutbox.tasks[t].id)))
    case BadgeQueueStep(b) => s.(badgeQueue := Broker.Apply(cfg.ownChannel, s.badgeQueue, b))
    case CashbackCommit(h) =>
      s.(cashback := Cashback.DoHandleBadge(cfg.env, s.cashback,
        BadgeEventOf(s.loyalty.outbox, s.badgeQueue.handlers[h].msg)))
    case CashbackRollback(h) =>
      s.(cashback := Cashback.DoRollback(s.cashback, BadgeEventOf(s.loyalty.outbox, s.badgeQueue.handlers[h].msg)))
    case CashbackStep(c) => s.(cashback := Cashback.Apply(cfg.env, s.cashback, c))
  }

  ghost predicate IsRun(cfg: Config, s: System, steps: seq<Step>, s': System)
    decreases steps
  {
    if steps == [] then s' == s
    else Enabled(cfg, s, steps[0]) && IsRun(cfg, Apply(cfg, s, steps[0]), steps[1..], s')
  }
}

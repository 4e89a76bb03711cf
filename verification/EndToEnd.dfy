/** What every run of the composed system keeps, and what it means for the users' money. */
module EndToEnd {
  import opened Json
  import opened Collections
  import opened Closure
  import opened Loyalty
  import opened LoyaltyRuns
  import Purchase
  import PurchaseSafety
  import Outbox
  import OutboxSafety
  import Broker
  import BrokerSafety
  import Cashback
  import CashbackSafety
  import opened CashbackLineage
  import opened Pipeline

  // ---------------------------------------------------------------- an outbox feeding a queue

  /** The outbox holds exactly the given ids and the queue has seen no others. */
  ghost predicate Feeds(ids: set<nat>, o: Outbox.State, q: Broker.State, maxAttempts: nat) {
    && o.rows.Keys == ids && OutboxSafety.Inv(o, maxAttempts)
    && q.published <= ids && BrokerSafety.KnownOnly(q)
  }

  lemma FeedsInsert(ids: set<nat>, o: Outbox.State, q: Broker.State, maxAttempts: nat, more: set<nat>)
    requires Feeds(ids, o, q, maxAttempts) && maxAttempts >= 1 && ids !! more
    ensures Feeds(ids + more, WithRows(o, more), q, maxAttempts)
  {
    var o' := WithRows(o, more);
    assert o'.rows.Keys == ids + more && o'.log.Keys == ids + more;
    forall t | t in o'.tasks
      ensures OutboxSafety.TaskOk(o', o'.tasks[t], maxAttempts) &&
              OutboxSafety.OwnerLogOk(o'.tasks[t], o'.log[o'.tasks[t].id])
    {
      assert OutboxSafety.TaskOk(o, o.tasks[t], maxAttempts);
    }
  }

  lemma FeedsOutboxStep(ids: set<nat>, o: Outbox.State, q: Broker.State, maxAttempts: nat, step: Outbox.Step)
    requires Feeds(ids, o, q, maxAttempts) && maxAttempts >= 1 && !step.Insert? && Outbox.Enabled(o, step, maxAttempts)
    ensures Feeds(ids, Outbox.Apply(o, step, maxAttempts), q, maxAttempts)
  {
    OutboxSafety.StepPreservesInv(o, step, maxAttempts);
    assert forall t | t in o.tasks :: OutboxSafety.TaskOk(o, o.tasks[t], maxAttempts);
  }

  lemma FeedsQueueStep(ids: set<nat>, o: Outbox.State, q: Broker.State, maxAttempts: nat, own: bool, step: Broker.Step)
    requires Feeds(ids, o, q, maxAttempts) && Broker.Enabled(q, step)
    requires step.Publish? ==> step.m in ids
    ensures Feeds(ids, o, Broker.Apply(own, q, step), maxAttempts)
  {
    BrokerSafety.KnownOnlyKept(own, q, step);
  }

  // ---------------------------------------------------------------- loyalty between two outboxes

  /** Exact counters and single announcements, whatever catalogs the handlers read. */
  ghost predicate LoyaltyInv(events: Events, db: Db) {
    && WellKeyed(events) && db.processed <= events.Keys
    && (forall u :: ExactStats(events, db, u))
    && AnnouncedOnce(db)
  }

  lemma LoyaltyCommitted(cat: Catalog, events: Events, db: Db, e: nat, db': Db)
    requires ValidCatalog(cat) && LoyaltyInv(events, db) && e in events && Handled(cat, db, events[e], db')
    ensures LoyaltyInv(events, db') && db.outbox <= db'.outbox
  {
    if e !in db.processed {
      forall u ensures ExactStats(events, db', u) {
        StatsPreserved(cat, events, db, events[e], db', u);
      }
      AnnouncementsPreserved(cat, db, events[e], db');
    }
  }

  /** New purchases do not disturb what was computed from the processed ones. */
  lemma LoyaltySeesMoreEvents(events: Events, more: Events, db: Db)
    requires LoyaltyInv(events, db) && WellKeyed(more) && forall e | e in events :: e in more && more[e] == events[e]
    ensures LoyaltyInv(more, db)
  {
    forall u ensures ExactStats(more, db, u) {
      assert ExactStats(events, db, u);
      assert EventsOf(more, db.processed, u) == EventsOf(events, db.processed, u);
      assert (map e: nat | e in EventsOf(more, db.processed, u) :: more[e].amount as int) ==
             (map e: nat | e in EventsOf(events, db.processed, u) :: events[e].amount as int);
    }
  }

  // ---------------------------------------------------------------- the whole system

  ghost predicate Inv(cfg: Config, s: System) {
    && PurchaseSafety.Inv(s.purchase)
    && Feeds(s.purchase.db.outbox.Keys, s.purchaseOutbox, s.purchaseQueue, cfg.maxAttempts)
    && LoyaltyInv(EventsIn(s.purchase.db.outbox), s.loyalty)
    && Feeds(Below(|s.loyalty.outbox|), s.badgeOutbox, s.badgeQueue, cfg.maxAttempts)
    && CashbackInv(s.loyalty.outbox, s.cashback)
  }

  /** Purchase steps only ever add events. */
  lemma PurchaseOutboxGrows(p: Purchase.State, step: Purchase.Step)
    requires PurchaseSafety.Inv(p) && Purchase.Enabled(p, step)
    ensures var p' := Purchase.Apply(p, step);
            forall e | e in p.db.outbox :: e in p'.db.outbox && p'.db.outbox[e] == p.db.outbox[e]
  {
    if step.Transact? {
      assert PurchaseSafety.CallOk(p, p.calls[step.r]);
    }
  }

  lemma PurchaseFeeds(p: Purchase.State, step: Purchase.Step, o: Outbox.State, q: Broker.State, maxAttempts: nat)
    requires PurchaseSafety.Inv(p) && Purchase.Enabled(p, step) && maxAttempts >= 1 &&
             Feeds(p.db.outbox.Keys, o, q, maxAttempts)
    ensures var p' := Purchase.Apply(p, step);
            Feeds(p'.db.outbox.Keys, WithRows(o, p'.db.outbox.Keys - p.db.outbox.Keys), q, maxAttempts)
  {
    var was, now := p.db.outbox.Keys, Purchase.Apply(p, step).db.outbox.Keys;
    PurchaseOutboxGrows(p, step);
    FeedsInsert(was, o, q, maxAttempts, now - was);
    assert was + (now - was) == now;
  }

  lemma PurchaseStepPreserves(cfg: Config, s: System, p: Purchase.Step)
    requires Sensible(cfg) && Inv(cfg, s) && Purchase.Enabled(s.purchase, p)
    ensures Inv(cfg, AfterPurchase(s, Purchase.Apply(s.purchase, p)))
  {
    PurchaseSafety.StepPreservesInv(s.purchase, p);
    PurchaseOutboxGrows(s.purchase, p);
    PurchaseFeeds(s.purchase, p, s.purchaseOutbox, s.purchaseQueue, cfg.maxAttempts);
    LoyaltySeesMoreEvents(EventsIn(s.purchase.db.outbox), EventsIn(Purchase.Apply(s.purchase, p).db.outbox), s.loyalty);
  }

  lemma LoyaltyFeeds(m: nat, n: nat, o: Outbox.State, q: Broker.State, maxAttempts: nat)
    requires m <= n && maxAttempts >= 1 && Feeds(Below(m), o, q, maxAttempts)
    ensures Feeds(Below(n), WithRows(o, Below(n) - Below(m)), q, maxAttempts)
  {
    FeedsInsert(Below(m), o, q, maxAttempts, Below(n) - Below(m));
    assert Below(m) + (Below(n) - Below(m)) == Below(n);
  }

  lemma LoyaltyCommitPreserves(cfg: Config, s: System, e: nat, cat: Catalog, db: Db)
    requires Sensible(cfg) && Inv(cfg, s) && ValidCatalog(cat)
    requires e in s.purchase.db.outbox && Handled(cat, s.loyalty, EventsIn(s.purchase.db.outbox)[e], db)
    ensures Inv(cfg, AfterLoyalty(s, db))
  {
    LoyaltyCommitted(cat, EventsIn(s.purchase.db.outbox), s.loyalty, e, db);
    LoyaltyFeeds(|s.loyalty.outbox|, |db.outbox|, s.badgeOutbox, s.badgeQueue, cfg.maxAttempts);
    ProcessedFromMore(s.loyalty.outbox, db.outbox, s.cashback.processed);
  }

  lemma PurchaseQueuePreserves(cfg: Config, s: System, b: Broker.Step)
    requires Inv(cfg, s) && Broker.Enabled(s.purchaseQueue, b) && (b.Publish? ==> b.m in s.purchaseOutbox.rows)
    ensures Inv(cfg, s.(purchaseQueue := Broker.Apply(cfg.ownChannel, s.purchaseQueue, b)))
  {
    FeedsQueueStep(s.purchase.db.outbox.Keys, s.purchaseOutbox, s.purchaseQueue, cfg.maxAttempts, cfg.ownChannel, b);
  }

  lemma BadgeQueuePreserves(cfg: Config, s: System, b: Broker.Step)
    requires Inv(cfg, s) && Broker.Enabled(s.badgeQueue, b) && (b.Publish? ==> b.m in s.badgeOutbox.rows)
    ensures Inv(cfg, s.(badgeQueue := Broker.Apply(cfg.ownChannel, s.badgeQueue, b)))
  {
    FeedsQueueStep(Below(|s.loyalty.outbox|), s.badgeOutbox, s.badgeQueue, cfg.maxAttempts, cfg.ownChannel, b);
  }

  lemma OutboxStepPreserves(cfg: Config, s: System, o: Outbox.Step)
    requires Sensible(cfg) && Inv(cfg, s) && !o.Insert?
    ensures Outbox.Enabled(s.purchaseOutbox, o, cfg.maxAttempts) ==>
              Inv(cfg, s.(purchaseOutbox := Outbox.Apply(s.purchaseOutbox, o, cfg.maxAttempts)))
    ensures Outbox.Enabled(s.badgeOutbox, o, cfg.maxAttempts) ==>
              Inv(cfg, s.(badgeOutbox := Outbox.Apply(s.badgeOutbox, o, cfg.maxAttempts)))
  {
    if Outbox.Enabled(s.purchaseOutbox, o, cfg.maxAttempts) {
      FeedsOutboxStep(s.purchase.db.outbox.Keys, s.purchaseOutbox, s.purchaseQueue, cfg.maxAttempts, o);
    }
    if Outbox.Enabled(s.badgeOutbox, o, cfg.maxAttempts) {
      FeedsOutboxStep(Below(|s.loyalty.outbox|), s.badgeOutbox, s.badgeQueue, cfg.maxAttempts, o);
    }
  }

  lemma StepPreservesInv(cfg: Config, s: System, step: Step)
    requires Sensible(cfg) && Inv(cfg, s) && Enabled(cfg, s, step)
    ensures Inv(cfg, Apply(cfg, s, step))
  {
    match step
    case PurchaseStep(p) => PurchaseStepPreserves(cfg, s, p);
    case PurchaseOutboxStep(o) => OutboxStepPreserves(cfg, s, o);
    case PurchaseSend(t) =>
      assert OutboxSafety.TaskOk(s.purchaseOutbox, s.purchaseOutbox.tasks[t], cfg.maxAttempts);
      PurchaseQueuePreserves(cfg, s, Broker.Publish(s.purchaseOutbox.tasks[t].id));
    case PurchaseQueueStep(b) => PurchaseQueuePreserves(cfg, s, b);
    case LoyaltyCommit(h, cat, db) => LoyaltyCommitPreserves(cfg, s, s.purchaseQueue.handlers[h].msg, cat, db);
    case BadgeOutboxStep(o) => OutboxStepPreserves(cfg, s, o);
    case BadgeSend(t) =>
      assert OutboxSafety.TaskOk(s.badgeOutbox, s.badgeOutbox.tasks[t], cfg.maxAttempts);
      BadgeQueuePreserves(cfg, s, Broker.Publish(s.badgeOutbox.tasks[t].id));
    case BadgeQueueStep(b) => BadgeQueuePreserves(cfg, s, b);
    case CashbackCommit(h) => CashbackCommitted(cfg.env, s.loyalty.outbox, s.cashback, s.badgeQueue.handlers[h].msg);
    case CashbackRollback(h) => CashbackRolledBack(s.loyalty.outbox, s.cashback,
      BadgeEventOf(s.loyalty.outbox, s.badgeQueue.handlers[h].msg));
    case CashbackStep(c) => CashbackStepped(cfg.env, s.loyalty.outbox, s.cashback, c);
  }

  lemma InitInv(cfg: Config)
    requires Sensible(cfg)
    ensures Inv(cfg, Init)
  {
    LoyaltyRuns.InitInv(Catalog((_: Json) => None, [], []), map[]);
    assert EventsIn(map[]) == map[];
  }

  lemma {:induction false} RunPreservesInv(cfg: Config, s: System, steps: seq<Step>, s': System)
    requires Sensible(cfg) && Inv(cfg, s) && IsRun(cfg, s, steps, s')
    ensures Inv(cfg, s')
    decreases steps
  {
    if steps != [] {
      StepPreservesInv(cfg, s, steps[0]);
      RunPreservesInv(cfg, Apply(cfg, s, steps[0]), steps[1..], s');
    }
  }

  // ---------------------------------------------------------------- main results

  lemma Reached(cfg: Config, steps: seq<Step>, s: System)
    requires Sensible(cfg) && IsRun(cfg, Init, steps, s)
    ensures PurchaseSafety.OneToOne(s.purchase.db)
    ensures LoyaltyInv(EventsIn(s.purchase.db.outbox), s.loyalty)
    ensures CashbackInv(s.loyalty.outbox, s.cashback)
  {
    InitInv(cfg);
    RunPreservesInv(cfg, Init, steps, s);
  }

  /** Exactly-once effect: the counters of a user are the count and the sum of the processed purchases. */
  lemma ExactlyOnceEffect(cfg: Config, steps: seq<Step>, s: System, user: string)
    requires Sensible(cfg) && IsRun(cfg, Init, steps, s)
    ensures ExactStats(EventsIn(s.purchase.db.outbox), s.loyalty, user)
    ensures PurchaseSafety.OneToOne(s.purchase.db) && s.loyalty.processed <= s.purchase.db.outbox.Keys
  {
    Reached(cfg, steps, s);
  }

  /** The money sent to a user. */
  ghost function PaidTo(ledger: seq<Cashback.Payment>, user: string): (r: int) {
    Total<nat>(map i: nat | i < |ledger| && ledger[i].payee == user :: ledger[i].amount as int)
  }

  /** The rewards in a user's BadgeUnlocked events. */
  ghost function RewardsOf(outbox: seq<Announcement>, user: string): (r: int) {
    Total<nat>(map i: nat | i < |outbox| && outbox[i].BadgeUnlocked? && outbox[i].payee == user ::
      outbox[i].reward as int)
  }

  /** The payment pays the reward of that event to the user it names. */
  predicate Settles(outbox: seq<Announcement>, id: nat, p: Cashback.Payment) {
    IsBadge(outbox, id) && outbox[id].payee == p.payee && outbox[id].badgeName == p.badge &&
      outbox[id].reward == p.amount
  }

  ghost predicate SettlesSome(outbox: seq<Announcement>, p: Cashback.Payment) {
    exists id: nat :: Settles(outbox, id, p)
  }

  lemma EveryPaymentHasItsEvent(outbox: seq<Announcement>, c: Cashback.State, i: nat)
    requires CashbackInv(outbox, c) && i < |c.ledger|
    ensures SettlesSome(outbox, c.ledger[i])
  {
    var p := c.ledger[i];
    assert CashbackSafety.PaymentOk(c.rows, p);
    var id :| RowFromEvent(c.processed, c.rows[p.tx], id);
    assert Settles(outbox, id, p);
  }

  lemma PaidWithinRewards(outbox: seq<Announcement>, c: Cashback.State, user: string)
    requires CashbackInv(outbox, c)
    ensures PaidTo(c.ledger, user) <= RewardsOf(outbox, user)
  {
    forall i: nat | i < |c.ledger| ensures SettlesSome(outbox, c.ledger[i]) {
      EveryPaymentHasItsEvent(outbox, c, i);
    }
    var event := map i: nat | i < |c.ledger| :: (var id: nat :| Settles(outbox, id, c.ledger[i]); id);
    var paid := map i: nat | i < |c.ledger| && c.ledger[i].payee == user :: c.ledger[i].amount as int;
    var owed := map i: nat | i < |outbox| && outbox[i].BadgeUnlocked? && outbox[i].payee == user ::
      outbox[i].reward as int;
    forall i, j | i in paid && j in paid && event[i] == event[j] ensures i == j {
      assert CashbackSafety.PaymentOk(c.rows, c.ledger[i]) && CashbackSafety.PaymentOk(c.rows, c.ledger[j]);
    }
    TotalInjective<nat>(paid, owed, event);
  }

  predicate OneEventPerBadge(outbox: seq<Announcement>) {
    forall i, j | 0 <= i < j < |outbox| && outbox[i].BadgeUnlocked? && outbox[j].BadgeUnlocked? &&
      outbox[i].payee == outbox[j].payee ::
      outbox[i].badgeId != outbox[j].badgeId
  }

  ghost predicate EachSettlesAnEvent(outbox: seq<Announcement>, ledger: seq<Cashback.Payment>) {
    forall p | p in ledger :: SettlesSome(outbox, p)
  }

  /**
   * Over every run of purchases, publishers, duplicated, reordered and lost deliveries, handler failures,
   * jobs, retries and scans: a user is never paid more than the rewards in the user's BadgeUnlocked
   * events, there is at most one such event per badge id, and each payment settles one of them.
   */
  lemma NeverOverpaid(cfg: Config, steps: seq<Step>, s: System, user: string)
    requires Sensible(cfg) && IsRun(cfg, Init, steps, s)
    ensures PaidTo(s.cashback.ledger, user) <= RewardsOf(s.loyalty.outbox, user)
    ensures OneEventPerBadge(s.loyalty.outbox)
    ensures EachSettlesAnEvent(s.loyalty.outbox, s.cashback.ledger)
  {
    Reached(cfg, steps, s);
    PaidWithinRewards(s.loyalty.outbox, s.cashback, user);
    AllSettle(s.loyalty.outbox, s.cashback);
    AnnouncedOncePerBadge(s.loyalty);
  }

  lemma AllSettle(outbox: seq<Announcement>, c: Cashback.State)
    requires CashbackInv(outbox, c)
    ensures EachSettlesAnEvent(outbox, c.ledger)
  {
    forall p | p in c.ledger ensures SettlesSome(outbox, p) {
      var i: nat :| i < |c.ledger| && c.ledger[i] == p;
      EveryPaymentHasItsEvent(outbox, c, i);
    }
  }

  lemma AnnouncedOncePerBadge(db: Db)
    requires AnnouncedOnce(db)
    ensures OneEventPerBadge(db.outbox)
  {
  }

  // ---------------------------------------------------------------- with one catalog throughout

  /** Every handler of the run reads the same configs. */
  ghost predicate FixedCatalog(steps: seq<Step>, cat: Catalog) {
    forall i | 0 <= i < |steps| && steps[i].LoyaltyCommit? :: steps[i].cat == cat
  }

  ghost predicate AllBatchEqual(cat: Catalog, db: Db) {
    forall u :: BatchEqual(cat, db, u)
  }

  lemma LoyaltyUntouched(cfg: Config, s: System, step: Step)
    requires Enabled(cfg, s, step)
    ensures !step.LoyaltyCommit? ==> Apply(cfg, s, step).loyalty == s.loyalty
    ensures step.LoyaltyCommit? ==> Apply(cfg, s, step).loyalty == step.db
  {
  }

  lemma {:induction false} RunKeepsBatch(cfg: Config, s: System, steps: seq<Step>, s': System, cat: Catalog)
    requires IsRun(cfg, s, steps, s') && FixedCatalog(steps, cat) && AllBatchEqual(cat, s.loyalty)
    ensures AllBatchEqual(cat, s'.loyalty)
    decreases steps
  {
    if steps != [] {
      var step := steps[0];
      LoyaltyUntouched(cfg, s, step);
      if step.LoyaltyCommit? {
        var events := EventsIn(s.purchase.db.outbox);
        var ev := events[s.purchaseQueue.handlers[step.h].msg];
        if ev.id !in s.loyalty.processed {
          forall u ensures BatchEqual(cat, step.db, u) {
            BatchPreserved(cat, events, s.loyalty, ev, step.db, u);
          }
        }
      }
      assert FixedCatalog(steps[1..], cat);
      RunKeepsBatch(cfg, Apply(cfg, s, step), steps[1..], s', cat);
    }
  }

  /** A badge the batch evaluation at these counters grants, announced for this payment. */
  ghost predicate Earned(cat: Catalog, stats: Stats, outbox: seq<Announcement>, p: Cashback.Payment) {
    exists unlocked: set<string>, id: nat ::
      && IsLeastClosure(cat.coerce, cat.achievements, stats, {}, unlocked)
      && Settles(outbox, id, p)
      && outbox[id].badgeId in MetBadges(cat.badges, unlocked)
  }

  lemma SettledIsEarned(cat: Catalog, db: Db, p: Cashback.Payment, id: nat)
    requires Settles(db.outbox, id, p) && AnnouncedOnce(db) && BatchEqual(cat, db, p.payee)
    ensures Earned(cat, StatsOf(db.stats, p.payee), db.outbox, p)
  {
    var unlocked := AchievementsOf(db.achievements, p.payee);
    assert UserBadge(p.payee, db.outbox[id].badgeId) in db.badges;
    assert db.outbox[id].badgeId in BadgesOf(db.badges, p.payee);
    assert IsLeastClosure(cat.coerce, cat.achievements, StatsOf(db.stats, p.payee), {}, unlocked) &&
      Settles(db.outbox, id, p);
  }

  /**
   * No payout is unearned: under fixed configs the badge behind every payment is met by the achievements
   * a batch evaluation unlocks from nothing at the exact counters of the payee's processed purchases.
   */
  lemma EveryPayoutIsEarned(cfg: Config, steps: seq<Step>, s: System, cat: Catalog, i: nat)
    requires Sensible(cfg) && IsRun(cfg, Init, steps, s) && FixedCatalog(steps, cat) && i < |s.cashback.ledger|
    ensures var p := s.cashback.ledger[i];
            var events := EventsIn(s.purchase.db.outbox);
            var stats := Stats(|EventsOf(events, s.loyalty.processed, p.payee)|,
              SpendOf(events, s.loyalty.processed, p.payee));
            Earned(cat, stats, s.loyalty.outbox, p)
  {
    Reached(cfg, steps, s);
    RunKeepsBatch(cfg, Init, steps, s, cat);
    EveryPaymentHasItsEvent(s.loyalty.outbox, s.cashback, i);
    var p := s.cashback.ledger[i];
    var id: nat :| Settles(s.loyalty.outbox, id, p);
    SettledIsEarned(cat, s.loyalty, p, id);
    assert ExactStats(EventsIn(s.purchase.db.outbox), s.loyalty, p.payee);
  }
}

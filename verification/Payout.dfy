/** A run of the composed system that pays: the bound on what a user can be paid is attained. */
module Payout {
  import opened Json
  import opened Collections
  import opened Closure
  import opened Loyalty
  import opened Pipeline
  import opened EndToEnd
  import Purchase
  import Outbox
  import Broker
  import Cashback
  import CashbackLineage

  // ---------------------------------------------------------------- runs

  lemma {:induction false} Concat(cfg: Config, s: System, a: seq<Step>, mid: System, b: seq<Step>, s': System)
    requires IsRun(cfg, s, a, mid) && IsRun(cfg, mid, b, s')
    ensures IsRun(cfg, s, a + b, s')
    decreases a
  {
    if a == [] {
      assert a + b == b;
    } else {
      assert (a + b)[1..] == a[1..] + b;
      Concat(cfg, Apply(cfg, s, a[0]), a[1..], mid, b, s');
    }
  }

  lemma One(cfg: Config, s: System, step: Step)
    requires Enabled(cfg, s, step)
    ensures IsRun(cfg, s, [step], Apply(cfg, s, step))
  {
    assert [step][1..] == [];
  }

  // ---------------------------------------------------------------- the components along the way

  /** Who buys, for how much, and what the badge is worth. */
  datatype Case = Case(user: string, amount: nat, reward: nat)

  function Order(k: Case): (r: Purchase.Request) {
    Purchase.Request(k.user, k.amount, None)
  }

  function Bought(k: Case): (r: Purchase.State) {
    Purchase.State(
      Purchase.Db(map[0 := Purchase.PurchaseRow(k.user, k.amount, None)],
                  map[1 := Purchase.OutboxEvent(k.user, 0, k.amount)]),
      map[0 := Purchase.Call(Order(k), Purchase.Committed(0))], {0, 1})
  }

  function Ready(id: nat): (o: Outbox.State) {
    Outbox.State(map[id := Outbox.Row(Outbox.Pending, 0)], map[id := Outbox.History(0, 0)], map[])
  }

  function Held(id: nat): (o: Outbox.State) {
    Outbox.State(map[id := Outbox.Row(Outbox.Publishing, 0)], map[id := Outbox.History(0, 0)],
                 map[0 := Outbox.Claimed(id, Outbox.Row(Outbox.Publishing, 0))])
  }

  function Queued(id: nat): (q: Broker.State) {
    Broker.Init.(copies := map[0 := Broker.Copy(id, 0, Broker.Main)], nextCopy := 1, published := {id})
  }

  /** Both announcements of the first purchase, ready to be published. */
  const BothReady := Outbox.State(
    map[0 := Outbox.Row(Outbox.Pending, 0), 1 := Outbox.Row(Outbox.Pending, 0)],
    map[0 := Outbox.History(0, 0), 1 := Outbox.History(0, 0)], map[])

  const BadgeHeld := Outbox.State(
    map[0 := Outbox.Row(Outbox.Pending, 0), 1 := Outbox.Row(Outbox.Publishing, 0)],
    map[0 := Outbox.History(0, 0), 1 := Outbox.History(0, 0)],
    map[0 := Outbox.Claimed(1, Outbox.Row(Outbox.Publishing, 0))])

  /** At least one purchase. */
  const FirstRule := Obj(map["type" := Str("COUNT"), "operator" := Str("GTE"), "value" := Num(Finite(1.0))])

  /** An achievement for the first purchase, and a badge that asks for it. */
  function Config1(k: Case): (r: Catalog) {
    Catalog(
      (_: Json) => None, [AchievementConfig("a", "A", FirstRule)], [BadgeConfig("b", "B", 1, ["a"], k.reward)])
  }

  function Counted(k: Case): (r: Db) {
    Db(
      map[k.user := Stats(1, k.amount)], [UserAchievement(k.user, "a")], [UserBadge(k.user, "b")], {1},
      [AchievementUnlocked("a", "A", k.user), BadgeUnlocked("b", "B", k.reward, k.user)])
  }

  // ---------------------------------------------------------------- the run, stretch by stretch

  function Asked(k: Case): (r: Purchase.State) {
    Purchase.State(Purchase.Init.db, map[0 := Purchase.Call(Order(k), Purchase.Started)], {})
  }

  function Drawn(k: Case): (r: Purchase.State) {
    Purchase.State(Purchase.Init.db, map[0 := Purchase.Call(Order(k), Purchase.Prepared(0, 1))], {0, 1})
  }

  lemma OrderTaken(k: Case, cfg: Config) returns (steps: seq<Step>)
    ensures IsRun(cfg, Init, steps, Init.(purchase := Drawn(k)))
  {
    var s1 := Init.(purchase := Asked(k));
    One(cfg, Init, PurchaseStep(Purchase.Arrive(0, Order(k))));
    assert Purchase.Apply(Purchase.Init, Purchase.Arrive(0, Order(k))) == Asked(k);
    One(cfg, s1, PurchaseStep(Purchase.LookupMiss(0, 0, 1)));
    assert Purchase.Apply(Asked(k), Purchase.LookupMiss(0, 0, 1)) == Drawn(k);
    Concat(cfg, Init, [PurchaseStep(Purchase.Arrive(0, Order(k)))], s1, [PurchaseStep(Purchase.LookupMiss(0, 0, 1))],
      Init.(purchase := Drawn(k)));
    steps := [PurchaseStep(Purchase.Arrive(0, Order(k)))] + [PurchaseStep(Purchase.LookupMiss(0, 0, 1))];
  }

  lemma BoughtRow(k: Case)
    ensures AfterPurchase(Init.(purchase := Drawn(k)), Bought(k)) ==
            Init.(purchase := Bought(k), purchaseOutbox := Ready(1))
  {
    assert Bought(k).db.outbox.Keys == {1} && Drawn(k).db.outbox.Keys == {};
    assert Bought(k).db.outbox.Keys - Drawn(k).db.outbox.Keys == {1};
    assert WithRows(Outbox.Init, {1}) == Ready(1);
  }

  lemma Buy(k: Case, cfg: Config) returns (steps: seq<Step>)
    ensures IsRun(cfg, Init, steps, Init.(purchase := Bought(k), purchaseOutbox := Ready(1)))
  {
    steps := OrderTaken(k, cfg);
    One(cfg, Init.(purchase := Drawn(k)), PurchaseStep(Purchase.Transact(0)));
    assert Purchase.Apply(Drawn(k), Purchase.Transact(0)) == Bought(k);
    BoughtRow(k);
    Concat(cfg, Init, steps, Init.(purchase := Drawn(k)), [PurchaseStep(Purchase.Transact(0))],
      Init.(purchase := Bought(k), purchaseOutbox := Ready(1)));
    steps := steps + [PurchaseStep(Purchase.Transact(0))];
  }

  lemma ClaimsReady(id: nat, maxAttempts: nat)
    requires maxAttempts >= 1
    ensures Outbox.Enabled(Ready(id), Outbox.ReadPending(0, id), maxAttempts)
    ensures var o := Outbox.Apply(Ready(id), Outbox.ReadPending(0, id), maxAttempts);
            Outbox.Enabled(o, Outbox.Claim(0), maxAttempts) && Outbox.Apply(o, Outbox.Claim(0), maxAttempts) == Held(id)
  {
  }

  lemma PublishPurchase(cfg: Config, s: System) returns (steps: seq<Step>)
    requires cfg.maxAttempts >= 1 && s.purchaseOutbox == Ready(1) && s.purchaseQueue == Broker.Init
    ensures IsRun(cfg, s, steps, s.(purchaseOutbox := Held(1), purchaseQueue := Broker.DoDeliver(Queued(1), 0, 0)))
  {
    var o := Outbox.Apply(Ready(1), Outbox.ReadPending(0, 1), cfg.maxAttempts);
    var s1, s2 := s.(purchaseOutbox := o), s.(purchaseOutbox := Held(1));
    var s3, s4 := s2.(purchaseQueue := Queued(1)), s2.(purchaseQueue := Broker.DoDeliver(Queued(1), 0, 0));
    ClaimsReady(1, cfg.maxAttempts);
    One(cfg, s, PurchaseOutboxStep(Outbox.ReadPending(0, 1)));
    One(cfg, s1, PurchaseOutboxStep(Outbox.Claim(0)));
    One(cfg, s2, PurchaseSend(0));
    assert Broker.Apply(cfg.ownChannel, Broker.Init, Broker.Publish(1)) == Queued(1);
    One(cfg, s3, PurchaseQueueStep(Broker.Deliver(0, 0)));
    steps := [PurchaseOutboxStep(Outbox.ReadPending(0, 1))] + [PurchaseOutboxStep(Outbox.Claim(0))];
    Concat(cfg, s, [PurchaseOutboxStep(Outbox.ReadPending(0, 1))], s1, [PurchaseOutboxStep(Outbox.Claim(0))], s2);
    Concat(cfg, s, steps, s2, [PurchaseSend(0)], s3);
    Concat(cfg, s, steps + [PurchaseSend(0)], s3, [PurchaseQueueStep(Broker.Deliver(0, 0))], s4);
    steps := steps + [PurchaseSend(0)] + [PurchaseQueueStep(Broker.Deliver(0, 0))];
  }

  lemma ClaimsBadge(maxAttempts: nat)
    requires maxAttempts >= 1
    ensures Outbox.Enabled(BothReady, Outbox.ReadPending(0, 1), maxAttempts)
    ensures var o := Outbox.Apply(BothReady, Outbox.ReadPending(0, 1), maxAttempts);
            Outbox.Enabled(o, Outbox.Claim(0), maxAttempts) &&
              Outbox.Apply(o, Outbox.Claim(0), maxAttempts) == BadgeHeld
  {
  }

  lemma PublishBadge(k: Case, cfg: Config, s: System) returns (steps: seq<Step>)
    requires cfg.maxAttempts >= 1 && s.badgeOutbox == BothReady && s.badgeQueue == Broker.Init &&
             s.loyalty == Counted(k)
    ensures IsRun(cfg, s, steps, s.(badgeOutbox := BadgeHeld, badgeQueue := Queued(1)))
  {
    var o := Outbox.Apply(BothReady, Outbox.ReadPending(0, 1), cfg.maxAttempts);
    var s1, s2 := s.(badgeOutbox := o), s.(badgeOutbox := BadgeHeld);
    var s3 := s2.(badgeQueue := Queued(1));
    ClaimsBadge(cfg.maxAttempts);
    One(cfg, s, BadgeOutboxStep(Outbox.ReadPending(0, 1)));
    One(cfg, s1, BadgeOutboxStep(Outbox.Claim(0)));
    One(cfg, s2, BadgeSend(0));
    assert Broker.Apply(cfg.ownChannel, Broker.Init, Broker.Publish(1)) == Queued(1);
    steps := [BadgeOutboxStep(Outbox.ReadPending(0, 1))] + [BadgeOutboxStep(Outbox.Claim(0))];
    Concat(cfg, s, [BadgeOutboxStep(Outbox.ReadPending(0, 1))], s1, [BadgeOutboxStep(Outbox.Claim(0))], s2);
    Concat(cfg, s, steps, s2, [BadgeSend(0)], s3);
    steps := steps + [BadgeSend(0)];
  }

  lemma DeliverBadge(cfg: Config, s: System)
    requires s.badgeQueue == Queued(1)
    ensures IsRun(cfg, s, [BadgeQueueStep(Broker.Deliver(0, 0))], s.(badgeQueue := Broker.DoDeliver(Queued(1), 0, 0)))
  {
    One(cfg, s, BadgeQueueStep(Broker.Deliver(0, 0)));
  }

  /** The rule holds after one purchase, whatever is unlocked. */
  lemma FirstRuleFires(k: Case, unlocked: set<string>)
    ensures Fires(Config1(k).coerce, Config1(k).achievements[0], Stats(1, k.amount), unlocked)
  {
  }

  lemma FirstClosure(k: Case)
    ensures IsLeastClosure(Config1(k).coerce, Config1(k).achievements, Stats(1, k.amount), {}, {"a"})
  {
    var c := Config1(k).achievements[0];
    assert forall d | d in Config1(k).achievements :: d == c;
    forall t: set<string> | Closed(Config1(k).coerce, Config1(k).achievements, Stats(1, k.amount),
      t) ensures {"a"} <= t {
      FirstRuleFires(k, t);
      assert c in Config1(k).achievements;
    }
  }

  lemma FirstAchievement(k: Case)
    ensures AchievementStep(Config1(k), EmptyDb, PurchaseEvent(1, k.user, k.amount), Counted(k))
    ensures AchievementsOf([], k.user) == {} && AchievementsOf(Counted(k).achievements, k.user) == {"a"}
  {
    assert AchievementsOf([], k.user) == {};
    assert UserAchievement(k.user, "a") in Counted(k).achievements;
    assert AchievementsOf(Counted(k).achievements, k.user) == {"a"};
    FirstClosure(k);
  }

  lemma FirstBadge(k: Case)
    ensures BadgeStep(Config1(k), EmptyDb, PurchaseEvent(1, k.user, k.amount), Counted(k))
    ensures BadgesOf([], k.user) == {} && BadgesOf(Counted(k).badges, k.user) == {"b"}
  {
    FirstAchievement(k);
    assert BadgesOf([], k.user) == {};
    assert UserBadge(k.user, "b") in Counted(k).badges;
    assert BadgesOf(Counted(k).badges, k.user) == {"b"};
    var badge := Config1(k).badges[0];
    assert badge in Config1(k).badges && Meets(badge, |{"a"}|, {"a"});
    assert MetBadges(Config1(k).badges, {"a"}) == {"b"};
  }

  lemma FirstNews(k: Case)
    ensures NewsStep(Config1(k), EmptyDb, PurchaseEvent(1, k.user, k.amount), Counted(k))
  {
    FirstAchievement(k);
    FirstBadge(k);
    var first, second := AchievementUnlocked("a", "A", k.user), BadgeUnlocked("b", "B", k.reward, k.user);
    assert Counted(k).outbox[0..] == Counted(k).outbox && Counted(k).outbox[0] == first &&
      Counted(k).outbox[1] == second;
    assert Elements(Counted(k).outbox) == {first, second};
    assert Config1(k).achievements[0] in Config1(k).achievements && Config1(k).badges[0] in Config1(k).badges;
    assert AchievementNews(Config1(k).achievements, k.user, {"a"}) == {first};
    assert BadgeNews(Config1(k).badges, k.user, {"b"}) == {second};
  }

  /** The first purchase of a user unlocks the achievement, and with it the badge. */
  lemma FirstPurchaseCounts(k: Case)
    ensures ValidCatalog(Config1(k)) && Handled(Config1(k), EmptyDb, PurchaseEvent(1, k.user, k.amount), Counted(k))
  {
    FirstAchievement(k);
    FirstBadge(k);
    FirstNews(k);
  }

  lemma AnnouncedRows(k: Case, s: System)
    requires s.loyalty == EmptyDb && s.badgeOutbox == Outbox.Init
    ensures AfterLoyalty(s, Counted(k)) == s.(loyalty := Counted(k), badgeOutbox := BothReady)
  {
    assert Below(2) - Below(0) == {0, 1};
    assert WithRows(Outbox.Init, {0, 1}) == BothReady;
  }

  lemma Count(k: Case, cfg: Config, s: System)
    requires s.purchase == Bought(k) && s.purchaseQueue == Broker.DoDeliver(Queued(1), 0, 0)
    requires s.loyalty == EmptyDb && s.badgeOutbox == Outbox.Init
    ensures IsRun(cfg, s, [LoyaltyCommit(0, Config1(k), Counted(k))],
            s.(loyalty := Counted(k), badgeOutbox := BothReady))
  {
    FirstPurchaseCounts(k);
    assert EventsIn(s.purchase.db.outbox)[1] == PurchaseEvent(1, k.user, k.amount);
    One(cfg, s, LoyaltyCommit(0, Config1(k), Counted(k)));
    AnnouncedRows(k, s);
  }

  function Reward(k: Case): (r: Cashback.BadgeEvent) {
    Cashback.BadgeEvent(1, k.user, "B", Some(k.reward))
  }

  lemma HandleBadge(k: Case, cfg: Config, s: System)
    requires s.loyalty == Counted(k) && s.badgeQueue == Broker.DoDeliver(Queued(1), 0, 0) && s.cashback == Cashback.Init
    ensures IsRun(cfg, s, [CashbackCommit(0)],
            s.(cashback := Cashback.DoHandleBadge(cfg.env, Cashback.Init, Reward(k))))
  {
    assert CashbackLineage.BadgeEventOf(Counted(k).outbox, 1) == Reward(k);
    One(cfg, s, CashbackCommit(0));
  }

  /** The job is started and the row claimed. */
  lemma ClaimReward(k: Case, cfg: Config, s: System) returns (steps: seq<Step>, c: Cashback.State)
    requires s.cashback == Cashback.DoHandleBadge(cfg.env, Cashback.Init, Reward(k))
    ensures IsRun(cfg, s, steps, s.(cashback := c)) && c.ledger == [] && 0 in c.workers && c.workers[0].alive
    ensures c.workers[0].phase == Cashback.Claimed && c.workers[0].tx == 0 && c.workers[0].payee == k.user
    ensures c.workers[0].snap.badge == "B" && c.workers[0].snap.amount == k.reward
  {
    var c2 := Cashback.DoStartJob(s.cashback, 0, 0);
    c := Cashback.DoClaim(c2, 0);
    One(cfg, s, CashbackStep(Cashback.StartJob(0, 0)));
    One(cfg, s.(cashback := c2), CashbackStep(Cashback.Claim(0)));
    Concat(cfg, s, [CashbackStep(Cashback.StartJob(0, 0))], s.(cashback := c2), [CashbackStep(Cashback.Claim(0))],
      s.(cashback := c));
    steps := [CashbackStep(Cashback.StartJob(0, 0))] + [CashbackStep(Cashback.Claim(0))];
  }

  /** The transfer is accepted. */
  lemma PayReward(k: Case, cfg: Config, s: System) returns (c: Cashback.State)
    requires 0 in s.cashback.workers && s.cashback.workers[0].alive && s.cashback.workers[0].phase == Cashback.Claimed
    ensures IsRun(cfg, s, [CashbackStep(Cashback.ProviderAccepts(0, false))], s.(cashback := c))
    ensures var wk := s.cashback.workers[0];
            c.ledger == s.cashback.ledger + [Cashback.Payment(wk.tx, wk.payee, wk.snap.badge, wk.snap.amount)]
  {
    c := Cashback.DoAccept(s.cashback, 0, false);
    One(cfg, s, CashbackStep(Cashback.ProviderAccepts(0, false)));
  }

  /** Badge event handled, job started, row claimed, transfer accepted. */
  lemma Pay(k: Case, cfg: Config, s: System) returns (steps: seq<Step>, s': System)
    requires s.loyalty == Counted(k) && s.badgeQueue == Broker.DoDeliver(Queued(1), 0, 0) && s.cashback == Cashback.Init
    ensures IsRun(cfg, s, steps, s') && s'.loyalty == Counted(k) &&
            s'.cashback.ledger == [Cashback.Payment(0, k.user, "B", k.reward)]
  {
    HandleBadge(k, cfg, s);
    var s1 := s.(cashback := Cashback.DoHandleBadge(cfg.env, Cashback.Init, Reward(k)));
    var a, c2 := ClaimReward(k, cfg, s1);
    var c3 := PayReward(k, cfg, s.(cashback := c2));
    s' := s.(cashback := c3);
    Concat(cfg, s, [CashbackCommit(0)], s1, a, s.(cashback := c2));
    Concat(cfg, s, [CashbackCommit(0)] + a, s.(cashback := c2), [CashbackStep(Cashback.ProviderAccepts(0, false))], s');
    steps := [CashbackCommit(0)] + a + [CashbackStep(Cashback.ProviderAccepts(0, false))];
  }

  lemma OnePayment(k: Case)
    ensures PaidTo([Cashback.Payment(0, k.user, "B", k.reward)], k.user) == k.reward
  {
    var none: map<nat, int> := map[];
    var ledger := [Cashback.Payment(0, k.user, "B", k.reward)];
    TotalUpdate<nat>(none, 0, k.reward as int);
    assert (map i: nat | i < |ledger| && ledger[i].payee == k.user :: ledger[i].amount as int) ==
      none[0 := k.reward as int];
  }

  lemma OneReward(k: Case)
    ensures RewardsOf(Counted(k).outbox, k.user) == k.reward
  {
    var none: map<nat, int> := map[];
    var outbox := Counted(k).outbox;
    TotalUpdate<nat>(none, 1, k.reward as int);
    assert (map i: nat | i < |outbox| && outbox[i].BadgeUnlocked? && outbox[i].payee == k.user ::
      outbox[i].reward as int) == none[1 := k.reward as int];
  }

  /** From one purchase to one payout, in every configuration: the user is paid all that was announced. */
  lemma BoundIsAttained(k: Case, cfg: Config) returns (steps: seq<Step>, s: System)
    requires Sensible(cfg)
    ensures IsRun(cfg, Init, steps, s)
    ensures PaidTo(s.cashback.ledger, k.user) == RewardsOf(s.loyalty.outbox, k.user) == k.reward
  {
    var s1 := Init.(purchase := Bought(k), purchaseOutbox := Ready(1));
    var s2 := s1.(purchaseOutbox := Held(1), purchaseQueue := Broker.DoDeliver(Queued(1), 0, 0));
    var s3 := s2.(loyalty := Counted(k), badgeOutbox := BothReady);
    var s4 := s3.(badgeOutbox := BadgeHeld, badgeQueue := Queued(1));
    var s5 := s4.(badgeQueue := Broker.DoDeliver(Queued(1), 0, 0));
    var a := Buy(k, cfg);
    var b := PublishPurchase(cfg, s1);
    Count(k, cfg, s2);
    var d := PublishBadge(k, cfg, s3);
    DeliverBadge(cfg, s4);
    var e;
    e, s := Pay(k, cfg, s5);
    Concat(cfg, Init, a, s1, b, s2);
    Concat(cfg, Init, a + b, s2, [LoyaltyCommit(0, Config1(k), Counted(k))], s3);
    steps := a + b + [LoyaltyCommit(0, Config1(k), Counted(k))];
    Concat(cfg, Init, steps, s3, d, s4);
    Concat(cfg, Init, steps + d, s4, [BadgeQueueStep(Broker.Deliver(0, 0))], s5);
    steps := steps + d + [BadgeQueueStep(Broker.Deliver(0, 0))];
    Concat(cfg, Init, steps, s5, e, s);
    steps := steps + e;
    OnePayment(k);
    OneReward(k);
  }
}

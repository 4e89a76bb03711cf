/** What every run of the loyalty handler keeps: exact counters, batch-equal unlocks, single announcements. */
module LoyaltyRuns {
  import opened Json
  import opened Rules
  import opened Collections
  import opened Closure
  import opened Loyalty

  /** All purchase events that exist, by event id. */
  type Events = map<nat, PurchaseEvent>

  ghost predicate WellKeyed(events: Events) {
    forall e | e in events :: events[e].id == e
  }

  function EventsOf(events: Events, processed: set<nat>, user: string): (r: set<nat>) {
    set e | e in processed && e in events && events[e].user == user
  }

  ghost function SpendOf(events: Events, processed: set<nat>, user: string): (r: int) {
    Total<nat>(map e: nat | e in EventsOf(events, processed, user) :: events[e].amount as int)
  }

  /** purchaseCount and totalSpendKobo count each processed event of the user once. */
  ghost predicate ExactStats(events: Events, db: Db, user: string) {
    && StatsOf(db.stats, user) == Stats(|EventsOf(events, db.processed, user)|, SpendOf(events, db.processed, user))
    && (user in db.stats <==> EventsOf(events, db.processed, user) != {})
  }

  /** What is unlocked is what a batch evaluation from nothing at the current counters would unlock. */
  ghost predicate BatchEqual(cat: Catalog, db: Db, user: string) {
    var unlocked, badges := AchievementsOf(db.achievements, user), BadgesOf(db.badges, user);
    if user in db.stats then
      && IsLeastClosure(cat.coerce, cat.achievements, db.stats[user], {}, unlocked)
      && badges == MetBadges(cat.badges, unlocked)
    else unlocked == {} && badges == {}
  }

  /** A badge row and its announcement come together, once. */
  ghost predicate AnnouncedOnce(db: Db) {
    && (forall i, j | 0 <= i < j < |db.outbox| && db.outbox[i].BadgeUnlocked? && db.outbox[j].BadgeUnlocked? ::
          !(db.outbox[i].payee == db.outbox[j].payee && db.outbox[i].badgeId == db.outbox[j].badgeId))
    && (forall i | 0 <= i < |db.outbox| && db.outbox[i].BadgeUnlocked? ::
          UserBadge(db.outbox[i].payee, db.outbox[i].badgeId) in db.badges)
  }

  ghost predicate Inv(cat: Catalog, events: Events, db: Db) {
    && WellKeyed(events)
    && db.processed <= events.Keys
    && NoRepeats(db.achievements) && NoRepeats(db.badges)
    && (forall u :: ExactStats(events, db, u))
    && (forall u :: BatchEqual(cat, db, u))
    && AnnouncedOnce(db)
  }

  lemma InitInv(cat: Catalog, events: Events)
    requires WellKeyed(events)
    ensures Inv(cat, events, EmptyDb)
  {
    forall u ensures ExactStats(events, EmptyDb, u) {
      assert EventsOf(events, {}, u) == {};
    }
  }

  lemma StatsPreserved(cat: Catalog, events: Events, db: Db, ev: PurchaseEvent, db': Db, u: string)
    requires WellKeyed(events) && db.processed <= events.Keys
    requires ev.id in events && events[ev.id] == ev && ev.id !in db.processed
    requires Handled(cat, db, ev, db')
    requires ExactStats(events, db, u)
    ensures ExactStats(events, db', u)
  {
    if u == ev.user {
      NewEventCounts(events, db.processed, ev);
    } else {
      assert EventsOf(events, db'.processed, u) == EventsOf(events, db.processed, u);
    }
  }

  lemma NewEventCounts(events: Events, processed: set<nat>, ev: PurchaseEvent)
    requires ev.id in events && events[ev.id] == ev && ev.id !in processed
    ensures |EventsOf(events, processed + {ev.id}, ev.user)| == |EventsOf(events, processed, ev.user)| + 1
    ensures SpendOf(events, processed + {ev.id}, ev.user) == SpendOf(events, processed, ev.user) + ev.amount
  {
    var before, after := EventsOf(events, processed, ev.user), EventsOf(events, processed + {ev.id}, ev.user);
    assert after == before + {ev.id};
    var m := map e: nat | e in before :: events[e].amount as int;
    var m' := map e: nat | e in after :: events[e].amount as int;
    assert m' == m[ev.id := ev.amount as int];
    TotalUpdate<nat>(m, ev.id, ev.amount as int);
  }

  lemma OthersUntouched(cat: Catalog, db: Db, ev: PurchaseEvent, db': Db, u: string)
    requires ev.id !in db.processed && Handled(cat, db, ev, db') && u != ev.user
    ensures AchievementsOf(db'.achievements, u) == AchievementsOf(db.achievements, u)
    ensures BadgesOf(db'.badges, u) == BadgesOf(db.badges, u)
  {
    assert forall r | r in db'.achievements && r.user == u :: r in db.achievements;
    assert forall r | r in db'.badges && r.user == u :: r in db.badges;
    assert forall r | r in db.achievements :: r in db'.achievements;
    assert forall r | r in db.badges :: r in db'.badges;
  }

  lemma MeetsMonotone(badges: seq<BadgeConfig>, small: set<string>, large: set<string>)
    requires small <= large
    ensures MetBadges(badges, small) <= MetBadges(badges, large)
  {
    SubsetCardinality(small, large);
  }

  /** The incremental step: catching up from the previous unlocks equals a batch from nothing. */
  lemma BatchPreserved(cat: Catalog, events: Events, db: Db, ev: PurchaseEvent, db': Db, u: string)
    requires ev.id !in db.processed && Handled(cat, db, ev, db')
    requires BatchEqual(cat, db, u)
    ensures BatchEqual(cat, db', u)
  {
    if u == ev.user {
      var mid, s := AchievementsOf(db.achievements, u), AchievementsOf(db'.achievements, u);
      var now := db'.stats[u];
      if u in db.stats {
        IncrementalIsBatch(cat.coerce, cat.achievements, db.stats[u], now, {}, mid, s);
        MeetsMonotone(cat.badges, mid, s);
      }
    } else {
      OthersUntouched(cat, db, ev, db', u);
    }
  }

  lemma AnnouncementsPreserved(cat: Catalog, db: Db, ev: PurchaseEvent, db': Db)
    requires ev.id !in db.processed && Handled(cat, db, ev, db') && ValidCatalog(cat)
    requires AnnouncedOnce(db)
    ensures AnnouncedOnce(db')
  {
    var n := |db.outbox|;
    var tail := db'.outbox[n..];
    var added := BadgesOf(db'.badges, ev.user) - BadgesOf(db.badges, ev.user);
    assert forall i | n <= i < |db'.outbox| :: db'.outbox[i] == tail[i - n];
    forall i | n <= i < |db'.outbox| && db'.outbox[i].BadgeUnlocked?
      ensures db'.outbox[i].payee == ev.user && db'.outbox[i].badgeId in added
      ensures exists b :: b in cat.badges && db'.outbox[i] == BadgeUnlocked(b.id, b.name, b.reward, ev.user)
    {
      assert tail[i - n] in Elements(tail);
      assert tail[i - n] in BadgeNews(cat.badges, ev.user, added);
    }
    forall i | 0 <= i < |db'.outbox| && db'.outbox[i].BadgeUnlocked?
      ensures UserBadge(db'.outbox[i].payee, db'.outbox[i].badgeId) in db'.badges
    {
      if i < n {
        assert db'.outbox[i] == db.outbox[i];
        assert UserBadge(db.outbox[i].payee, db.outbox[i].badgeId) in db.badges;
      }
    }
    forall i, j | 0 <= i < j < |db'.outbox| && db'.outbox[i].BadgeUnlocked? && db'.outbox[j].BadgeUnlocked?
      ensures !(db'.outbox[i].payee == db'.outbox[j].payee && db'.outbox[i].badgeId == db'.outbox[j].badgeId)
    {
      if j < n {
        assert db'.outbox[i] == db.outbox[i] && db'.outbox[j] == db.outbox[j];
      } else if i < n {
        assert db'.outbox[i] == db.outbox[i];
        assert UserBadge(db.outbox[i].payee, db.outbox[i].badgeId) in db.badges;
      } else {
        assert tail[i - n] != tail[j - n];
      }
    }
  }

  lemma HandledPreservesInv(cat: Catalog, events: Events, db: Db, ev: PurchaseEvent, db': Db)
    requires ValidCatalog(cat)
    requires Inv(cat, events, db)
    requires ev.id in events && events[ev.id] == ev
    requires Handled(cat, db, ev, db')
    ensures Inv(cat, events, db')
  {
    if ev.id !in db.processed {
      forall u ensures ExactStats(events, db', u) {
        StatsPreserved(cat, events, db, ev, db', u);
      }
      forall u ensures BatchEqual(cat, db', u) {
        BatchPreserved(cat, events, db, ev, db', u);
      }
      AnnouncementsPreserved(cat, db, ev, db');
    }
  }

  // ---------------------------------------------------------------- whole runs

  /** dbs is a history of the database under a sequence of deliveries, duplicates and any order allowed. */
  ghost predicate IsHistory(cat: Catalog, deliveries: seq<PurchaseEvent>, dbs: seq<Db>) {
    && |dbs| == |deliveries| + 1
    && dbs[0] == EmptyDb
    && forall i | 0 <= i < |deliveries| :: Handled(cat, dbs[i], deliveries[i], dbs[i + 1])
  }

  ghost predicate FromEvents(events: Events, deliveries: seq<PurchaseEvent>) {
    forall i | 0 <= i < |deliveries| :: deliveries[i].id in events && events[deliveries[i].id] == deliveries[i]
  }

  function DeliveredIds(deliveries: seq<PurchaseEvent>): (r: set<nat>) {
    set d | d in deliveries :: d.id
  }

  lemma {:induction false} HistoryInv(cat: Catalog, events: Events, deliveries: seq<PurchaseEvent>, dbs: seq<Db>,
      n: nat)
    requires ValidCatalog(cat) && WellKeyed(events)
    requires IsHistory(cat, deliveries, dbs) && FromEvents(events, deliveries) && n <= |deliveries|
    ensures Inv(cat, events, dbs[n])
    ensures dbs[n].processed == DeliveredIds(deliveries[..n])
  {
    if n == 0 {
      InitInv(cat, events);
      assert DeliveredIds(deliveries[..0]) == {};
    } else {
      HistoryInv(cat, events, deliveries, dbs, n - 1);
      HandledPreservesInv(cat, events, dbs[n - 1], deliveries[n - 1], dbs[n]);
      assert deliveries[..n] == deliveries[..n - 1] + [deliveries[n - 1]];
      assert DeliveredIds(deliveries[..n]) == DeliveredIds(deliveries[..n - 1]) + {deliveries[n - 1].id};
    }
  }

  /**
   * Incremental equals batch. After any sequence of deliveries, with repeats and in any order, a user's
   * counters are those of the distinct events delivered, the unlocked achievements are the least closure
   * of the rules at those counters from nothing, and the unlocked badges are exactly those it earns.
   */
  lemma IncrementalEqualsBatch(cat: Catalog, events: Events, deliveries: seq<PurchaseEvent>, dbs: seq<Db>, user: string)
    requires ValidCatalog(cat) && WellKeyed(events)
    requires IsHistory(cat, deliveries, dbs) && FromEvents(events, deliveries)
    requires exists d :: d in deliveries && d.user == user
    ensures
      var db := dbs[|deliveries|];
      var mine := EventsOf(events, DeliveredIds(deliveries), user);
      var stats := Stats(|mine|, SpendOf(events, DeliveredIds(deliveries), user));
      var unlocked := AchievementsOf(db.achievements, user);
      && user in db.stats && db.stats[user] == stats
      && IsLeastClosure(cat.coerce, cat.achievements, stats, {}, unlocked)
      && BadgesOf(db.badges, user) == MetBadges(cat.badges, unlocked)
  {
    HistoryInv(cat, events, deliveries, dbs, |deliveries|);
    assert deliveries[..|deliveries|] == deliveries;
    var db := dbs[|deliveries|];
    var d :| d in deliveries && d.user == user;
    assert d.id in DeliveredIds(deliveries);
    assert d.id in EventsOf(events, db.processed, user);
    assert ExactStats(events, db, user) && BatchEqual(cat, db, user);
  }

  /** Two services that saw the same events, in different orders and multiplicities, agree on every user. */
  lemma OrderAndDuplicatesDoNotMatter(cat: Catalog, events: Events, d1: seq<PurchaseEvent>, h1: seq<Db>,
                                      d2: seq<PurchaseEvent>, h2: seq<Db>, user: string)
    requires ValidCatalog(cat) && WellKeyed(events)
    requires IsHistory(cat, d1, h1) && FromEvents(events, d1)
    requires IsHistory(cat, d2, h2) && FromEvents(events, d2)
    requires DeliveredIds(d1) == DeliveredIds(d2)
    ensures StatsOf(h1[|d1|].stats, user) == StatsOf(h2[|d2|].stats, user)
    ensures AchievementsOf(h1[|d1|].achievements, user) == AchievementsOf(h2[|d2|].achievements, user)
    ensures BadgesOf(h1[|d1|].badges, user) == BadgesOf(h2[|d2|].badges, user)
  {
    HistoryInv(cat, events, d1, h1, |d1|);
    HistoryInv(cat, events, d2, h2, |d2|);
    assert d1[..|d1|] == d1 && d2[..|d2|] == d2;
    var a, b := h1[|d1|], h2[|d2|];
    assert ExactStats(events, a, user) && ExactStats(events, b, user);
    assert BatchEqual(cat, a, user) && BatchEqual(cat, b, user);
    if user in a.stats {
      LeastClosureUnique(cat.coerce, cat.achievements, a.stats[user], {},
                         AchievementsOf(a.achievements, user), AchievementsOf(b.achievements, user));
    }
  }
}

/** Administration of groups, achievements and badges: positions and references over serial runs. */
module Admin {
  import opened Json
  import opened Rules
  import opened Ordering

  datatype Group = Group(name: string, sortOrder: int)
  datatype Achievement = Achievement(name: string, group: string, sortOrder: int, rule: Json)
  datatype Badge = Badge(name: string, sortOrder: int, required: seq<string>, reward: int)

  datatype Tables = Tables(groups: map<string, Group>, achievements: map<string, Achievement>, badges: map<string,
    Badge>)

  datatype Error = Conflict | NotFound | BadRule | UnknownReference | UnknownGroup | DuplicateName

  datatype Outcome = Done(tables: Tables) | Rejected(error: Error)

  /** An absent field of an update leaves the column alone. */
  datatype Op =
    | CreateGroup(key: string, name: string, sortOrder: Option<int>)
    | UpdateGroup(key: string, newName: Option<string>, sortOrder: Option<int>)
    | CreateAchievement(id: string, achievement: Achievement)
    | UpdateAchievement(id: string, newName: Option<string>, group: Option<string>, sortOrder: Option<int>,
      rule: Option<Json>)
    | CreateBadge(id: string, badge: Badge)
    | UpdateBadge(id: string, newName: Option<string>, sortOrder: Option<int>, required: Option<seq<string>>,
      reward: Option<int>)

  function Or<T>(o: Option<T>, d: T): (r: T) {
    if o.Some? then o.value else d
  }

  // ---------------------------------------------------------------- making room

  function RoomForGroup(groups: map<string, Group>, target: int, except: string): (r: map<string, Group>) {
    map k | k in groups :: (if k != except && groups[k].sortOrder >= target then
      groups[k].(sortOrder := groups[k].sortOrder + 1) else groups[k])
  }

  function RoomForAchievement(achievements: map<string, Achievement>, group: string, target: int,
      except: string): (r: map<string, Achievement>) {
    map k | k in achievements ::
      (if k != except && achievements[k].group == group && achievements[k].sortOrder >= target
       then achievements[k].(sortOrder := achievements[k].sortOrder + 1) else achievements[k])
  }

  function RoomForBadge(badges: map<string, Badge>, target: int, except: string): (r: map<string, Badge>) {
    map k | k in badges :: (if k != except && badges[k].sortOrder >= target then
      badges[k].(sortOrder := badges[k].sortOrder + 1) else badges[k])
  }

  /** One past the greatest sort order, or 1 when there is no group. */
  predicate IsNextSortOrder(groups: map<string, Group>, n: int) {
    && (forall k | k in groups :: groups[k].sortOrder < n)
    && (if groups == map[] then n == 1 else exists k :: k in groups && groups[k].sortOrder + 1 == n)
  }

  lemma {:induction false} SomeGroupIsLast(groups: map<string, Group>) returns (last: string)
    requires groups != map[]
    ensures last in groups && forall k | k in groups :: groups[k].sortOrder <= groups[last].sortOrder
    decreases groups
  {
    var k :| k in groups;
    var rest := groups - {k};
    assert rest.Keys < groups.Keys && k !in rest;
    assert forall l | l in groups :: l == k || l in rest;
    if rest == map[] {
      last := k;
    } else {
      last := SomeGroupIsLast(rest);
      if groups[last].sortOrder < groups[k].sortOrder {
        last := k;
      }
    }
  }

  lemma NextSortOrderExists(groups: map<string, Group>)
    ensures exists n :: IsNextSortOrder(groups, n)
  {
    if groups == map[] {
      assert IsNextSortOrder(groups, 1);
    } else {
      var last := SomeGroupIsLast(groups);
      assert IsNextSortOrder(groups, groups[last].sortOrder + 1);
    }
  }

  ghost function NextSortOrder(groups: map<string, Group>): (n: int)
    ensures IsNextSortOrder(groups, n)
  {
    NextSortOrderExists(groups);
    var n :| IsNextSortOrder(groups, n);
    n
  }

  // ---------------------------------------------------------------- references

  predicate AllExist(ids: seq<string>, achievements: map<string, Achievement>) {
    forall id | id in ids :: id in achievements
  }

  predicate References(ids: seq<Json>, achievements: map<string, Achievement>) {
    forall x | x in ids :: x.Str? && x.s in achievements
  }

  function CheckRule(rule: Json, achievements: map<string, Achievement>): (e: Option<Error>) {
    match CollectIds(rule)
    case None => Some(BadRule)
    case Some(ids) => if References(ids, achievements) then None else Some(UnknownReference)
  }

  predicate AchievementNameFree(achievements: map<string, Achievement>, id: string, name: string) {
    forall k | k in achievements && k != id :: achievements[k].name != name
  }

  predicate BadgeNameFree(badges: map<string, Badge>, id: string, name: string) {
    forall k | k in badges && k != id :: badges[k].name != name
  }

  // ---------------------------------------------------------------- operations

  ghost function CreatedGroup(t: Tables, key: string, name: string, sortOrder: Option<int>): (o: Outcome) {
    if key in t.groups then Rejected(Conflict)
    else
      var target := if sortOrder.Some? then sortOrder.value else NextSortOrder(t.groups);
      Done(t.(groups := RoomForGroup(t.groups, target, key)[key := Group(name, target)]))
  }

  function UpdatedGroup(t: Tables, key: string, name: Option<string>, sortOrder: Option<int>): (o: Outcome) {
    if key !in t.groups then Rejected(NotFound)
    else
      var g := t.groups[key];
      var moved := if sortOrder.Some? && sortOrder.value != g.sortOrder then
        RoomForGroup(t.groups, sortOrder.value, key) else t.groups;
      Done(t.(groups := moved[key := Group(Or(name, g.name), Or(sortOrder, g.sortOrder))]))
  }

  /** The insert or update itself: the unique name, then the foreign key to the group. */
  function SavedAchievement(t: Tables, achievements: map<string, Achievement>, id: string,
      a: Achievement): (o: Outcome) {
    if !AchievementNameFree(achievements, id, a.name) then Rejected(DuplicateName)
    else if a.group !in t.groups then Rejected(UnknownGroup)
    else Done(t.(achievements := achievements[id := a]))
  }

  function CreatedAchievement(t: Tables, id: string, a: Achievement): (o: Outcome) {
    var e := CheckRule(a.rule, t.achievements);
    if e.Some? then Rejected(e.value)
    else if id in t.achievements then Rejected(Conflict)
    else SavedAchievement(t, RoomForAchievement(t.achievements, a.group, a.sortOrder, id), id, a)
  }

  function UpdatedAchievement(t: Tables, id: string, name: Option<string>, group: Option<string>,
      sortOrder: Option<int>, rule: Option<Json>): (o: Outcome) {
    var e := if rule.Some? then CheckRule(rule.value, t.achievements) else None;
    if e.Some? then Rejected(e.value)
    else if id !in t.achievements then Rejected(NotFound)
    else
      var a := t.achievements[id];
      var a' := Achievement(Or(name, a.name), Or(group, a.group), Or(sortOrder, a.sortOrder), Or(rule, a.rule));
      var moved := if a'.group != a.group || a'.sortOrder != a.sortOrder then
        RoomForAchievement(t.achievements, a'.group, a'.sortOrder, id) else t.achievements;
      SavedAchievement(t, moved, id, a')
  }

  function SavedBadge(t: Tables, badges: map<string, Badge>, id: string, b: Badge): (o: Outcome) {
    if BadgeNameFree(badges, id, b.name) then Done(t.(badges := badges[id := b])) else Rejected(DuplicateName)
  }

  function CreatedBadge(t: Tables, id: string, b: Badge): (o: Outcome) {
    if !AllExist(b.required, t.achievements) then Rejected(UnknownReference)
    else if id in t.badges then Rejected(Conflict)
    else SavedBadge(t, RoomForBadge(t.badges, b.sortOrder, id), id, b)
  }

  function UpdatedBadge(t: Tables, id: string, name: Option<string>, sortOrder: Option<int>,
      required: Option<seq<string>>, reward: Option<int>): (o: Outcome) {
    if required.Some? && !AllExist(required.value, t.achievements) then Rejected(UnknownReference)
    else if id !in t.badges then Rejected(NotFound)
    else
      var b := t.badges[id];
      var b' := Badge(Or(name, b.name), Or(sortOrder, b.sortOrder), Or(required, b.required), Or(reward, b.reward));
      var moved := if b'.sortOrder != b.sortOrder then RoomForBadge(t.badges, b'.sortOrder, id) else t.badges;
      SavedBadge(t, moved, id, b')
  }

  ghost function Perform(t: Tables, op: Op): (o: Outcome) {
    match op
    case CreateGroup(key, name, sortOrder) => CreatedGroup(t, key, name, sortOrder)
    case UpdateGroup(key, name, sortOrder) => UpdatedGroup(t, key, name, sortOrder)
    case CreateAchievement(id, a) => CreatedAchievement(t, id, a)
    case UpdateAchievement(id, name, group, sortOrder, rule) => UpdatedAchievement(t, id, name, group, sortOrder, rule)
    case CreateBadge(id, b) => CreatedBadge(t, id, b)
    case UpdateBadge(id, name, sortOrder, required, reward) => UpdatedBadge(t, id, name, sortOrder, required, reward)
  }

  /** A rejected operation rolls back. */
  ghost function After(t: Tables, op: Op): (t': Tables) {
    if Perform(t, op).Done? then Perform(t, op).tables else t
  }

  ghost function Run(t: Tables, ops: seq<Op>): (t': Tables)
    decreases ops
  {
    if ops == [] then t else Run(After(t, ops[0]), ops[1..])
  }

  // ---------------------------------------------------------------- positions

  function GroupSlots(groups: map<string, Group>): (s: Slots) {
    map k | k in groups :: Slot("", groups[k].sortOrder)
  }

  function AchievementSlots(achievements: map<string, Achievement>): (s: Slots) {
    map k | k in achievements :: Slot(achievements[k].group, achievements[k].sortOrder)
  }

  function BadgeSlots(badges: map<string, Badge>): (s: Slots) {
    map k | k in badges :: Slot("", badges[k].sortOrder)
  }

  predicate Ordered(t: Tables) {
    && DistinctSlots(GroupSlots(t.groups))
    && DistinctSlots(AchievementSlots(t.achievements))
    && DistinctSlots(BadgeSlots(t.badges))
  }

  /** Every rule and badge reference, and every group key, resolves. */
  predicate Resolved(t: Tables) {
    && (forall k | k in t.achievements ::
          t.achievements[k].group in t.groups && CheckRule(t.achievements[k].rule, t.achievements) == None)
    && (forall k | k in t.badges :: AllExist(t.badges[k].required, t.achievements))
  }

  datatype Table = Groups | Achievements | Badges

  function TableOf(op: Op): (t: Table) {
    match op
    case CreateGroup(_, _, _) => Groups
    case UpdateGroup(_, _, _) => Groups
    case CreateAchievement(_, _) => Achievements
    case UpdateAchievement(_, _, _, _, _) => Achievements
    case CreateBadge(_, _) => Badges
    case UpdateBadge(_, _, _, _, _) => Badges
  }

  function ItemOf(op: Op): (k: string) {
    match op
    case CreateGroup(key, _, _) => key
    case UpdateGroup(key, _, _) => key
    case CreateAchievement(id, _) => id
    case UpdateAchievement(id, _, _, _, _) => id
    case CreateBadge(id, _) => id
    case UpdateBadge(id, _, _, _, _) => id
  }

  function SlotsOf(t: Tables, table: Table): (s: Slots) {
    match table
    case Groups => GroupSlots(t.groups)
    case Achievements => AchievementSlots(t.achievements)
    case Badges => BadgeSlots(t.badges)
  }

  /** The position the operation asks for, given what the item holds now. */
  ghost function TargetOf(t: Tables, op: Op): (s: Slot)
    requires op.UpdateGroup? ==> op.key in t.groups
    requires op.UpdateAchievement? ==> op.id in t.achievements
    requires op.UpdateBadge? ==> op.id in t.badges
  {
    match op
    case CreateGroup(_, _, sortOrder) => Slot("", if sortOrder.Some? then sortOrder.value else NextSortOrder(t.groups))
    case UpdateGroup(key, _, sortOrder) => Slot("", Or(sortOrder, t.groups[key].sortOrder))
    case CreateAchievement(_, a) => Slot(a.group, a.sortOrder)
    case UpdateAchievement(id, _, group, sortOrder, _) =>
      Slot(Or(group, t.achievements[id].group), Or(sortOrder, t.achievements[id].sortOrder))
    case CreateBadge(_, b) => Slot("", b.sortOrder)
    case UpdateBadge(id, _, sortOrder, _, _) => Slot("", Or(sortOrder, t.badges[id].sortOrder))
  }

  /** The edited item's slots: an insertion, or no change where the position is kept. */
  predicate Repositioned(slots: Slots, slots': Slots, item: string, target: Slot) {
    if item in slots && slots[item] == target then
      slots' == slots else slots' == Placed(slots, item, target.list, target.at)
  }

  lemma GroupSaved(groups: map<string, Group>, k: string, g: Group)
    ensures GroupSlots(RoomForGroup(groups, g.sortOrder, k)[k := g]) == Placed(GroupSlots(groups), k, "", g.sortOrder)
    ensures k in groups && groups[k].sortOrder == g.sortOrder ==> GroupSlots(groups[k := g]) == GroupSlots(groups)
  {
  }

  lemma AchievementSaved(achievements: map<string, Achievement>, k: string, a: Achievement)
    ensures AchievementSlots(RoomForAchievement(achievements, a.group, a.sortOrder, k)[k := a]) ==
            Placed(AchievementSlots(achievements), k, a.group, a.sortOrder)
    ensures k in achievements && achievements[k].group == a.group && achievements[k].sortOrder == a.sortOrder ==>
              AchievementSlots(achievements[k := a]) == AchievementSlots(achievements)
  {
  }

  lemma BadgeSaved(badges: map<string, Badge>, k: string, b: Badge)
    ensures BadgeSlots(RoomForBadge(badges, b.sortOrder, k)[k := b]) == Placed(BadgeSlots(badges), k, "", b.sortOrder)
    ensures k in badges && badges[k].sortOrder == b.sortOrder ==> BadgeSlots(badges[k := b]) == BadgeSlots(badges)
  {
  }

  lemma GroupEdit(t: Tables, op: Op)
    requires TableOf(op) == Groups && Perform(t, op).Done?
    ensures Repositioned(GroupSlots(t.groups), GroupSlots(After(t, op).groups), op.key, TargetOf(t, op))
    ensures After(t, op).achievements == t.achievements && After(t, op).badges == t.badges &&
            t.groups.Keys <= After(t, op).groups.Keys
  {
    GroupSaved(t.groups, op.key, After(t, op).groups[op.key]);
  }

  lemma AchievementEdit(t: Tables, op: Op)
    requires TableOf(op) == Achievements && Perform(t, op).Done?
    ensures Repositioned(AchievementSlots(t.achievements), AchievementSlots(After(t, op).achievements), op.id,
            TargetOf(t, op))
    ensures After(t, op).groups == t.groups && After(t, op).badges == t.badges &&
            t.achievements.Keys <= After(t, op).achievements.Keys
  {
    AchievementSaved(t.achievements, op.id, After(t, op).achievements[op.id]);
  }

  lemma BadgeEdit(t: Tables, op: Op)
    requires TableOf(op) == Badges && Perform(t, op).Done?
    ensures Repositioned(BadgeSlots(t.badges), BadgeSlots(After(t, op).badges), op.id, TargetOf(t, op))
    ensures After(t, op).groups == t.groups && After(t, op).achievements == t.achievements &&
            t.badges.Keys <= After(t, op).badges.Keys
  {
    BadgeSaved(t.badges, op.id, After(t, op).badges[op.id]);
  }

  lemma RepositionedIsInsertion(slots: Slots, slots': Slots, item: string, target: Slot)
    requires DistinctSlots(slots) && Repositioned(slots, slots', item, target)
    ensures DistinctSlots(slots') && OrderKept(slots, slots', {item}) && item in slots' && slots'[item] == target
  {
    PlacedIsInsertion(slots, item, target.list, target.at);
  }

  /** An accepted edit puts the item where it was asked to be and disturbs no other order in any table. */
  lemma EditIsInsertion(t: Tables, op: Op)
    requires Ordered(t) && Perform(t, op).Done?
    ensures Ordered(After(t, op))
    ensures ItemOf(op) in SlotsOf(After(t, op), TableOf(op)) &&
            SlotsOf(After(t, op), TableOf(op))[ItemOf(op)] == TargetOf(t, op)
    ensures OrderKept(SlotsOf(t, TableOf(op)), SlotsOf(After(t, op), TableOf(op)), {ItemOf(op)})
    ensures forall other: Table | other != TableOf(op) :: SlotsOf(After(t, op), other) == SlotsOf(t, other)
  {
    match TableOf(op)
    case Groups => GroupEdit(t, op);
      RepositionedIsInsertion(GroupSlots(t.groups), GroupSlots(After(t, op).groups), op.key, TargetOf(t, op));
    case Achievements => AchievementEdit(t, op);
      RepositionedIsInsertion(AchievementSlots(t.achievements), AchievementSlots(After(t, op).achievements), op.id,
        TargetOf(t, op));
    case Badges => BadgeEdit(t, op);
      RepositionedIsInsertion(BadgeSlots(t.badges), BadgeSlots(After(t, op).badges), op.id, TargetOf(t, op));
  }

  /** A group created without a sort order comes after all others. */
  lemma DefaultIsLast(t: Tables, key: string, name: string, other: string)
    requires key !in t.groups && other in t.groups
    ensures Before(GroupSlots(After(t, CreateGroup(key, name, None)).groups), other, key)
  {
    GroupEdit(t, CreateGroup(key, name, None));
    PlacedSplitsTheList(GroupSlots(t.groups), key, "", NextSortOrder(t.groups), other);
  }

  // ---------------------------------------------------------------- references stay resolved

  lemma CheckRuleMonotone(rule: Json, a: map<string, Achievement>, b: map<string, Achievement>)
    requires CheckRule(rule, a) == None && a.Keys <= b.Keys
    ensures CheckRule(rule, b) == None
  {
  }

  predicate RuleKept(a: Achievement, b: Achievement) {
    b == a.(sortOrder := b.sortOrder)
  }

  /** Rows that were not edited keep everything but their sort order. */
  lemma OthersKeepContents(t: Tables, op: Op, k: string)
    requires Perform(t, op).Done? && k != ItemOf(op)
    ensures k in t.achievements <==> k in After(t, op).achievements
    ensures k in t.achievements ==> RuleKept(t.achievements[k], After(t, op).achievements[k])
    ensures k in t.badges <==> k in After(t, op).badges
    ensures k in t.badges ==> After(t, op).badges[k] == t.badges[k].(sortOrder := After(t, op).badges[k].sortOrder)
    ensures k in t.groups <==> k in After(t, op).groups
    ensures k in t.groups ==> After(t, op).groups[k] == t.groups[k].(sortOrder := After(t, op).groups[k].sortOrder)
  {
  }

  lemma AchievementEditResolved(t: Tables, op: Op)
    requires Resolved(t) && TableOf(op) == Achievements && Perform(t, op).Done?
    ensures Resolved(After(t, op))
  {
    var t' := After(t, op);
    AchievementEdit(t, op);
    forall k | k in t'.achievements ensures t'.achievements[k].group in t'.groups &&
      CheckRule(t'.achievements[k].rule, t'.achievements) == None {
      if k != op.id {
        OthersKeepContents(t, op, k);
        CheckRuleMonotone(t.achievements[k].rule, t.achievements, t'.achievements);
      } else {
        CheckRuleMonotone(t'.achievements[k].rule, t.achievements, t'.achievements);
      }
    }
  }

  lemma EditResolved(t: Tables, op: Op)
    requires Resolved(t)
    ensures Resolved(After(t, op))
  {
    if Perform(t, op).Done? {
      match TableOf(op)
      case Achievements => AchievementEditResolved(t, op);
      case Groups => GroupEdit(t, op);
      case Badges =>
        BadgeEdit(t, op);
        forall k | k in After(t, op).badges ensures AllExist(After(t, op).badges[k].required, t.achievements) {
          if k != op.id {
            OthersKeepContents(t, op, k);
          }
        }
    }
  }

  /** Distinct positions and resolved references: what every operation keeps. */
  predicate Sound(t: Tables) {
    Ordered(t) && Resolved(t)
  }

  lemma EditSound(t: Tables, op: Op)
    ensures Sound(t) ==> Sound(After(t, op))
  {
    if Sound(t) {
      EditResolved(t, op);
      if Perform(t, op).Done? {
        EditIsInsertion(t, op);
      }
    }
  }

  // ---------------------------------------------------------------- whole runs

  lemma {:induction false} RunKeepsOrderAndReferences(t: Tables, ops: seq<Op>)
    requires Ordered(t) && Resolved(t)
    ensures Ordered(Run(t, ops)) && Resolved(Run(t, ops))
    decreases ops
  {
    if ops != [] {
      EditSound(t, ops[0]);
      RunKeepsOrderAndReferences(After(t, ops[0]), ops[1..]);
    }
  }

  /** The items of a table that some operation of the run names. */
  function Touched(ops: seq<Op>, table: Table): (r: set<string>) {
    set op | op in ops && TableOf(op) == table :: ItemOf(op)
  }

  lemma OrderKeptRefl(slots: Slots, touched: set<string>)
    ensures OrderKept(slots, slots, touched)
  {
  }

  lemma OrderKeptWiden(a: Slots, b: Slots, s: set<string>, t: set<string>)
    requires OrderKept(a, b, s) && s <= t
    ensures OrderKept(a, b, t)
  {
  }

  lemma OneEditKeepsOrder(t: Tables, op: Op, table: Table)
    requires Ordered(t)
    ensures Ordered(After(t, op)) && OrderKept(SlotsOf(t, table), SlotsOf(After(t, op), table), Touched([op], table))
  {
    if Perform(t, op).Done? {
      EditIsInsertion(t, op);
    }
    if Perform(t, op).Done? && TableOf(op) == table {
      assert op in [op];
      OrderKeptWiden(SlotsOf(t, table), SlotsOf(After(t, op), table), {ItemOf(op)}, Touched([op], table));
    } else {
      OrderKeptRefl(SlotsOf(t, table), Touched([op], table));
    }
  }

  /** Over a whole run, items no operation names keep their relative order, list by list. */
  lemma {:induction false} RunKeepsRelativeOrder(t: Tables, ops: seq<Op>, table: Table)
    requires Ordered(t)
    ensures OrderKept(SlotsOf(t, table), SlotsOf(Run(t, ops), table), Touched(ops, table))
    decreases ops
  {
    if ops == [] {
      OrderKeptRefl(SlotsOf(t, table), Touched(ops, table));
    } else {
      OneEditKeepsOrder(t, ops[0], table);
      RunKeepsRelativeOrder(After(t, ops[0]), ops[1..], table);
      OrderKeptTrans(SlotsOf(t, table), SlotsOf(After(t, ops[0]), table), SlotsOf(Run(t, ops), table),
        Touched([ops[0]], table), Touched(ops[1..], table));
      assert ops == [ops[0]] + ops[1..];
      OrderKeptWiden(SlotsOf(t, table), SlotsOf(Run(t, ops), table),
        Touched([ops[0]], table) + Touched(ops[1..], table), Touched(ops, table));
    }
  }

  // ---------------------------------------------------------------- the catalog

  datatype CatalogEntry = CatalogEntry(id: string, achievement: Achievement)

  /** requiredAchievements of a catalog item: looked up, and the ones not found filtered away. */
  function CatalogEntries(ids: seq<string>, achievements: map<string, Achievement>): (r: seq<CatalogEntry>) {
    if ids == [] then []
    else
      var rest := CatalogEntries(ids[1..], achievements);
      if ids[0] in achievements then [CatalogEntry(ids[0], achievements[ids[0]])] + rest else rest
  }

  lemma {:induction false} CatalogLength(ids: seq<string>, achievements: map<string, Achievement>)
    ensures |CatalogEntries(ids, achievements)| <= |ids|
    ensures |CatalogEntries(ids, achievements)| == |ids| <==> AllExist(ids, achievements)
  {
    if ids != [] {
      CatalogLength(ids[1..], achievements);
      assert AllExist(ids, achievements) <==> ids[0] in achievements && AllExist(ids[1..], achievements) by {
        assert ids == [ids[0]] + ids[1..];
      }
    }
  }

  lemma {:induction false} CatalogKeepsPlaces(ids: seq<string>, achievements: map<string, Achievement>, i: nat)
    requires AllExist(ids, achievements) && i < |ids|
    ensures |CatalogEntries(ids, achievements)| == |ids| &&
            CatalogEntries(ids, achievements)[i] == CatalogEntry(ids[i], achievements[ids[i]])
  {
    CatalogLength(ids, achievements);
    assert ids == [ids[0]] + ids[1..];
    if i > 0 {
      CatalogKeepsPlaces(ids[1..], achievements, i - 1);
    }
  }

  /** After any run the catalog shows every required achievement of every badge, in its place. */
  lemma CatalogDropsNone(t: Tables, ops: seq<Op>, badge: string, i: nat)
    requires Ordered(t) && Resolved(t) && badge in Run(t, ops).badges && i < |Run(t, ops).badges[badge].required|
    ensures var t' := Run(t, ops); var ids := t'.badges[badge].required;
            && |CatalogEntries(ids, t'.achievements)| == |ids|
            && ids[i] in t'.achievements && CatalogEntries(ids, t'.achievements)[i] ==
               CatalogEntry(ids[i], t'.achievements[ids[i]])
  {
    RunKeepsOrderAndReferences(t, ops);
    CatalogKeepsPlaces(Run(t, ops).badges[badge].required, Run(t, ops).achievements, i);
  }
}

/** What each admin operation accepts, refuses and leaves in the tables, field by field. */
module AdminEdits {
  import opened Json
  import opened Rules
  import opened Admin

  /** What a column holds after an update: the new value if one was given. */
  predicate Merged<T(==)>(given: Option<T>, was: T, now: T) {
    if given.Some? then now == given.value else now == was
  }

  // ---------------------------------------------------------------- rows that were not edited

  /** Where the item moved, rows at or after its new position went down by one; nothing else about them changed. */
  ghost predicate GroupsStay(before: map<string, Group>, after: map<string, Group>, item: string, moved: bool) {
    && item in after
    && forall k | k != item ::
         && (k in after <==> k in before)
         && (k in before ==>
               && after[k].name == before[k].name
               && after[k].sortOrder == before[k].sortOrder +
                  (if moved && before[k].sortOrder >= after[item].sortOrder then 1 else 0))
  }

  ghost predicate AchievementsStay(before: map<string, Achievement>, after: map<string, Achievement>, item: string,
                                   moved: bool)
  {
    && item in after
    && forall k | k != item ::
         && (k in after <==> k in before)
         && (k in before ==>
               && after[k].name == before[k].name && after[k].group == before[k].group &&
                  after[k].rule == before[k].rule
               && after[k].sortOrder == before[k].sortOrder +
                  (if moved && before[k].group == after[item].group && before[k].sortOrder >= after[item].sortOrder
                   then 1 else 0))
  }

  ghost predicate BadgesStay(before: map<string, Badge>, after: map<string, Badge>, item: string, moved: bool) {
    && item in after
    && forall k | k != item ::
         && (k in after <==> k in before)
         && (k in before ==>
               && after[k].name == before[k].name && after[k].required == before[k].required
               && after[k].reward == before[k].reward
               && after[k].sortOrder == before[k].sortOrder +
                  (if moved && before[k].sortOrder >= after[item].sortOrder then 1 else 0))
  }

  // ---------------------------------------------------------------- what is refused, and why

  predicate UnknownId(ids: seq<Json>, achievements: map<string, Achievement>) {
    exists i :: 0 <= i < |ids| && !(ids[i].Str? && ids[i].s in achievements)
  }

  /** The first objection to a rule, if there is one. */
  function RuleObjection(rule: Json, achievements: map<string, Achievement>): (e: Option<Error>) {
    if CollectIds(rule) == None then Some(BadRule)
    else if UnknownId(CollectIds(rule).value, achievements) then Some(UnknownReference)
    else None
  }

  predicate AchievementNamed(achievements: map<string, Achievement>, name: string, except: string) {
    exists k | k in achievements && k != except :: achievements[k].name == name
  }

  predicate BadgeNamed(badges: map<string, Badge>, name: string, except: string) {
    exists k | k in badges && k != except :: badges[k].name == name
  }

  predicate UnknownRequired(required: seq<string>, achievements: map<string, Achievement>) {
    exists i :: 0 <= i < |required| && required[i] !in achievements
  }

  // ---------------------------------------------------------------- the six operations

  ghost predicate GroupCreated(t: Tables, key: string, name: string, sortOrder: Option<int>, t': Tables,
                               error: Option<Error>)
  {
    && error == (if key in t.groups then Some(Conflict) else None)
    && (error.Some? ==> t' == t)
    && (error.None? ==>
          && t'.achievements == t.achievements && t'.badges == t.badges
          && GroupsStay(t.groups, t'.groups, key, true)
          && t'.groups[key].name == name
          && (sortOrder.Some? ==> t'.groups[key].sortOrder == sortOrder.value)
          && (sortOrder.None? ==> forall k | k in t.groups :: t.groups[k].sortOrder < t'.groups[key].sortOrder))
  }

  ghost predicate GroupUpdated(t: Tables, key: string, name: Option<string>, sortOrder: Option<int>, t': Tables,
                               error: Option<Error>)
  {
    && error == (if key in t.groups then None else Some(NotFound))
    && (error.Some? ==> t' == t)
    && (error.None? ==>
          && t'.achievements == t.achievements && t'.badges == t.badges && key in t'.groups
          && GroupsStay(t.groups, t'.groups, key, t'.groups[key].sortOrder != t.groups[key].sortOrder)
          && Merged(name, t.groups[key].name, t'.groups[key].name)
          && Merged(sortOrder, t.groups[key].sortOrder, t'.groups[key].sortOrder))
  }

  ghost predicate AchievementCreated(t: Tables, id: string, a: Achievement, t': Tables, error: Option<Error>) {
    && error == (if RuleObjection(a.rule, t.achievements).Some? then RuleObjection(a.rule, t.achievements)
                 else if id in t.achievements then Some(Conflict)
                 else if AchievementNamed(t.achievements, a.name, id) then Some(DuplicateName)
                 else if a.group !in t.groups then Some(UnknownGroup)
                 else None)
    && (error.Some? ==> t' == t)
    && (error.None? ==>
          && t'.groups == t.groups && t'.badges == t.badges
          && AchievementsStay(t.achievements, t'.achievements, id, true)
          && t'.achievements[id] == a)
  }

  ghost predicate AchievementUpdated(t: Tables, id: string, name: Option<string>, group: Option<string>,
                                     sortOrder: Option<int>, rule: Option<Json>, t': Tables, error: Option<Error>)
  {
    && error == UpdateObjection(t, id, name, group, rule)
    && (error.Some? ==> t' == t)
    && (error.None? ==> AchievementMerged(t, id, name, group, sortOrder, rule, t'))
  }

  ghost predicate AchievementMerged(t: Tables, id: string, name: Option<string>, group: Option<string>,
                                    sortOrder: Option<int>, rule: Option<Json>, t': Tables)
  {
    && t'.groups == t.groups && t'.badges == t.badges && id in t.achievements && id in t'.achievements
    && var was, now := t.achievements[id], t'.achievements[id];
    && AchievementsStay(t.achievements, t'.achievements, id, now.group != was.group || now.sortOrder != was.sortOrder)
    && Merged(name, was.name, now.name) && Merged(group, was.group, now.group)
    && Merged(sortOrder, was.sortOrder, now.sortOrder) && Merged(rule, was.rule, now.rule)
  }

  /** The first reason not to update an achievement. */
  function UpdateObjection(t: Tables, id: string, name: Option<string>, group: Option<string>,
                           rule: Option<Json>): (e: Option<Error>)
  {
    if rule.Some? && RuleObjection(rule.value, t.achievements).Some? then RuleObjection(rule.value, t.achievements)
    else if id !in t.achievements then Some(NotFound)
    else if AchievementNamed(t.achievements, if name.Some? then name.value else t.achievements[id].name, id) then
      Some(DuplicateName)
    else if (if group.Some? then group.value else t.achievements[id].group) !in t.groups then Some(UnknownGroup)
    else None
  }

  /** The first reason not to create, or not to update, a badge. */
  function NewBadgeObjection(t: Tables, id: string, b: Badge): (e: Option<Error>) {
    if UnknownRequired(b.required, t.achievements) then Some(UnknownReference)
    else if id in t.badges then Some(Conflict)
    else if BadgeNamed(t.badges, b.name, id) then Some(DuplicateName)
    else None
  }

  function BadgeObjection(t: Tables, id: string, name: Option<string>,
      required: Option<seq<string>>): (e: Option<Error>) {
    if required.Some? && UnknownRequired(required.value, t.achievements) then Some(UnknownReference)
    else if id !in t.badges then Some(NotFound)
    else if BadgeNamed(t.badges, if name.Some? then name.value else t.badges[id].name, id) then Some(DuplicateName)
    else None
  }

  ghost predicate BadgeCreated(t: Tables, id: string, b: Badge, t': Tables, error: Option<Error>) {
    && error == NewBadgeObjection(t, id, b)
    && (error.Some? ==> t' == t)
    && (error.None? ==> BadgeAdded(t, id, b, t'))
  }

  ghost predicate BadgeAdded(t: Tables, id: string, b: Badge, t': Tables) {
    && t'.groups == t.groups && t'.achievements == t.achievements
    && BadgesStay(t.badges, t'.badges, id, true)
    && t'.badges[id] == b
  }

  ghost predicate BadgeUpdated(t: Tables, id: string, name: Option<string>, sortOrder: Option<int>,
                               required: Option<seq<string>>, reward: Option<int>, t': Tables, error: Option<Error>)
  {
    && error == BadgeObjection(t, id, name, required)
    && (error.Some? ==> t' == t)
    && (error.None? ==> BadgeMerged(t, id, name, sortOrder, required, reward, t'))
  }

  ghost predicate BadgeMerged(t: Tables, id: string, name: Option<string>, sortOrder: Option<int>,
                              required: Option<seq<string>>, reward: Option<int>, t': Tables)
  {
    && t'.groups == t.groups && t'.achievements == t.achievements && id in t.badges && id in t'.badges
    && var was, now := t.badges[id], t'.badges[id];
    && BadgesStay(t.badges, t'.badges, id, now.sortOrder != was.sortOrder)
    && Merged(name, was.name, now.name) && Merged(sortOrder, was.sortOrder, now.sortOrder)
    && Merged(required, was.required, now.required) && Merged(reward, was.reward, now.reward)
  }

  // ---------------------------------------------------------------- the operations do just that

  /** The error an operation reports. */
  ghost function ErrorOf(o: Admin.Outcome): (e: Option<Error>) {
    match o case Done(_) => None case Rejected(error) => Some(error)
  }

  lemma CreateGroupMeans(t: Tables, key: string, name: string, sortOrder: Option<int>)
    ensures var op := CreateGroup(key, name, sortOrder);
            GroupCreated(t, key, name, sortOrder, After(t, op), ErrorOf(Perform(t, op)))
  {
  }

  lemma UpdateGroupMeans(t: Tables, key: string, name: Option<string>, sortOrder: Option<int>)
    ensures var op := UpdateGroup(key, name, sortOrder);
            GroupUpdated(t, key, name, sortOrder, After(t, op), ErrorOf(Perform(t, op)))
  {
  }

  lemma ObjectionMeans(rule: Json, achievements: map<string, Achievement>)
    ensures CheckRule(rule, achievements) == RuleObjection(rule, achievements)
  {
    if CollectIds(rule).Some? {
      var ids := CollectIds(rule).value;
      if References(ids, achievements) {
        assert forall i | 0 <= i < |ids| :: ids[i] in ids;
      } else {
        var x :| x in ids && !(x.Str? && x.s in achievements);
        var i :| 0 <= i < |ids| && ids[i] == x;
      }
    }
  }

  lemma RequiredMeans(required: seq<string>, achievements: map<string, Achievement>)
    ensures AllExist(required, achievements) <==> !UnknownRequired(required, achievements)
  {
    if !AllExist(required, achievements) {
      var id :| id in required && id !in achievements;
      var i :| 0 <= i < |required| && required[i] == id;
    }
    assert forall i | 0 <= i < |required| :: required[i] in required;
  }

  /** Making room changes no name, so the check may be read on the table as it was. */
  lemma RoomKeepsNames(achievements: map<string, Achievement>, badges: map<string, Badge>, id: string, name: string,
                       group: string, target: int)
    ensures AchievementNameFree(RoomForAchievement(achievements, group, target, id), id, name) <==>
            !AchievementNamed(achievements, name, id)
    ensures AchievementNameFree(achievements, id, name) <==> !AchievementNamed(achievements, name, id)
    ensures BadgeNameFree(RoomForBadge(badges, target, id), id, name) <==> !BadgeNamed(badges, name, id)
    ensures BadgeNameFree(badges, id, name) <==> !BadgeNamed(badges, name, id)
  {
    var r, s := RoomForAchievement(achievements, group, target, id), RoomForBadge(badges, target, id);
    assert forall k | k in achievements :: r[k].name == achievements[k].name;
    assert forall k | k in badges :: s[k].name == badges[k].name;
  }

  lemma CreateAchievementMeans(t: Tables, id: string, a: Achievement)
    ensures var op := CreateAchievement(id, a); AchievementCreated(t, id, a, After(t, op), ErrorOf(Perform(t, op)))
  {
    ObjectionMeans(a.rule, t.achievements);
    RoomKeepsNames(t.achievements, t.badges, id, a.name, a.group, a.sortOrder);
  }

  lemma UpdateAchievementError(t: Tables, id: string, name: Option<string>, group: Option<string>,
                               sortOrder: Option<int>, rule: Option<Json>)
    ensures ErrorOf(UpdatedAchievement(t, id, name, group, sortOrder, rule)) ==
            UpdateObjection(t, id, name, group, rule)
  {
    if rule.Some? {
      ObjectionMeans(rule.value, t.achievements);
    }
    if id in t.achievements {
      var a := t.achievements[id];
      RoomKeepsNames(t.achievements, t.badges, id, Or(name, a.name), Or(group, a.group), Or(sortOrder, a.sortOrder));
    }
  }

  lemma UpdateAchievementMerges(t: Tables, id: string, name: Option<string>, group: Option<string>,
                                sortOrder: Option<int>, rule: Option<Json>)
    requires UpdatedAchievement(t, id, name, group, sortOrder, rule).Done?
    ensures AchievementMerged(t, id, name, group, sortOrder, rule,
                              UpdatedAchievement(t, id, name, group, sortOrder, rule).tables)
  {
  }

  lemma UpdateAchievementMeans(t: Tables, id: string, name: Option<string>, group: Option<string>,
                               sortOrder: Option<int>, rule: Option<Json>)
    ensures var op := UpdateAchievement(id, name, group, sortOrder, rule);
            AchievementUpdated(t, id, name, group, sortOrder, rule, After(t, op), ErrorOf(Perform(t, op)))
  {
    UpdateAchievementError(t, id, name, group, sortOrder, rule);
    if UpdatedAchievement(t, id, name, group, sortOrder, rule).Done? {
      UpdateAchievementMerges(t, id, name, group, sortOrder, rule);
    }
  }

  lemma CreateBadgeMeans(t: Tables, id: string, b: Badge)
    ensures var op := CreateBadge(id, b); BadgeCreated(t, id, b, After(t, op), ErrorOf(Perform(t, op)))
  {
    RequiredMeans(b.required, t.achievements);
    RoomKeepsNames(t.achievements, t.badges, id, b.name, "", b.sortOrder);
  }

  lemma UpdateBadgeError(t: Tables, id: string, name: Option<string>, sortOrder: Option<int>,
                         required: Option<seq<string>>, reward: Option<int>)
    ensures ErrorOf(UpdatedBadge(t, id, name, sortOrder, required, reward)) == BadgeObjection(t, id, name, required)
  {
    if required.Some? {
      RequiredMeans(required.value, t.achievements);
    }
    if id in t.badges {
      var b := t.badges[id];
      RoomKeepsNames(t.achievements, t.badges, id, Or(name, b.name), "", Or(sortOrder, b.sortOrder));
    }
  }

  lemma UpdateBadgeMerges(t: Tables, id: string, name: Option<string>, sortOrder: Option<int>,
                          required: Option<seq<string>>, reward: Option<int>)
    requires UpdatedBadge(t, id, name, sortOrder, required, reward).Done?
    ensures BadgeMerged(t, id, name, sortOrder, required, reward,
                        UpdatedBadge(t, id, name, sortOrder, required, reward).tables)
  {
  }

  lemma UpdateBadgeMeans(t: Tables, id: string, name: Option<string>, sortOrder: Option<int>,
                         required: Option<seq<string>>, reward: Option<int>)
    ensures var op := UpdateBadge(id, name, sortOrder, required, reward);
            BadgeUpdated(t, id, name, sortOrder, required, reward, After(t, op), ErrorOf(Perform(t, op)))
  {
    UpdateBadgeError(t, id, name, sortOrder, required, reward);
    if UpdatedBadge(t, id, name, sortOrder, required, reward).Done? {
      UpdateBadgeMerges(t, id, name, sortOrder, required, reward);
    }
  }
}

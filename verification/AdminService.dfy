/** The admin service over its three tables, statement by statement. */
module AdminService {
  import opened Json
  import opened Rules
  import opened Collections
  import opened Admin
  import opened AdminEdits

  function Quoted(ids: seq<string>): (r: seq<Json>) {
    seq(|ids|, i requires 0 <= i < |ids| => Str(ids[i]))
  }

  predicate Unknown(x: Json, achievements: map<string, Achievement>) {
    !(x.Str? && x.s in achievements)
  }

  /** The set of ids without repeats, then a filter for those the query did not return. */
  method MissingIds(ids: seq<Json>, achievements: map<string, Achievement>) returns (missing: seq<Json>)
    ensures NoRepeats(missing)
    ensures forall x :: x in missing <==> x in ids && Unknown(x, achievements)
    ensures missing == [] <==> References(ids, achievements)
  {
    var unique: seq<Json> := [];
    for i := 0 to |ids|
      invariant NoRepeats(unique) && forall x :: x in unique <==> x in ids[..i]
    {
      assert ids[..i + 1] == ids[..i] + [ids[i]];
      if ids[i] !in unique {
        unique := unique + [ids[i]];
      }
    }
    missing := [];
    for i := 0 to |unique|
      invariant NoRepeats(missing) && forall x :: x in missing <==> x in unique[..i] && Unknown(x, achievements)
    {
      assert unique[..i + 1] == unique[..i] + [unique[i]];
      if Unknown(unique[i], achievements) {
        assert unique[i] !in unique[..i];
        missing := missing + [unique[i]];
      }
    }
    assert unique[..|unique|] == unique && ids[..|ids|] == ids;
    if missing == [] {
      assert forall x | x in ids :: x !in missing;
    } else {
      assert missing[0] in missing;
    }
  }

  /** What every operation promises: the tables of an accepted operation, or a rollback and its error. */
  ghost predicate Performed(t: Tables, op: Op, t': Tables, error: Option<Error>) {
    && t' == After(t, op)
    && (match error case None => Perform(t, op).Done? case Some(e) => Perform(t, op) == Rejected(e))
  }

  class AdminConfigService {
    var groups: map<string, Group>
    var achievements: map<string, Achievement>
    var badges: map<string, Badge>

    function View(): (t: Tables)
      reads this
    {
      Tables(groups, achievements, badges)
    }

    constructor (t: Tables)
      ensures View() == t
    {
      groups, achievements, badges := t.groups, t.achievements, t.badges;
    }

    method NextGroupSortOrder() returns (n: int)
      ensures n == NextSortOrder(groups)
      ensures groups == map[] ==> n == 1
      ensures groups != map[] ==> exists k :: k in groups && groups[k].sortOrder + 1 == n
      ensures forall k | k in groups :: groups[k].sortOrder < n
    {
      NextIsUnique(groups);
      if groups == map[] {
        return 1;
      }
      ghost var top := SomeGroupIsLast(groups);
      var last :| last in groups && forall k | k in groups :: groups[k].sortOrder <= groups[last].sortOrder;
      assert IsNextSortOrder(groups, groups[last].sortOrder + 1);
      return groups[last].sortOrder + 1;
    }

    method CheckReferences(ids: seq<Json>) returns (error: Option<Error>)
      ensures error == if References(ids, achievements) then None else Some(UnknownReference)
    {
      if ids == [] {
        return None;
      }
      var missing := MissingIds(ids, achievements);
      return if missing == [] then None else Some(UnknownReference);
    }

    method CheckAchievementRule(rule: Json) returns (error: Option<Error>)
      ensures error == CheckRule(rule, achievements)
    {
      var ids := CollectIds(rule);
      if ids == None {
        return Some(BadRule);
      }
      error := CheckReferences(ids.value);
    }

    method CheckRequired(required: seq<string>) returns (error: Option<Error>)
      ensures error == if AllExist(required, achievements) then None else Some(UnknownReference)
    {
      error := CheckReferences(Quoted(required));
      QuotedReferences(required, achievements);
    }

    method CreateGroup(key: string, name: string, sortOrder: Option<int>) returns (error: Option<Error>)
      modifies this
      ensures GroupCreated(old(View()), key, name, sortOrder, View(), error)
      ensures Performed(old(View()), Admin.CreateGroup(key, name, sortOrder), View(), error)
      ensures Sound(old(View())) ==> Sound(View())
    {
      EditSound(View(), Admin.CreateGroup(key, name, sortOrder));
      CreateGroupMeans(View(), key, name, sortOrder);
      if key in groups {
        return Some(Conflict);
      }
      var target: int;
      if sortOrder.Some? {
        target := sortOrder.value;
      } else {
        target := NextGroupSortOrder();
      }
      groups := RoomForGroup(groups, target, key);
      groups := groups[key := Group(name, target)];
      return None;
    }

    method UpdateGroup(key: string, name: Option<string>, sortOrder: Option<int>) returns (error: Option<Error>)
      modifies this
      ensures GroupUpdated(old(View()), key, name, sortOrder, View(), error)
      ensures Performed(old(View()), Admin.UpdateGroup(key, name, sortOrder), View(), error)
      ensures Sound(old(View())) ==> Sound(View())
    {
      EditSound(View(), Admin.UpdateGroup(key, name, sortOrder));
      UpdateGroupMeans(View(), key, name, sortOrder);
      if key !in groups {
        return Some(NotFound);
      }
      var group := groups[key];
      if sortOrder.Some? && sortOrder.value != group.sortOrder {
        groups := RoomForGroup(groups, sortOrder.value, key);
      }
      groups := groups[key := Group(Or(name, group.name), Or(sortOrder, group.sortOrder))];
      return None;
    }

    /** The save at the end of the transaction; a violated constraint restores what the transaction began with. */
    method SaveAchievement(id: string, a: Achievement, room: map<string, Achievement>) returns (error: Option<Error>)
      modifies this
      ensures match error
              case None => SavedAchievement(old(View()), room, id, a) == Done(View())
              case Some(e) => SavedAchievement(old(View()), room, id, a) == Rejected(e) && View() == old(View())
    {
      if !AchievementNameFree(room, id, a.name) {
        return Some(DuplicateName);
      }
      if a.group !in groups {
        return Some(UnknownGroup);
      }
      achievements := room[id := a];
      return None;
    }

    method CreateAchievement(id: string, a: Achievement) returns (error: Option<Error>)
      modifies this
      ensures AchievementCreated(old(View()), id, a, View(), error)
      ensures Performed(old(View()), Admin.CreateAchievement(id, a), View(), error)
      ensures Sound(old(View())) ==> Sound(View())
    {
      EditSound(View(), Admin.CreateAchievement(id, a));
      CreateAchievementMeans(View(), id, a);
      error := CheckAchievementRule(a.rule);
      if error.Some? {
        return;
      }
      if id in achievements {
        return Some(Conflict);
      }
      error := SaveAchievement(id, a, RoomForAchievement(achievements, a.group, a.sortOrder, id));
    }

    method UpdateAchievement(id: string, name: Option<string>, group: Option<string>, sortOrder: Option<int>,
        rule: Option<Json>)
      returns (error: Option<Error>)
      modifies this
      ensures AchievementUpdated(old(View()), id, name, group, sortOrder, rule, View(), error)
      ensures Performed(old(View()), Admin.UpdateAchievement(id, name, group, sortOrder, rule), View(), error)
      ensures Sound(old(View())) ==> Sound(View())
    {
      EditSound(View(), Admin.UpdateAchievement(id, name, group, sortOrder, rule));
      UpdateAchievementMeans(View(), id, name, group, sortOrder, rule);
      if rule.Some? {
        error := CheckAchievementRule(rule.value);
        if error.Some? {
          return;
        }
      }
      if id !in achievements {
        return Some(NotFound);
      }
      var current := achievements[id];
      var merged := Achievement(Or(name, current.name), Or(group, current.group), Or(sortOrder, current.sortOrder),
        Or(rule, current.rule));
      var room := achievements;
      if merged.group != current.group || merged.sortOrder != current.sortOrder {
        room := RoomForAchievement(achievements, merged.group, merged.sortOrder, id);
      }
      error := SaveAchievement(id, merged, room);
    }

    method SaveBadge(id: string, b: Badge, room: map<string, Badge>) returns (error: Option<Error>)
      modifies this
      ensures match error
              case None => SavedBadge(old(View()), room, id, b) == Done(View())
              case Some(e) => SavedBadge(old(View()), room, id, b) == Rejected(e) && View() == old(View())
    {
      if !BadgeNameFree(room, id, b.name) {
        return Some(DuplicateName);
      }
      badges := room[id := b];
      return None;
    }

    /** The transaction of createBadge, once the references have been checked. */
    method InsertBadge(id: string, b: Badge) returns (error: Option<Error>)
      requires AllExist(b.required, achievements)
      modifies this
      ensures Performed(old(View()), Admin.CreateBadge(id, b), View(), error)
    {
      if id in badges {
        return Some(Conflict);
      }
      error := SaveBadge(id, b, RoomForBadge(badges, b.sortOrder, id));
    }

    method CreateBadge(id: string, b: Badge) returns (error: Option<Error>)
      modifies this
      ensures BadgeCreated(old(View()), id, b, View(), error)
      ensures Performed(old(View()), Admin.CreateBadge(id, b), View(), error)
      ensures Sound(old(View())) ==> Sound(View())
    {
      EditSound(View(), Admin.CreateBadge(id, b));
      CreateBadgeMeans(View(), id, b);
      error := CheckRequired(b.required);
      if error.None? {
        error := InsertBadge(id, b);
      }
    }

    /** The transaction of updateBadge, once the references have been checked. */
    method MergeBadge(id: string, name: Option<string>, sortOrder: Option<int>, required: Option<seq<string>>,
        reward: Option<int>)
      returns (error: Option<Error>)
      requires required.Some? ==> AllExist(required.value, achievements)
      modifies this
      ensures Performed(old(View()), Admin.UpdateBadge(id, name, sortOrder, required, reward), View(), error)
    {
      if id !in badges {
        return Some(NotFound);
      }
      var current := badges[id];
      var merged := Badge(Or(name, current.name), Or(sortOrder, current.sortOrder), Or(required, current.required),
        Or(reward, current.reward));
      var room := badges;
      if merged.sortOrder != current.sortOrder {
        room := RoomForBadge(badges, merged.sortOrder, id);
      }
      error := SaveBadge(id, merged, room);
    }

    method UpdateBadge(id: string, name: Option<string>, sortOrder: Option<int>, required: Option<seq<string>>,
        reward: Option<int>)
      returns (error: Option<Error>)
      modifies this
      ensures BadgeUpdated(old(View()), id, name, sortOrder, required, reward, View(), error)
      ensures Performed(old(View()), Admin.UpdateBadge(id, name, sortOrder, required, reward), View(), error)
      ensures Sound(old(View())) ==> Sound(View())
    {
      EditSound(View(), Admin.UpdateBadge(id, name, sortOrder, required, reward));
      UpdateBadgeMeans(View(), id, name, sortOrder, required, reward);
      error := None;
      if required.Some? {
        error := CheckRequired(required.value);
      }
      if error.None? {
        error := MergeBadge(id, name, sortOrder, required, reward);
      }
    }
  }

  lemma QuotedReferences(ids: seq<string>, achievements: map<string, Achievement>)
    ensures References(Quoted(ids), achievements) <==> AllExist(ids, achievements)
  {
    forall id | id in ids && References(Quoted(ids), achievements) ensures id in achievements {
      var i :| 0 <= i < |ids| && ids[i] == id;
      assert Quoted(ids)[i] == Str(id);
    }
  }

  lemma NextIsUnique(groups: map<string, Group>)
    ensures forall n, m | IsNextSortOrder(groups, n) && IsNextSortOrder(groups, m) :: n == m
  {
  }
}

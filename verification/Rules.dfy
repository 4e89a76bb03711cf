/** The achievement rule engine and the rule-shape validator, over arbitrary JSON. */
module Rules {
  import opened Json

  /**
   * The coercion JavaScript applies to a value that is not a number when it meets >=.
   * None stands for a TypeError. Nothing is assumed about it: every result below holds
   * for every coercion.
   */
  type Coercion = Json -> Option<Number>

  datatype Outcome = Value(b: bool) | Thrown

  datatype Context = Context(purchaseCount: int, totalSpendKobo: int, unlocked: set<string>)

  // ---------------------------------------------------------------- evaluation

  /** The number a rule field stands for; an absent field is undefined, hence NaN. */
  function ToNumber(coerce: Coercion, field: Option<Json>): (r: Option<Number>) {
    match field
    case None => Some(NaN)
    case Some(Num(n)) => Some(n)
    case Some(v) => coerce(v)
  }

  function Compare(coerce: Coercion, actual: int, expected: Option<Json>, operator: Option<Json>): (r: Outcome) {
    if operator == Some(Str("GTE")) then
      match ToNumber(coerce, expected)
      case Some(n) => Value(AtLeast(actual, n))
      case None => Thrown
    else Value(false)
  }

  /** How many entries of an id list are unlocked; repeats count each time, as filter does. */
  function CountUnlocked(ids: seq<Json>, unlocked: set<string>): (n: nat)
    ensures n <= |ids|
  {
    if ids == [] then 0
    else (if ids[0].Str? && ids[0].s in unlocked then 1 else 0) + CountUnlocked(ids[1..], unlocked)
  }

  /** minRequired ?? achievementIds.length: both an absent and a null bound mean "all". */
  function RequiredCount(coerce: Coercion, minRequired: Option<Json>, total: nat): (r: Option<Number>) {
    if minRequired == None || minRequired == Some(Null) then Some(Finite(total as real))
    else ToNumber(coerce, minRequired)
  }

  function EvaluateSet(coerce: Coercion, ids: seq<Json>, minRequired: Option<Json>,
      unlocked: set<string>): (r: Outcome) {
    match RequiredCount(coerce, minRequired, |ids|)
    case Some(n) => Value(AtLeast(CountUnlocked(ids, unlocked), n))
    case None => Thrown
  }

  function Evaluate(coerce: Coercion, rule: Json, ctx: Context): (r: Outcome)
    decreases rule, 1
  {
    var kind := Get(rule, "type");
    if kind == Some(Str("COUNT")) then
      Compare(coerce, ctx.purchaseCount, Get(rule, "value"), Get(rule, "operator"))
    else if kind == Some(Str("SUM")) then
      Compare(coerce, ctx.totalSpendKobo, Get(rule, "value"), Get(rule, "operator"))
    else if kind == Some(Str("ACHIEVEMENT_SET")) then
      match Get(rule, "achievementIds")
      case Some(Arr(ids)) => EvaluateSet(coerce, ids, Get(rule, "minRequired"), ctx.unlocked)
      case _ => Thrown
    else if kind == Some(Str("COMBINATION")) then
      if Get(rule, "rules").Some? && Get(rule, "rules").value.Arr? then
        EvaluateEvery(coerce, rule.fields["rules"].items, ctx)
      else Thrown
    else Thrown
  }

  /** Array.prototype.every: stops at the first false, and a throw escapes at once. */
  function EvaluateEvery(coerce: Coercion, rules: seq<Json>, ctx: Context): (r: Outcome)
    decreases rules, 0
  {
    if rules == [] then Value(true)
    else
      match Evaluate(coerce, rules[0], ctx)
      case Thrown => Thrown
      case Value(false) => Value(false)
      case Value(true) => EvaluateEvery(coerce, rules[1..], ctx)
  }

  predicate Holds(coerce: Coercion, rule: Json, ctx: Context) {
    Evaluate(coerce, rule, ctx) == Value(true)
  }

  /** every() is true exactly when each element is: the throws and the order play no part. */
  lemma {:induction false} EveryTrueIffAllHold(coerce: Coercion, rules: seq<Json>, ctx: Context)
    ensures EvaluateEvery(coerce, rules, ctx) == Value(true) <==>
            forall i | 0 <= i < |rules| :: Holds(coerce, rules[i], ctx)
  {
    if rules != [] {
      EveryTrueIffAllHold(coerce, rules[1..], ctx);
      assert forall i | 0 <= i < |rules[1..]| :: rules[1..][i] == rules[i + 1];
    }
  }

  /** The children of a COMBINATION whose rules field really is an array. */
  function Children(rule: Json): (r: Option<seq<Json>>)
    ensures r.Some? ==> rule.Obj? && "rules" in rule.fields && rule.fields["rules"] == Arr(r.value)
  {
    if Get(rule, "type") == Some(Str("COMBINATION")) then
      match Get(rule, "rules")
      case Some(Arr(items)) => Some(items)
      case _ => None
    else None
  }

  // ---------------------------------------------------------------- monotonicity

  predicate ContextLeq(a: Context, b: Context) {
    a.purchaseCount <= b.purchaseCount && a.totalSpendKobo <= b.totalSpendKobo && a.unlocked <= b.unlocked
  }

  lemma {:induction false} CountUnlockedMonotone(ids: seq<Json>, small: set<string>, large: set<string>)
    requires small <= large
    ensures CountUnlocked(ids, small) <= CountUnlocked(ids, large)
  {
    if ids != [] {
      CountUnlockedMonotone(ids[1..], small, large);
    }
  }

  /** Any rule, valid or not, that is satisfied stays satisfied as counts, spend and unlocks grow. */
  lemma {:induction false} HoldsMonotone(coerce: Coercion, rule: Json, a: Context, b: Context)
    requires ContextLeq(a, b)
    requires Holds(coerce, rule, a)
    ensures Holds(coerce, rule, b)
    decreases rule
  {
    var kind := Get(rule, "type");
    if kind == Some(Str("ACHIEVEMENT_SET")) {
      CountUnlockedMonotone(rule.fields["achievementIds"].items, a.unlocked, b.unlocked);
    } else if kind == Some(Str("COMBINATION")) {
      var items := rule.fields["rules"].items;
      EveryTrueIffAllHold(coerce, items, a);
      EveryTrueIffAllHold(coerce, items, b);
      forall i | 0 <= i < |items| ensures Holds(coerce, items[i], b) {
        HoldsMonotone(coerce, items[i], a, b);
      }
    }
  }

  // ---------------------------------------------------------------- fault isolation

  /**
   * A rule with a part, at any depth, that throws when it is reached. The definition looks only at the
   * text of the rule: no context, no order, no short-circuiting.
   */
  predicate Faulty(coerce: Coercion, rule: Json)
    decreases rule
  {
    var kind := Get(rule, "type");
    if kind == Some(Str("COUNT")) || kind == Some(Str("SUM")) then
      Get(rule, "operator") == Some(Str("GTE")) && ToNumber(coerce, Get(rule, "value")).None?
    else if kind == Some(Str("ACHIEVEMENT_SET")) then
      match Get(rule, "achievementIds")
      case Some(Arr(ids)) => RequiredCount(coerce, Get(rule, "minRequired"), |ids|).None?
      case _ => true
    else if kind == Some(Str("COMBINATION")) then
      match Children(rule)
      case Some(items) => exists i | 0 <= i < |items| :: Faulty(coerce, items[i])
      case None => true
    else true
  }

  lemma {:induction false} EveryThrowIsFaulty(coerce: Coercion, rules: seq<Json>, ctx: Context) returns (i: nat)
    requires EvaluateEvery(coerce, rules, ctx) == Thrown
    ensures i < |rules| && Evaluate(coerce, rules[i], ctx) == Thrown
  {
    if Evaluate(coerce, rules[0], ctx) == Thrown {
      i := 0;
    } else {
      var j := EveryThrowIsFaulty(coerce, rules[1..], ctx);
      i := j + 1;
    }
  }

  /** A throw seen in any context is the fault of the rule, not of the context. */
  lemma {:induction false} ThrownIsFaulty(coerce: Coercion, rule: Json, ctx: Context)
    requires Evaluate(coerce, rule, ctx) == Thrown
    ensures Faulty(coerce, rule)
    decreases rule
  {
    if Children(rule).Some? {
      var items := rule.fields["rules"].items;
      var i := EveryThrowIsFaulty(coerce, items, ctx);
      ThrownIsFaulty(coerce, items[i], ctx);
    }
  }

  /** However short-circuiting hides or delays the throw, a faulty rule is true in no context. */
  lemma {:induction false} FaultyNeverHolds(coerce: Coercion, rule: Json, ctx: Context)
    requires Faulty(coerce, rule)
    ensures !Holds(coerce, rule, ctx)
    decreases rule
  {
    if Children(rule).Some? {
      var items := rule.fields["rules"].items;
      var i :| 0 <= i < |items| && Faulty(coerce, items[i]);
      FaultyNeverHolds(coerce, items[i], ctx);
      EveryTrueIffAllHold(coerce, items, ctx);
    }
  }

  // ---------------------------------------------------------------- shape validation

  predicate IsThreshold(v: Option<Json>) {
    v.Some? && v.value.Num? && v.value.n.Finite? && v.value.n.value >= 0.0
  }

  predicate ValidShape(value: Json)
    decreases value
  {
    var kind := Get(value, "type");
    if kind == Some(Str("COUNT")) then
      Get(value, "field") == Some(Str("purchase_count")) && Get(value, "operator") == Some(Str("GTE")) &&
      IsThreshold(Get(value, "value"))
    else if kind == Some(Str("SUM")) then
      Get(value, "field") == Some(Str("total_spend_kobo")) && Get(value, "operator") == Some(Str("GTE")) &&
      IsThreshold(Get(value, "value"))
    else if kind == Some(Str("COMBINATION")) then
      Get(value, "operator") == Some(Str("AND")) &&
      Children(value).Some? &&
      |value.fields["rules"].items| > 0 &&
      forall i | 0 <= i < |value.fields["rules"].items| :: ValidShape(value.fields["rules"].items[i])
    else if kind == Some(Str("ACHIEVEMENT_SET")) then
      var ids := Get(value, "achievementIds");
      ids.Some? && ids.value.Arr? && |ids.value.items| > 0 &&
      (forall i | 0 <= i < |ids.value.items| :: ids.value.items[i].Str?) &&
      var bound := Get(value, "minRequired");
      (bound.None? || (bound.value.Num? && bound.value.n.Finite?))
    else false
  }

  /** An accepted rule has no throwing part, whatever the coercion. */
  lemma {:induction false} ValidIsNotFaulty(coerce: Coercion, rule: Json)
    requires ValidShape(rule)
    ensures !Faulty(coerce, rule)
    decreases rule
  {
    if Children(rule).Some? {
      var items := rule.fields["rules"].items;
      forall i | 0 <= i < |items| ensures !Faulty(coerce, items[i]) {
        ValidIsNotFaulty(coerce, items[i]);
      }
    }
  }

  /** What the validator lets through evaluates to a boolean in every context. */
  lemma ValidNeverThrows(coerce: Coercion, rule: Json, ctx: Context)
    requires ValidShape(rule)
    ensures Evaluate(coerce, rule, ctx).Value?
  {
    if Evaluate(coerce, rule, ctx) == Thrown {
      ThrownIsFaulty(coerce, rule, ctx);
      ValidIsNotFaulty(coerce, rule);
    }
  }

  // ---------------------------------------------------------------- referenced achievements

  /** collectAchievementSetIds; None is the TypeError of flatMap on something that is no array. */
  function CollectIds(rule: Json): (r: Option<seq<Json>>)
    decreases rule, 1
  {
    var kind := Get(rule, "type");
    if rule.Null? then None
    else if kind == Some(Str("ACHIEVEMENT_SET")) then
      match Get(rule, "achievementIds")
      case Some(Arr(ids)) => Some(ids)
      case _ => None
    else if kind == Some(Str("COMBINATION")) then
      if Children(rule).Some? then CollectAll(rule.fields["rules"].items) else None
    else Some([])
  }

  function CollectAll(rules: seq<Json>): (r: Option<seq<Json>>)
    decreases rules, 0
  {
    if rules == [] then Some([])
    else
      match (CollectIds(rules[0]), CollectAll(rules[1..]))
      case (Some(a), Some(b)) => Some(a + b)
      case _ => None
  }

  lemma {:induction false} CollectAllMember(rules: seq<Json>, i: nat)
    requires i < |rules| && CollectAll(rules).Some?
    ensures CollectIds(rules[i]).Some?
    ensures forall x | x in CollectIds(rules[i]).value :: x in CollectAll(rules).value
  {
    if i > 0 {
      CollectAllMember(rules[1..], i - 1);
    }
  }

  lemma {:induction false} CollectAllDefined(rules: seq<Json>)
    requires forall i | 0 <= i < |rules| :: CollectIds(rules[i]).Some? && AllStrings(CollectIds(rules[i]).value)
    ensures CollectAll(rules).Some? && AllStrings(CollectAll(rules).value)
  {
    if rules != [] {
      assert forall i | 0 <= i < |rules[1..]| :: rules[1..][i] == rules[i + 1];
      CollectAllDefined(rules[1..]);
    }
  }

  predicate AllStrings(ids: seq<Json>) {
    forall i | 0 <= i < |ids| :: ids[i].Str?
  }

  /** An accepted rule is collected without throwing, and every collected reference is a string. */
  lemma {:induction false} ValidCollects(rule: Json)
    requires ValidShape(rule)
    ensures CollectIds(rule).Some? && AllStrings(CollectIds(rule).value)
    decreases rule
  {
    if Children(rule).Some? {
      var items := rule.fields["rules"].items;
      forall i | 0 <= i < |items| ensures CollectIds(items[i]).Some? && AllStrings(CollectIds(items[i]).value) {
        ValidCollects(items[i]);
      }
      CollectAllDefined(items);
    }
  }

  predicate AgreeOn(ids: seq<Json>, a: set<string>, b: set<string>) {
    forall x | x in ids && x.Str? :: x.s in a <==> x.s in b
  }

  lemma {:induction false} CountUnlockedAgrees(ids: seq<Json>, a: set<string>, b: set<string>)
    requires AgreeOn(ids, a, b)
    ensures CountUnlocked(ids, a) == CountUnlocked(ids, b)
  {
    if ids != [] {
      assert AgreeOn(ids[1..], a, b);
      CountUnlockedAgrees(ids[1..], a, b);
    }
  }

  lemma {:induction false} EveryAgrees(coerce: Coercion, rules: seq<Json>, a: Context, b: Context)
    requires forall i | 0 <= i < |rules| :: Evaluate(coerce, rules[i], a) == Evaluate(coerce, rules[i], b)
    ensures EvaluateEvery(coerce, rules, a) == EvaluateEvery(coerce, rules, b)
  {
    if rules != [] {
      assert forall i | 0 <= i < |rules[1..]| :: rules[1..][i] == rules[i + 1];
      EveryAgrees(coerce, rules[1..], a, b);
    }
  }

  /**
   * The collected ids are all a rule can depend on: two contexts with the same counters that agree on
   * those ids give the same outcome, thrown or not. The reference check therefore misses no dependency.
   */
  lemma {:induction false} CollectedIdsAreAllDependencies(coerce: Coercion, rule: Json, a: Context, b: Context)
    requires CollectIds(rule).Some?
    requires a.purchaseCount == b.purchaseCount && a.totalSpendKobo == b.totalSpendKobo
    requires AgreeOn(CollectIds(rule).value, a.unlocked, b.unlocked)
    ensures Evaluate(coerce, rule, a) == Evaluate(coerce, rule, b)
    decreases rule
  {
    var kind := Get(rule, "type");
    if kind == Some(Str("ACHIEVEMENT_SET")) {
      CountUnlockedAgrees(rule.fields["achievementIds"].items, a.unlocked, b.unlocked);
    } else if kind == Some(Str("COMBINATION")) {
      var items := rule.fields["rules"].items;
      forall i | 0 <= i < |items| ensures Evaluate(coerce, items[i], a) == Evaluate(coerce, items[i], b) {
        CollectAllMember(items, i);
        CollectedIdsAreAllDependencies(coerce, items[i], a, b);
      }
      EveryAgrees(coerce, items, a, b);
    }
  }
}

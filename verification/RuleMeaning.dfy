/** What a rule means, told without the engine: which JSON it is written as, and when it holds. */
module RuleMeaning {
  import opened Json
  import opened Rules

  /** The four kinds of rule; bound None asks for every listed achievement. */
  datatype Rule =
    | Purchases(atLeast: real)
    | Spend(atLeast: real)
    | SomeOf(ids: seq<string>, bound: Option<real>)
    | AllOf(rules: seq<Rule>)

  predicate WellFormed(rule: Rule) {
    match rule
    case Purchases(v) => v >= 0.0
    case Spend(v) => v >= 0.0
    case SomeOf(ids, _) => ids != []
    case AllOf(rules) => rules != [] && forall i | 0 <= i < |rules| :: WellFormed(rules[i])
  }

  /** The positions of an id list that are unlocked; a repeated id counts at each of its positions. */
  function Hits(ids: seq<string>, unlocked: set<string>): (r: set<int>) {
    set i | 0 <= i < |ids| && ids[i] in unlocked
  }

  predicate Met(rule: Rule, purchases: int, spend: int, unlocked: set<string>) {
    match rule
    case Purchases(v) => purchases as real >= v
    case Spend(v) => spend as real >= v
    case SomeOf(ids, bound) => |Hits(ids, unlocked)| as real >= (if bound.Some? then bound.value else |ids| as real)
    case AllOf(rules) => forall i | 0 <= i < |rules| :: Met(rules[i], purchases, spend, unlocked)
  }

  predicate SameStrings(items: seq<Json>, ids: seq<string>) {
    |items| == |ids| && forall i | 0 <= i < |ids| :: items[i] == Str(ids[i])
  }

  /** The object written for a rule; fields it does not know are ignored. */
  predicate Encodes(value: Json, rule: Rule)
    decreases rule
  {
    match rule
    case Purchases(v) =>
      Get(value, "type") == Some(Str("COUNT")) && Get(value, "field") == Some(Str("purchase_count")) &&
      Get(value, "operator") == Some(Str("GTE")) && Get(value, "value") == Some(Num(Finite(v)))
    case Spend(v) =>
      Get(value, "type") == Some(Str("SUM")) && Get(value, "field") == Some(Str("total_spend_kobo")) &&
      Get(value, "operator") == Some(Str("GTE")) && Get(value, "value") == Some(Num(Finite(v)))
    case SomeOf(ids, bound) =>
      Get(value, "type") == Some(Str("ACHIEVEMENT_SET")) &&
      Get(value, "achievementIds").Some? && Get(value, "achievementIds").value.Arr? &&
      SameStrings(Get(value, "achievementIds").value.items, ids) &&
      Get(value, "minRequired") == (if bound.Some? then Some(Num(Finite(bound.value))) else None)
    case AllOf(rules) =>
      Get(value, "type") == Some(Str("COMBINATION")) && Get(value, "operator") == Some(Str("AND")) &&
      Get(value, "rules").Some? && Get(value, "rules").value.Arr? &&
      |Get(value, "rules").value.items| == |rules| &&
      forall i | 0 <= i < |rules| :: Encodes(Get(value, "rules").value.items[i], rules[i])
  }

  // ---------------------------------------------------------------- counting positions

  lemma {:induction false} CountLast(ids: seq<Json>, unlocked: set<string>)
    requires ids != []
    ensures var last := ids[|ids| - 1];
            CountUnlocked(ids, unlocked) ==
            CountUnlocked(ids[..|ids| - 1], unlocked) + (if last.Str? && last.s in unlocked then 1 else 0)
  {
    if |ids| > 1 {
      CountLast(ids[1..], unlocked);
      assert ids[1..][..|ids| - 2] == ids[..|ids| - 1][1..];
    }
  }

  /** The engine's count is the number of unlocked positions. */
  lemma {:induction false} CountIsHits(items: seq<Json>, ids: seq<string>, unlocked: set<string>)
    requires SameStrings(items, ids)
    ensures CountUnlocked(items, unlocked) == |Hits(ids, unlocked)|
  {
    if ids == [] {
      assert Hits(ids, unlocked) == {};
    } else {
      var n := |ids| - 1;
      CountIsHits(items[..n], ids[..n], unlocked);
      CountLast(items, unlocked);
      assert Hits(ids, unlocked) == Hits(ids[..n], unlocked) + (if ids[n] in unlocked then {n} else {});
    }
  }

  // ---------------------------------------------------------------- evaluation

  /** COUNT compares the purchases and SUM the spend; Infinity and NaN are never reached, -Infinity always. */
  lemma ThresholdMeans(coerce: Coercion, rule: Json, ctx: Context, n: Number)
    requires Get(rule, "type") == Some(Str("COUNT")) || Get(rule, "type") == Some(Str("SUM"))
    requires Get(rule, "operator") == Some(Str("GTE")) && Get(rule, "value") == Some(Num(n))
    ensures var actual := if Get(rule, "type") == Some(Str("COUNT")) then ctx.purchaseCount else ctx.totalSpendKobo;
            Evaluate(coerce, rule, ctx) == Value(n.NegInfinity? || (n.Finite? && actual as real >= n.value))
  {
  }

  predicate IsThresholdKind(kind: Option<Json>) {
    kind == Some(Str("COUNT")) || kind == Some(Str("SUM"))
  }

  predicate IsKnownKind(kind: Option<Json>) {
    IsThresholdKind(kind) || kind == Some(Str("ACHIEVEMENT_SET")) || kind == Some(Str("COMBINATION"))
  }

  /** Any other operator is never met, and any other type throws. */
  lemma UnknownMeans(coerce: Coercion, rule: Json, ctx: Context)
    ensures IsThresholdKind(Get(rule, "type")) && Get(rule, "operator") != Some(Str("GTE")) ==>
              Evaluate(coerce, rule, ctx) == Value(false)
    ensures !IsKnownKind(Get(rule, "type")) ==> Evaluate(coerce, rule, ctx) == Thrown
  {
  }

  /** An ACHIEVEMENT_SET counts unlocked positions against minRequired, or against all when that is absent or null. */
  lemma SetMeans(coerce: Coercion, rule: Json, ctx: Context, ids: seq<string>)
    requires Get(rule, "type") == Some(Str("ACHIEVEMENT_SET"))
    requires Get(rule, "achievementIds").Some? && Get(rule, "achievementIds").value.Arr?
    requires SameStrings(Get(rule, "achievementIds").value.items, ids)
    ensures Get(rule, "minRequired") == None || Get(rule, "minRequired") == Some(Null) ==>
              Evaluate(coerce, rule, ctx) == Value(|Hits(ids, ctx.unlocked)| >= |ids|)
    ensures forall b: real | Get(rule, "minRequired") == Some(Num(Finite(b))) ::
              Evaluate(coerce, rule, ctx) == Value(|Hits(ids, ctx.unlocked)| as real >= b)
  {
    CountIsHits(Get(rule, "achievementIds").value.items, ids, ctx.unlocked);
  }

  predicate AllMet(rules: seq<Rule>, ctx: Context) {
    forall i | 0 <= i < |rules| :: Met(rules[i], ctx.purchaseCount, ctx.totalSpendKobo, ctx.unlocked)
  }

  predicate EachMeans(coerce: Coercion, items: seq<Json>, rules: seq<Rule>, ctx: Context) {
    && |items| == |rules|
    && forall i | 0 <= i < |rules| ::
         Evaluate(coerce, items[i], ctx) == Value(Met(rules[i], ctx.purchaseCount, ctx.totalSpendKobo, ctx.unlocked))
  }

  lemma {:induction false} EveryMeans(coerce: Coercion, items: seq<Json>, rules: seq<Rule>, ctx: Context)
    requires EachMeans(coerce, items, rules, ctx)
    ensures EvaluateEvery(coerce, items, ctx) == Value(AllMet(rules, ctx))
  {
    if items != [] {
      EveryMeans(coerce, items[1..], rules[1..], ctx);
      assert AllMet(rules, ctx) <==>
        Met(rules[0], ctx.purchaseCount, ctx.totalSpendKobo, ctx.unlocked) && AllMet(rules[1..], ctx) by {
        assert rules == [rules[0]] + rules[1..];
      }
    }
  }

  /** Whatever the coercion, a written rule evaluates to whether it is met, in every context. */
  lemma {:induction false} EvaluateMeans(coerce: Coercion, value: Json, rule: Rule, ctx: Context)
    requires Encodes(value, rule)
    ensures Evaluate(coerce, value, ctx) == Value(Met(rule, ctx.purchaseCount, ctx.totalSpendKobo, ctx.unlocked))
    decreases rule
  {
    match rule
    case Purchases(v) => ThresholdMeans(coerce, value, ctx, Finite(v));
    case Spend(v) => ThresholdMeans(coerce, value, ctx, Finite(v));
    case SomeOf(ids, bound) => SetMeans(coerce, value, ctx, ids);
    case AllOf(rules) =>
      var items := Get(value, "rules").value.items;
      forall i | 0 <= i < |rules|
        ensures Evaluate(coerce, items[i], ctx) ==
                Value(Met(rules[i], ctx.purchaseCount, ctx.totalSpendKobo, ctx.unlocked))
      {
        EvaluateMeans(coerce, items[i], rules[i], ctx);
      }
      EveryMeans(coerce, items, rules, ctx);
  }

  // ---------------------------------------------------------------- what the validator accepts

  lemma {:induction false} EncodedIsValid(value: Json, rule: Rule)
    requires WellFormed(rule) && Encodes(value, rule)
    ensures ValidShape(value)
    decreases rule
  {
    if rule.AllOf? {
      var items := Get(value, "rules").value.items;
      forall i | 0 <= i < |items| ensures ValidShape(items[i]) {
        EncodedIsValid(items[i], rule.rules[i]);
      }
    }
  }

  lemma {:induction false} ReadStrings(items: seq<Json>) returns (ids: seq<string>)
    requires forall i | 0 <= i < |items| :: items[i].Str?
    ensures SameStrings(items, ids)
  {
    ids := seq(|items|, i requires 0 <= i < |items| => items[i].s);
  }

  lemma {:induction false} ValidEncodesAll(items: seq<Json>) returns (rules: seq<Rule>)
    requires forall i | 0 <= i < |items| :: ValidShape(items[i])
    ensures |rules| == |items|
    ensures forall i | 0 <= i < |items| :: WellFormed(rules[i]) && Encodes(items[i], rules[i])
    decreases items, 0
  {
    rules := [];
    if items != [] {
      var first := ValidEncodes(items[0]);
      var rest := ValidEncodesAll(items[1..]);
      rules := [first] + rest;
      assert forall i | 1 <= i < |items| :: items[1..][i - 1] == items[i] && rules[i] == rest[i - 1];
    }
  }

  lemma {:induction false} ValidEncodes(value: Json) returns (rule: Rule)
    requires ValidShape(value)
    ensures WellFormed(rule) && Encodes(value, rule)
    decreases value, 1
  {
    var kind := Get(value, "type").value.s;
    if kind == "COUNT" {
      rule := Purchases(Get(value, "value").value.n.value);
    } else if kind == "SUM" {
      rule := Spend(Get(value, "value").value.n.value);
    } else if kind == "ACHIEVEMENT_SET" {
      var ids := ReadStrings(Get(value, "achievementIds").value.items);
      var bound := Get(value, "minRequired");
      rule := SomeOf(ids, if bound.Some? then Some(bound.value.n.value) else None);
    } else {
      var rules := ValidEncodesAll(value.fields["rules"].items);
      rule := AllOf(rules);
    }
  }

  ghost predicate IsWritten(value: Json) {
    exists rule :: WellFormed(rule) && Encodes(value, rule)
  }

  /** The validator accepts exactly the JSON that is written for some well-formed rule. */
  lemma ValidIffWritten(value: Json)
    ensures ValidShape(value) <==> IsWritten(value)
  {
    if ValidShape(value) {
      var rule := ValidEncodes(value);
    }
    if IsWritten(value) {
      var rule :| WellFormed(rule) && Encodes(value, rule);
      EncodedIsValid(value, rule);
    }
  }

  // ---------------------------------------------------------------- what the collector finds

  lemma {:induction false} CollectAllMeans(items: seq<Json>)
    ensures CollectAll(items).Some? <==> forall i | 0 <= i < |items| :: CollectIds(items[i]).Some?
    ensures CollectAll(items).Some? ==>
              forall x :: x in CollectAll(items).value <==>
                exists i :: 0 <= i < |items| && x in CollectIds(items[i]).value
  {
    if items != [] {
      CollectAllMeans(items[1..]);
      assert items == [items[0]] + items[1..];
      if CollectAll(items).Some? {
        forall x ensures x in CollectAll(items).value <==>
                         exists i :: 0 <= i < |items| && x in CollectIds(items[i]).value
        {
          if i :| 0 <= i < |items[1..]| && x in CollectIds(items[1..][i]).value {
            assert x in CollectIds(items[i + 1]).value;
          }
          if i :| 0 <= i < |items| && x in CollectIds(items[i]).value {
            assert i > 0 ==> x in CollectIds(items[1..][i - 1]).value;
          }
        }
      }
    }
  }

  /** What is collected from any JSON value, and when collecting throws. */
  lemma CollectMeans(value: Json)
    ensures value.Null? ==> CollectIds(value) == None
    ensures Get(value, "type") == Some(Str("ACHIEVEMENT_SET")) ==>
              CollectIds(value) ==
              match Get(value, "achievementIds") case Some(Arr(ids)) => Some(ids) case _ => None
    ensures Get(value, "type") == Some(Str("COMBINATION")) ==>
              match Get(value, "rules")
              case Some(Arr(items)) =>
                && (CollectIds(value).Some? <==> forall i | 0 <= i < |items| :: CollectIds(items[i]).Some?)
                && (CollectIds(value).Some? ==>
                      forall x :: x in CollectIds(value).value <==>
                        exists i :: 0 <= i < |items| && x in CollectIds(items[i]).value)
              case _ => CollectIds(value) == None
    ensures (!value.Null? && Get(value, "type") != Some(Str("ACHIEVEMENT_SET")) &&
             Get(value, "type") != Some(Str("COMBINATION"))) ==> CollectIds(value) == Some([])
  {
    if Children(value).Some? {
      CollectAllMeans(Children(value).value);
    }
  }

  /** The rule, at any depth, asks about this id. */
  predicate AsksAbout(rule: Rule, id: string) {
    match rule
    case SomeOf(ids, _) => id in ids
    case AllOf(rules) => exists i :: 0 <= i < |rules| && AsksAbout(rules[i], id)
    case _ => false
  }

  lemma {:induction false} CollectAllFinds(items: seq<Json>, rules: seq<Rule>, id: string)
    requires |items| == |rules|
    requires forall i | 0 <= i < |rules| ::
               CollectIds(items[i]).Some? && (Str(id) in CollectIds(items[i]).value <==> AsksAbout(rules[i], id))
    ensures CollectAll(items).Some?
    ensures Str(id) in CollectAll(items).value <==> exists i :: 0 <= i < |rules| && AsksAbout(rules[i], id)
  {
    if items != [] {
      assert forall i | 0 <= i < |rules[1..]| :: rules[1..][i] == rules[i + 1] && items[1..][i] == items[i + 1];
      CollectAllFinds(items[1..], rules[1..], id);
      if i :| 0 <= i < |rules| && AsksAbout(rules[i], id) {
        assert i > 0 ==> AsksAbout(rules[1..][i - 1], id);
      }
      if i :| 0 <= i < |rules[1..]| && AsksAbout(rules[1..][i], id) {
        assert AsksAbout(rules[i + 1], id);
      }
    }
  }

  /** The ids collected from a written rule are exactly those it asks about. */
  lemma {:induction false} CollectsExactly(value: Json, rule: Rule, id: string)
    requires Encodes(value, rule)
    ensures CollectIds(value).Some? && (Str(id) in CollectIds(value).value <==> AsksAbout(rule, id))
    decreases rule
  {
    match rule
    case Purchases(v) =>
    case Spend(v) =>
    case SomeOf(ids, bound) =>
      var items := Get(value, "achievementIds").value.items;
      if Str(id) in items {
        var i :| 0 <= i < |items| && items[i] == Str(id);
        assert ids[i] == id;
      }
      if id in ids {
        var i :| 0 <= i < |ids| && ids[i] == id;
        assert items[i] == Str(id);
      }
    case AllOf(rules) =>
      var items := Get(value, "rules").value.items;
      forall i | 0 <= i < |rules|
        ensures CollectIds(items[i]).Some? && (Str(id) in CollectIds(items[i]).value <==> AsksAbout(rules[i], id))
      {
        CollectsExactly(items[i], rules[i], id);
      }
      CollectAllFinds(items, rules, id);
  }
}

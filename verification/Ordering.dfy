/** Insert-at-position ordering, shared by achievement groups, achievements and badges. */
module Ordering {

  /** A position inside an ordered list; achievements have one list per group. */
  datatype Slot = Slot(list: string, at: int)

  type Slots = map<string, Slot>

  predicate DistinctSlots(slots: Slots) {
    forall a, b | a in slots && b in slots && slots[a] == slots[b] :: a == b
  }

  /** Everything at or after the target moves down by one, except the excluded item. */
  function Shifted(slots: Slots, list: string, target: int, except: string): (r: Slots) {
    map k | k in slots :: (if k != except && slots[k].list == list && slots[k].at >= target then
      Slot(list, slots[k].at + 1) else slots[k])
  }

  function Placed(slots: Slots, item: string, list: string, target: int): (r: Slots) {
    Shifted(slots, list, target, item)[item := Slot(list, target)]
  }

  predicate Before(slots: Slots, a: string, b: string) {
    a in slots && b in slots && slots[a].list == slots[b].list && slots[a].at < slots[b].at
  }

  /** Items other than those touched stay, in the same list and in the same order. */
  predicate OrderKept(slots: Slots, slots': Slots, touched: set<string>) {
    && (forall a | a in slots && a !in touched :: a in slots' && slots'[a].list == slots[a].list)
    && (forall a | a in slots' && a !in touched :: a in slots)
    && (forall a, b | a in slots && b in slots && a !in touched && b !in touched :: Before(slots, a, b) <==>
       Before(slots', a, b))
  }

  /** Distinctness survives, the item lands at its target, and nobody else is reordered. */
  lemma PlacedIsInsertion(slots: Slots, item: string, list: string, target: int)
    requires DistinctSlots(slots)
    ensures DistinctSlots(Placed(slots, item, list, target))
    ensures Placed(slots, item, list, target)[item] == Slot(list, target)
    ensures OrderKept(slots, Placed(slots, item, list, target), {item})
  {
  }

  /** What stood before the target stays where it was, and what stood at or after it now follows the item. */
  lemma PlacedSplitsTheList(slots: Slots, item: string, list: string, target: int, other: string)
    requires other in slots && other != item && slots[other].list == list
    ensures Before(Placed(slots, item, list, target), other, item) <==> slots[other].at < target
    ensures Before(Placed(slots, item, list, target), item, other) <==> slots[other].at >= target
    ensures Placed(slots, item, list, target)[other].at == slots[other].at +
            (if slots[other].at >= target then 1 else 0)
  {
  }

  lemma OrderKeptTrans(a: Slots, b: Slots, c: Slots, s: set<string>, t: set<string>)
    requires OrderKept(a, b, s) && OrderKept(b, c, t)
    ensures OrderKept(a, c, s + t)
  {
    forall x, y | x in a && y in a && x !in s + t && y !in s + t ensures Before(a, x, y) <==> Before(c, x, y) {
      assert Before(a, x, y) <==> Before(b, x, y);
    }
  }
}

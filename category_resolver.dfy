/**
 * The category resolver of the Go command (`applyCategoryMapping`): an exact key first, then a
 * case-insensitive substring scan over the mapping in Go's map iteration order.
 */
module CategoryResolver {
  import opened Wrappers
  import opened Strings
  import opened Common

  type Mapping = map<string, Category>

  /**
   * Go's `range` over a map visits every key exactly once, in an order the language leaves
   * unspecified; `order` is any such visit order.
   */
  ghost predicate IsEnumeration(order: seq<string>, mapping: Mapping)
  {
    && (forall k :: k in mapping ==> k in order)
    && (forall i :: 0 <= i < |order| ==> order[i] in mapping)
    && (forall i, j :: 0 <= i < j < |order| ==> order[i] != order[j])
  }

  /** The substring test of the scan: the lower-cased key occurs in the lower-cased payee. */
  predicate KeyMatches(key: string, payee: string)
  {
    Contains(Lower(payee), Lower(key))
  }

  /** Every key matches a payee equal to it. */
  lemma KeyMatchesItself(payee: string)
    ensures KeyMatches(payee, payee)
  {
    var l := Lower(payee);
    assert IsPrefix(l, l);
  }

  /** The position in `order` where the scan stops, if any key matches. */
  function FirstMatch(order: seq<string>, payee: string): (r: Option<nat>)
    ensures r.Some? ==> r.value < |order| && KeyMatches(order[r.value], payee)
    ensures r.Some? ==> forall j :: 0 <= j < r.value ==> !KeyMatches(order[j], payee)
    ensures r.None? <==> forall j :: 0 <= j < |order| ==> !KeyMatches(order[j], payee)
  {
    if order == [] then None
    else if KeyMatches(order[0], payee) then Some(0)
    else match FirstMatch(order[1..], payee)
      case None => None
      case Some(i) => Some(i + 1)
  }

  /** The payee written through `payeeOut` by one rule: its name if it has one. */
  function Renamed(rule: Category, current: string): string
  {
    if rule.name.Some? then rule.name.value else current
  }

  datatype Resolution = Resolution(category: string, payee: string)

  /**
   * What `applyCategoryMapping(payee, mapping, &out)` returns and leaves in `out`, when `out`
   * holds `payeeOut` on entry and the scan visits the keys in `order`.
   */
  function Resolve(payee: string, mapping: Mapping, order: seq<string>, payeeOut: string): Resolution
    requires forall i :: 0 <= i < |order| ==> order[i] in mapping
  {
    var afterExact := if payee in mapping then Renamed(mapping[payee], payeeOut) else payeeOut;
    if payee in mapping && mapping[payee].category.Some? then
      Resolution(mapping[payee].category.value, afterExact)
    else
      match FirstMatch(order, payee)
      case None => Resolution("", afterExact)
      case Some(i) =>
        var rule := mapping[order[i]];
        Resolution(if rule.category.Some? then rule.category.value else "", Renamed(rule, afterExact))
  }

  /**
   * `applyCategoryMapping`: `payeeOutIn` is the string `payeeOut` refers to on entry and
   * `payeeOut` the string left there.
   */
  method ApplyCategoryMapping(payee: string, mapping: Mapping, order: seq<string>, payeeOutIn: string)
    returns (category: string, payeeOut: string)
    requires IsEnumeration(order, mapping)
    ensures Resolution(category, payeeOut) == Resolve(payee, mapping, order, payeeOutIn)
  {
    payeeOut := payeeOutIn;
    if payee in mapping {
      var cat := mapping[payee];
      if cat.name.Some? {
        payeeOut := cat.name.value;
      }
      if cat.category.Some? {
        return cat.category.value, payeeOut;
      }
    }
    ghost var afterExact := payeeOut;
    var i := 0;
    while i < |order|
      invariant 0 <= i <= |order|
      invariant payeeOut == afterExact
      invariant forall j :: 0 <= j < i ==> !KeyMatches(order[j], payee)
    {
      var key := order[i];
      var cat := mapping[key];
      if Contains(Lower(payee), Lower(key)) {
        if cat.name.Some? {
          payeeOut := cat.name.value;
        }
        if cat.category.Some? {
          return cat.category.value, payeeOut;
        }
        break;
      }
      i := i + 1;
    }
    category := "";
  }

  /** An exact key with a category decides the result, whatever the visit order. */
  lemma ExactCategoryWins(payee: string, mapping: Mapping, order: seq<string>, payeeOut: string)
    requires IsEnumeration(order, mapping)
    requires payee in mapping && mapping[payee].category.Some?
    ensures Resolve(payee, mapping, order, payeeOut)
         == Resolution(mapping[payee].category.value, Renamed(mapping[payee], payeeOut))
  {
  }

  /**
   * An exact key without a category applies its name and falls through to the scan, which
   * always stops: the key itself matches the payee.
   */
  lemma ExactWithoutCategoryFallsThrough(payee: string, mapping: Mapping, order: seq<string>, payeeOut: string)
    requires IsEnumeration(order, mapping)
    requires payee in mapping && mapping[payee].category.None?
    ensures FirstMatch(order, payee).Some?
    ensures var rule := mapping[order[FirstMatch(order, payee).value]];
            (Resolve(payee, mapping, order, payeeOut)
             == Resolution(if rule.category.Some? then rule.category.value else "",
                           Renamed(rule, Renamed(mapping[payee], payeeOut))))
  {
    KeyMatchesItself(payee);
    var i :| 0 <= i < |order| && order[i] == payee;
    assert KeyMatches(order[i], payee);
  }

  /** No exact key and no matching key: category "" and the out-string untouched. */
  lemma NoMatchLeavesPayee(payee: string, mapping: Mapping, order: seq<string>, payeeOut: string)
    requires IsEnumeration(order, mapping)
    requires payee !in mapping
    requires forall k :: k in mapping ==> !KeyMatches(k, payee)
    ensures Resolve(payee, mapping, order, payeeOut) == Resolution("", payeeOut)
  {
    assert FirstMatch(order, payee).None?;
  }

  /** With no exact key, the scan stops at the first matching key even when it has no category. */
  lemma ScanStopsAtFirstMatch(payee: string, mapping: Mapping, order: seq<string>, payeeOut: string, i: nat)
    requires IsEnumeration(order, mapping)
    requires payee !in mapping
    requires i < |order| && KeyMatches(order[i], payee)
    requires forall j :: 0 <= j < i ==> !KeyMatches(order[j], payee)
    ensures mapping[order[i]].category.None? ==>
              Resolve(payee, mapping, order, payeeOut) == Resolution("", Renamed(mapping[order[i]], payeeOut))
    ensures mapping[order[i]].category.Some? ==>
              (Resolve(payee, mapping, order, payeeOut)
               == Resolution(mapping[order[i]].category.value, Renamed(mapping[order[i]], payeeOut)))
  {
    var r := FirstMatch(order, payee);
    assert r.Some?;
    assert r.value == i;
  }

  /**
   * Every category returned comes from a key equal to the payee or matching it, and the
   * out-string is either what it was on entry or the name of such a key.
   */
  lemma ResolveSound(payee: string, mapping: Mapping, order: seq<string>, payeeOut: string)
    requires IsEnumeration(order, mapping)
    ensures var r := Resolve(payee, mapping, order, payeeOut);
            r.category == "" ||
            exists k :: k in mapping && (k == payee || KeyMatches(k, payee)) && mapping[k].category == Some(r.category)
    ensures var r := Resolve(payee, mapping, order, payeeOut);
            r.payee == payeeOut ||
            exists k :: k in mapping && (k == payee || KeyMatches(k, payee)) && mapping[k].name == Some(r.payee)
  {
    var r := Resolve(payee, mapping, order, payeeOut);
    var m := FirstMatch(order, payee);
    if !(payee in mapping && mapping[payee].category.Some?) && m.Some? {
      var k := order[m.value];
      assert k in mapping && KeyMatches(k, payee);
    }
  }

  /** When at most one key matches the payee, every visit order gives the same result. */
  lemma OrderIrrelevantWhenUnique(payee: string, mapping: Mapping, o1: seq<string>, o2: seq<string>, payeeOut: string)
    requires IsEnumeration(o1, mapping) && IsEnumeration(o2, mapping)
    requires forall k1, k2 :: k1 in mapping && k2 in mapping && KeyMatches(k1, payee) && KeyMatches(k2, payee) ==> k1 == k2
    ensures Resolve(payee, mapping, o1, payeeOut) == Resolve(payee, mapping, o2, payeeOut)
  {
    var m1, m2 := FirstMatch(o1, payee), FirstMatch(o2, payee);
    if m1.Some? {
      assert o1[m1.value] in o2;
      var j :| 0 <= j < |o2| && o2[j] == o1[m1.value];
      assert m2.Some?;
      assert o2[m2.value] == o1[m1.value];
    }
  }

  /**
   * The scan tests the payee argument, not the renamed out-string: with "Shop" renamed to
   * "Store" by a rule without category, the key "store" is never reached, whatever the order.
   */
  lemma ScanUsesOriginalPayee(order: seq<string>)
    requires IsEnumeration(order, map["Shop" := Category(None, Some("Store")), "store" := Category(Some("Retail"), None)])
    ensures Resolve("Shop", map["Shop" := Category(None, Some("Store")), "store" := Category(Some("Retail"), None)], order, "Shop")
         == Resolution("", "Store")
  {
    var mapping := map["Shop" := Category(None, Some("Store")), "store" := Category(Some("Retail"), None)];
    if KeyMatches("store", "Shop") {
      ContainsLength(Lower("Shop"), Lower("store"));
    }
    ExactWithoutCategoryFallsThrough("Shop", mapping, order, "Shop");
  }
}

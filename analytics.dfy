/** The analytics overview: for the first company in the caller's list, the
    number of its inventory items and a histogram of them by category name. */
module AnalyticsController {
  import opened Wrappers
  import opened Entities
  import opened Store
  import InventoryItemService

  /** The overview map's three entries. */
  datatype Analytics = Analytics(totalCompanies: nat, totalInventoryItems: nat, inventoryByCategory: map<string, nat>)

  /** The items among `ks` whose category is named `name`. */
  function Filed(items: map<nat, InventoryItem>, categories: map<nat, ItemCategory>, ks: set<nat>, name: string)
    : set<nat>
    requires ItemsConsistent(items, categories) && ks <= items.Keys
  {
    set k | k in ks && categories[items[k].category].name == name
  }

  /** `h` counts the items `ks` by category name: a name is a key exactly
      when some item is filed under it, and its value is how many are. */
  ghost predicate IsHistogram(h: map<string, nat>, items: map<nat, InventoryItem>, categories: map<nat, ItemCategory>,
                              ks: set<nat>)
    requires ItemsConsistent(items, categories) && ks <= items.Keys
  {
    && (forall name :: name in h <==> Filed(items, categories, ks, name) != {})
    && (forall name :: name in h ==> h[name] == |Filed(items, categories, ks, name)|)
  }

  /** The sum of a histogram's values. */
  ghost function Total(m: map<string, nat>): nat
    decreases |m|
  {
    if m == map[] then 0
    else
      var k :| k in m;
      m[k] + Total(m - {k})
  }

  /** The sum does not depend on which key is taken first. */
  lemma {:induction false} TotalRemove(m: map<string, nat>, k: string)
    requires k in m
    ensures Total(m) == m[k] + Total(m - {k})
    decreases |m|
  {
    var j :| j in m && Total(m) == m[j] + Total(m - {j});
    if j != k {
      assert (m - {j}) - {k} == (m - {k}) - {j};
      TotalRemove(m - {j}, k);
      TotalRemove(m - {k}, j);
    }
  }

  /** `merge(name, 1, Long::sum)`: one more under `name`. */
  function Merge(m: map<string, nat>, name: string): (m': map<string, nat>)
    ensures m'.Keys == m.Keys + {name}
    ensures m'[name] == (if name in m then m[name] + 1 else 1)
    ensures forall n :: n in m && n != name ==> m'[n] == m[n]
  {
    m[name := if name in m then m[name] + 1 else 1]
  }

  /** A merge adds one to the sum. */
  lemma {:induction false} TotalMerge(m: map<string, nat>, name: string)
    ensures Total(Merge(m, name)) == Total(m) + 1
  {
    var m' := Merge(m, name);
    TotalRemove(m', name);
    assert m' - {name} == m - {name};
    if name in m {
      TotalRemove(m, name);
    } else {
      assert m - {name} == m;
    }
  }

  /** Filing one more item adds it under its own category name only. */
  lemma {:induction false} FiledGrows(items: map<nat, InventoryItem>, categories: map<nat, ItemCategory>,
                                      done: set<nat>, k: nat, name: string)
    requires ItemsConsistent(items, categories) && done <= items.Keys && k in items
    ensures Filed(items, categories, done + {k}, name) ==
            Filed(items, categories, done, name) + (if categories[items[k].category].name == name then {k} else {})
  {
  }

  /** Counting one more item keeps the histogram exact. */
  lemma {:induction false} HistogramStep(h: map<string, nat>, items: map<nat, InventoryItem>,
                                         categories: map<nat, ItemCategory>, done: set<nat>, k: nat)
    requires ItemsConsistent(items, categories) && done <= items.Keys && k in items && k !in done
    requires IsHistogram(h, items, categories, done)
    ensures IsHistogram(Merge(h, categories[items[k].category].name), items, categories, done + {k})
  {
    var name := categories[items[k].category].name;
    var h' := Merge(h, name);
    var done' := done + {k};
    forall n
      ensures n in h' <==> Filed(items, categories, done', n) != {}
      ensures n in h' ==> h'[n] == |Filed(items, categories, done', n)|
    {
      FiledGrows(items, categories, done, k, n);
      if n == name {
        assert k !in Filed(items, categories, done, n);
        assert k in Filed(items, categories, done', n);
      }
    }
  }

  /** Taking `k` out of the items still to count moves it to the counted ones. */
  lemma MoveOne(listed: set<nat>, remaining: set<nat>, k: nat)
    requires remaining <= listed && k in remaining
    ensures k !in listed - remaining
    ensures listed - (remaining - {k}) == (listed - remaining) + {k}
    ensures |remaining - {k}| == |remaining| - 1
  {
  }

  /** The `forEach` over the company's items: merge one per item into the
      map under its category's name. */
  method CountByCategory(items: map<nat, InventoryItem>, categories: map<nat, ItemCategory>, listed: set<nat>)
    returns (byCategory: map<string, nat>)
    requires ItemsConsistent(items, categories) && listed <= items.Keys
    ensures IsHistogram(byCategory, items, categories, listed)
    ensures Total(byCategory) == |listed|
  {
    byCategory := map[];
    var remaining := listed;
    while remaining != {}
      invariant remaining <= listed
      invariant IsHistogram(byCategory, items, categories, listed - remaining)
      invariant Total(byCategory) + |remaining| == |listed|
      decreases |remaining|
    {
      var k :| k in remaining;
      var name := categories[items[k].category].name;
      MoveOne(listed, remaining, k);
      HistogramStep(byCategory, items, categories, listed - remaining, k);
      TotalMerge(byCategory, name);
      byCategory := Merge(byCategory, name);
      remaining := remaining - {k};
    }
    assert listed - remaining == listed;
  }

  /** `getCompanyAnalytics`: the first company id of the caller (an empty
      list fails as `get(0)` does), one company, its item count, and the
      histogram of its items. */
  method GetCompanyAnalytics(w: World, companyIds: seq<nat>) returns (r: Result<Analytics>)
    requires w.Valid()
    ensures companyIds == [] ==> r == Err(IndexOutOfBounds)
    ensures companyIds != [] ==>
      var listed := InventoryItemService.CompanyItems(w.items, companyIds[0]);
      && r.Ok?
      && r.value.totalCompanies == 1
      && r.value.totalInventoryItems == |listed|
      && IsHistogram(r.value.inventoryByCategory, w.items, w.categories, listed)
      && Total(r.value.inventoryByCategory) == r.value.totalInventoryItems
  {
    if companyIds == [] {
      return Err(IndexOutOfBounds);
    }
    var listed := InventoryItemService.CompanyItems(w.items, companyIds[0]);
    var byCategory := CountByCategory(w.items, w.categories, listed);
    return Ok(Analytics(1, |listed|, byCategory));
  }

  /** Every item of the company is counted once: the values add up to the
      item count, and a name with no items is not a key. */
  lemma {:induction false} HistogramCoversItems(h: map<string, nat>, items: map<nat, InventoryItem>,
                                                categories: map<nat, ItemCategory>, company: nat, name: string)
    requires ItemsConsistent(items, categories)
    requires IsHistogram(h, items, categories, InventoryItemService.CompanyItems(items, company))
    ensures name in h <==> exists k :: k in items && items[k].company == company &&
                                      categories[items[k].category].name == name
    ensures name in h ==> h[name] > 0
  {
    var listed := InventoryItemService.CompanyItems(items, company);
    if name in h {
      var k :| k in Filed(items, categories, listed, name);
    } else {
      forall k | k in items && items[k].company == company ensures categories[items[k].category].name != name {
        assert k !in Filed(items, categories, listed, name);
      }
    }
  }
}

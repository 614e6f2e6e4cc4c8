/**
 * The medicine inventory view: stock and expiry classification, the combined
 * search and category filter, the category list and the two alert counters.
 * The list itself is fixed when the view is created and never changes, so it
 * is a plain value here. Days until expiry, which the view computes from the
 * clock, are supplied as a function of the expiry date.
 */
module MedicineInventory {
  import opened Query
  import opened Text

  datatype Medicine = Medicine(
    id: string,
    name: string,
    category: string,
    stock: int,
    minStock: int,
    expiryDate: string,
    batchNumber: string,
    supplier: string)

  datatype StockStatus = Out | Low | Good

  /** `getStockStatus`: the zero check comes first, then the minimum. */
  function StockStatusOf(stock: int, minStock: int): (r: StockStatus)
    ensures r == Out <==> stock == 0
    ensures r == Low <==> stock != 0 && stock <= minStock
    ensures r == Good <==> stock != 0 && stock > minStock
  {
    if stock == 0 then Out else if stock <= minStock then Low else Good
  }

  function StockLabel(s: StockStatus): string {
    match s
    case Out => "out"
    case Low => "low"
    case Good => "good"
  }

  /** The badge variant shown with a status. */
  function StatusColor(s: StockStatus): string {
    match s
    case Out => "destructive"
    case Low => "outline"
    case Good => "secondary"
  }

  datatype ExpiryStatus = Expired | Expiring | Fresh

  /** `getExpiryStatus` over the whole-day count until the expiry date. */
  function ExpiryStatusOf(daysUntilExpiry: int): (r: ExpiryStatus)
    ensures r == Expired <==> daysUntilExpiry < 0
    ensures r == Expiring <==> 0 <= daysUntilExpiry <= 30
    ensures r == Fresh <==> daysUntilExpiry > 30
  {
    if daysUntilExpiry < 0 then Expired else if daysUntilExpiry <= 30 then Expiring else Fresh
  }

  function ExpiryLabel(s: ExpiryStatus): string {
    match s
    case Expired => "expired"
    case Expiring => "expiring"
    case Fresh => "good"
  }

  function ExpiryColor(s: ExpiryStatus): string {
    match s
    case Expired => "destructive"
    case Expiring => "outline"
    case Fresh => "secondary"
  }

  /** Each classification uses three distinct labels and three distinct colours, the same colour for the same severity. */
  lemma LabelsAndColorsDistinct(a: StockStatus, b: StockStatus, x: ExpiryStatus, y: ExpiryStatus)
    ensures a != b ==> StockLabel(a) != StockLabel(b) && StatusColor(a) != StatusColor(b)
    ensures x != y ==> ExpiryLabel(x) != ExpiryLabel(y) && ExpiryColor(x) != ExpiryColor(y)
    ensures StatusColor(Out) == ExpiryColor(Expired) && StatusColor(Low) == ExpiryColor(Expiring)
            && StatusColor(Good) == ExpiryColor(Fresh)
  {
  }

  /** The search box and the category select, as one condition. */
  function Matches(search: string, category: string): Medicine -> bool {
    (m: Medicine) => Contains(ToLower(m.name), ToLower(search)) && (category == "all" || m.category == category)
  }

  function FilteredMedicines(meds: seq<Medicine>, search: string, category: string): seq<Medicine> {
    Filter(meds, Matches(search, category))
  }

  /**
   * The list shown keeps exactly the medicines whose name contains the search
   * text, ignoring case, and whose category is the selected one (any, for
   * "all"), in inventory order; an empty search with "all" shows everything.
   */
  lemma FilteredMedicinesExact(meds: seq<Medicine>, search: string, category: string)
    ensures forall m :: m in FilteredMedicines(meds, search, category) <==>
      m in meds
      && (exists i :: 0 <= i <= |m.name| - |search| && OccursAt(ToLower(m.name), ToLower(search), i))
      && (category == "all" || m.category == category)
    ensures SubsequenceOf(FilteredMedicines(meds, search, category), meds)
    ensures search == "" && category == "all" ==> FilteredMedicines(meds, search, category) == meds
  {
    var p := Matches(search, category);
    forall m ensures m in FilteredMedicines(meds, search, category) <==>
      m in meds
      && (exists i :: 0 <= i <= |m.name| - |search| && OccursAt(ToLower(m.name), ToLower(search), i))
      && (category == "all" || m.category == category)
    {
      FilterMembers(meds, p, m);
      ContainsIff(ToLower(m.name), ToLower(search));
    }
    FilterIsSubsequence(meds, p);
    if search == "" && category == "all" {
      forall m | m in meds ensures p(m) {
        ContainsEmpty(ToLower(m.name));
      }
      FilterKeepsAll(meds, p);
    }
  }

  /** The index where `x` first occurs in `xs`. */
  function FirstIndex(xs: seq<string>, x: string): (k: nat)
    requires x in xs
    ensures k < |xs| && xs[k] == x
  {
    if xs[0] == x then 0 else 1 + FirstIndex(xs[1..], x)
  }

  /** No occurrence of `x` comes before its first index. */
  lemma {:induction false} FirstIndexBefore(xs: seq<string>, x: string, j: int)
    requires 0 <= j < |xs| && xs[j] == x
    ensures FirstIndex(xs, x) <= j
  {
    if xs[0] != x {
      assert xs[1..][j - 1] == x;
      FirstIndexBefore(xs[1..], x, j - 1);
    }
  }

  /** Appending a value does not move the first occurrence of a value already present. */
  lemma FirstIndexPrefix(init: seq<string>, z: string, y: string)
    requires y in init
    ensures FirstIndex(init + [z], y) == FirstIndex(init, y)
  {
    var xs := init + [z];
    var k := FirstIndex(init, y);
    assert xs[k] == y;
    FirstIndexBefore(xs, y, k);
    var f := FirstIndex(xs, y);
    assert init[f] == y;
    FirstIndexBefore(init, y, f);
  }

  /**
   * `Array.from(new Set(xs))`: the distinct values, each where it first
   * occurs.
   */
  function Distinct(xs: seq<string>): (r: seq<string>)
    ensures forall i, j :: 0 <= i < j < |r| ==> r[i] != r[j]
    ensures forall x :: x in r <==> x in xs
    ensures SubsequenceOf(r, xs)
  {
    if xs == [] then []
    else
      var init := xs[..|xs| - 1];
      var r := Distinct(init);
      assert xs == init + [xs[|xs| - 1]];
      SubsequenceExtend(r, init, xs[|xs| - 1]);
      if xs[|xs| - 1] in r then r else r + [xs[|xs| - 1]]
  }

  /** The distinct values are listed in the order of their first occurrences. */
  lemma {:induction false} DistinctFirstOccurrenceOrder(xs: seq<string>)
    ensures forall i, j :: 0 <= i < j < |Distinct(xs)| ==>
      FirstIndex(xs, Distinct(xs)[i]) < FirstIndex(xs, Distinct(xs)[j])
  {
    if xs != [] {
      var init := xs[..|xs| - 1];
      var last := xs[|xs| - 1];
      var r := Distinct(init);
      assert xs == init + [last];
      DistinctFirstOccurrenceOrder(init);
      forall i | 0 <= i < |r|
        ensures r[i] in init && r[i] in xs && FirstIndex(xs, r[i]) == FirstIndex(init, r[i])
      {
        assert r[i] in r;
        FirstIndexPrefix(init, last, r[i]);
      }
      OrderCarries(xs, init, r);
      if last !in r {
        FirstIndexAppended(init, last);
        OrderAppend(xs, r, last, |init|);
      }
    }
  }

  /** An order of first occurrences in `init` is one in `xs` when no first occurrence moved. */
  lemma OrderCarries(xs: seq<string>, init: seq<string>, r: seq<string>)
    requires forall i :: 0 <= i < |r| ==> r[i] in init && r[i] in xs && FirstIndex(xs, r[i]) == FirstIndex(init, r[i])
    requires forall i, j :: 0 <= i < j < |r| ==> FirstIndex(init, r[i]) < FirstIndex(init, r[j])
    ensures forall i, j :: 0 <= i < j < |r| ==> FirstIndex(xs, r[i]) < FirstIndex(xs, r[j])
  {
  }

  /** Appending a value that first occurs after all of `r`'s keeps the order. */
  lemma OrderAppend(xs: seq<string>, r: seq<string>, last: string, n: int)
    requires forall i :: 0 <= i < |r| ==> r[i] in xs && FirstIndex(xs, r[i]) < n
    requires forall i, j :: 0 <= i < j < |r| ==> FirstIndex(xs, r[i]) < FirstIndex(xs, r[j])
    requires last in xs && FirstIndex(xs, last) == n
    ensures var out := r + [last];
      forall i, j :: 0 <= i < j < |out| ==> FirstIndex(xs, out[i]) < FirstIndex(xs, out[j])
  {
    var out := r + [last];
    forall i, j | 0 <= i < j < |out| ensures FirstIndex(xs, out[i]) < FirstIndex(xs, out[j]) {
      assert out[i] == r[i];
      if j < |r| {
        assert out[j] == r[j];
      }
    }
  }

  /** A value appended to a sequence that lacks it first occurs at the end. */
  lemma FirstIndexAppended(init: seq<string>, z: string)
    requires z !in init
    ensures FirstIndex(init + [z], z) == |init|
  {
  }

  /** Extending both sides, or only the longer one, by one element keeps the subsequence relation. */
  lemma {:induction false} SubsequenceExtend(r: seq<string>, s: seq<string>, x: string)
    requires SubsequenceOf(r, s)
    ensures SubsequenceOf(r, s + [x]) && SubsequenceOf(r + [x], s + [x])
  {
    if s == [] {
      assert r == [];
      assert SubsequenceOf([], [x]);
      assert SubsequenceOf([x], [x]) by {
        assert [x][1..] == [] && [x][0] == x;
      }
    } else {
      assert (s + [x])[1..] == s[1..] + [x];
      if r != [] && r[0] == s[0] {
        SubsequenceExtend(r[1..], s[1..], x);
        assert (r + [x])[1..] == r[1..] + [x];
      } else {
        SubsequenceExtend(r, s[1..], x);
      }
    }
  }

  function CategoriesOf(meds: seq<Medicine>): (r: seq<string>)
    ensures |r| == |meds| && forall i :: 0 <= i < |meds| ==> r[i] == meds[i].category
  {
    seq(|meds|, i requires 0 <= i < |meds| => meds[i].category)
  }

  function Categories(meds: seq<Medicine>): seq<string> {
    Distinct(CategoriesOf(meds))
  }

  /** The category select lists every category that occurs, once each, and nothing else. */
  lemma CategoriesExact(meds: seq<Medicine>)
    ensures forall i, j :: 0 <= i < j < |Categories(meds)| ==> Categories(meds)[i] != Categories(meds)[j]
    ensures forall c :: c in Categories(meds) <==> exists m :: m in meds && m.category == c
  {
    forall c ensures c in Categories(meds) <==> exists m :: m in meds && m.category == c {
      var cs := CategoriesOf(meds);
      if c in cs {
        var i :| 0 <= i < |cs| && cs[i] == c;
        assert meds[i] in meds;
      }
      if m :| m in meds && m.category == c {
        var i :| 0 <= i < |meds| && meds[i] == m;
        assert cs[i] == c;
      }
    }
  }

  function IsLowStock(m: Medicine): bool {
    m.stock <= m.minStock
  }

  function LowStockCount(meds: seq<Medicine>): nat {
    |Filter(meds, IsLowStock)|
  }

  function NeedsRestock(m: Medicine): bool {
    StockStatusOf(m.stock, m.minStock) != Good
  }

  /**
   * When no minimum is negative, the low-stock counter counts exactly the
   * medicines whose badge is not "good": the low ones and the out-of-stock ones.
   */
  lemma LowStockCountMatchesBadges(meds: seq<Medicine>)
    requires forall m :: m in meds ==> m.minStock >= 0
    ensures LowStockCount(meds) == |Filter(meds, NeedsRestock)|
  {
    FilterAgree(meds, IsLowStock, NeedsRestock);
  }

  /** The expiry-alert condition, given the day count of each expiry date. */
  function ExpiresWithinMonth(daysUntil: string -> int): Medicine -> bool {
    (m: Medicine) => daysUntil(m.expiryDate) <= 30 && daysUntil(m.expiryDate) >= 0
  }

  function ExpiringCount(meds: seq<Medicine>, daysUntil: string -> int): nat {
    |Filter(meds, ExpiresWithinMonth(daysUntil))|
  }

  function ShownExpiring(daysUntil: string -> int): Medicine -> bool {
    (m: Medicine) => ExpiryStatusOf(daysUntil(m.expiryDate)) == Expiring
  }

  /** The expiry counter counts exactly the medicines whose badge reads "expiring". */
  lemma ExpiringCountMatchesBadges(meds: seq<Medicine>, daysUntil: string -> int)
    ensures ExpiringCount(meds, daysUntil) == |Filter(meds, ShownExpiring(daysUntil))|
  {
    forall i | 0 <= i < |meds|
      ensures ExpiresWithinMonth(daysUntil)(meds[i]) == ShownExpiring(daysUntil)(meds[i])
    {
      var status := ExpiryStatusOf(daysUntil(meds[i].expiryDate));
    }
    FilterAgree(meds, ExpiresWithinMonth(daysUntil), ShownExpiring(daysUntil));
  }
}

/** The manager dashboard's sales report (ManagerDashPages/SalesTable.jsx): it fetches the
    sales records, derives each record's `quantity` as the number of loaded records with the
    same product name, and shows them three to a page. */
module SalesTable {
  import opened Js
  import opened Remote
  import opened Paging

  const ItemsPerPage: nat := 3
  const FetchFailed := "Failed to fetch sales data."

  /** The property key `acc[item.productName]` uses: JavaScript turns a missing name into
      the key "undefined", so all unnamed records share one count. */
  function KeyOf(s: Sale): string {
    if s.productName.Some? then s.productName.value else "undefined"
  }

  /** The number of records whose key is `k`. */
  function Occurrences(sales: seq<Sale>, k: string): nat
    decreases |sales|
  {
    if sales == [] then 0
    else Occurrences(sales[..|sales| - 1], k) + (if KeyOf(sales[|sales| - 1]) == k then 1 else 0)
  }

  /** One step of the reduce: `acc[k] = (acc[k] || 0) + 1`, on a dictionary without
      inherited entries. */
  function Bump(acc: map<string, nat>, k: string): map<string, nat> {
    acc[k := (if k in acc then NumberOr(Some(acc[k] as int), 0) else 0) as nat + 1]
  }

  /** `productCounts`: the reduce over the records, from the first to the last. */
  function ProductCounts(sales: seq<Sale>): map<string, nat>
    decreases |sales|
  {
    if sales == [] then map[] else Bump(ProductCounts(sales[..|sales| - 1]), KeyOf(sales[|sales| - 1]))
  }

  /** The reduce counts: its keys are the keys that occur, and each maps to its number of records. */
  lemma {:induction false} ProductCountsAreOccurrences(sales: seq<Sale>, k: string)
    ensures k in ProductCounts(sales) <==> Occurrences(sales, k) > 0
    ensures k in ProductCounts(sales) ==> ProductCounts(sales)[k] == Occurrences(sales, k)
    decreases |sales|
  {
    if sales != [] {
      ProductCountsAreOccurrences(sales[..|sales| - 1], k);
    }
  }

  lemma {:induction false} OccurrencesOfPresentKey(sales: seq<Sale>, i: nat)
    requires i < |sales|
    ensures Occurrences(sales, KeyOf(sales[i])) >= 1
    decreases |sales|
  {
    if i < |sales| - 1 {
      OccurrencesOfPresentKey(sales[..|sales| - 1], i);
    }
  }

  /** The reduce as the source runs it: a loop that updates the accumulator in place. */
  method CountProducts(sales: seq<Sale>) returns (counts: map<string, nat>)
    ensures counts == ProductCounts(sales)
    ensures forall k :: k in counts ==> counts[k] == Occurrences(sales, k) >= 1
  {
    counts := map[];
    var i := 0;
    while i < |sales|
      invariant 0 <= i <= |sales|
      invariant counts == ProductCounts(sales[..i])
    {
      assert sales[..i + 1][..i] == sales[..i];
      counts := Bump(counts, KeyOf(sales[i]));
      i := i + 1;
    }
    assert sales[..i] == sales;
    forall k | k in counts ensures counts[k] == Occurrences(sales, k) >= 1 {
      ProductCountsAreOccurrences(sales, k);
    }
  }

  /** A sales record with the derived `quantity` field. */
  datatype SaleRow = SaleRow(sale: Sale, quantity: nat)

  /** `productCounts[item.productName] || 1`. */
  function QuantityFor(counts: map<string, nat>, k: string): nat {
    if k in counts then NumberOr(Some(counts[k] as int), 1) as nat else 1
  }

  /** The `map` that spreads each record and adds its quantity. */
  function WithQuantities(sales: seq<Sale>, counts: map<string, nat>): (rows: seq<SaleRow>)
    ensures |rows| == |sales|
    ensures forall i :: 0 <= i < |rows| ==> rows[i].sale == sales[i]
  {
    seq(|sales|, i requires 0 <= i < |sales| => SaleRow(sales[i], QuantityFor(counts, KeyOf(sales[i]))))
  }

  /** The fallback `|| 1` is never taken: every record's key is in the counts with a
      count of at least one. */
  lemma FallbackUnreachable(sales: seq<Sale>, i: nat)
    requires i < |sales|
    ensures KeyOf(sales[i]) in ProductCounts(sales)
    ensures ProductCounts(sales)[KeyOf(sales[i])] >= 1
  {
    OccurrencesOfPresentKey(sales, i);
    ProductCountsAreOccurrences(sales, KeyOf(sales[i]));
  }

  lemma AllQuantitiesAreOccurrences(sales: seq<Sale>)
    ensures forall i :: 0 <= i < |sales| ==>
      WithQuantities(sales, ProductCounts(sales))[i].quantity == Occurrences(sales, KeyOf(sales[i])) >= 1
  {
    forall i | 0 <= i < |sales|
      ensures WithQuantities(sales, ProductCounts(sales))[i].quantity == Occurrences(sales, KeyOf(sales[i])) >= 1
    {
      FallbackUnreachable(sales, i);
      ProductCountsAreOccurrences(sales, KeyOf(sales[i]));
    }
  }

  /** `updatedSalesData`: same length and order as the records, each record kept as it was
      with only `quantity` added, and that quantity the number of records with the same name. */
  function DeriveQuantities(sales: seq<Sale>): (rows: seq<SaleRow>)
    ensures |rows| == |sales|
    ensures forall i :: 0 <= i < |rows| ==> rows[i].sale == sales[i]
    ensures forall i :: 0 <= i < |rows| ==> rows[i].quantity == Occurrences(sales, KeyOf(sales[i])) >= 1
  {
    AllQuantitiesAreOccurrences(sales);
    WithQuantities(sales, ProductCounts(sales))
  }

  /** Records that share a product name get equal quantities. */
  lemma SameNameSameQuantity(sales: seq<Sale>, i: nat, j: nat)
    requires i < |sales| && j < |sales|
    requires sales[i].productName == sales[j].productName
    ensures DeriveQuantities(sales)[i].quantity == DeriveQuantities(sales)[j].quantity
  {
  }

  ghost function PickKey(m: map<string, nat>): string
    requires m != map[]
  {
    var k :| k in m; k
  }

  /** The sum of the counts, once per distinct name. */
  ghost function SumCounts(m: map<string, nat>): nat
    decreases |m|
  {
    if m == map[] then 0
    else
      var k := PickKey(m);
      assert (m - {k}).Keys == m.Keys - {k};
      m[k] + SumCounts(m - {k})
  }

  lemma {:induction false} SumCountsRemove(m: map<string, nat>, k: string)
    requires k in m
    ensures SumCounts(m) == m[k] + SumCounts(m - {k})
    decreases |m|
  {
    var j := PickKey(m);
    assert (m - {j}).Keys == m.Keys - {j};
    if j != k {
      assert (m - {k}).Keys == m.Keys - {k};
      SumCountsRemove(m - {j}, k);
      SumCountsRemove(m - {k}, j);
      assert m - {j} - {k} == m - {k} - {j};
    }
  }

  lemma SumCountsBump(m: map<string, nat>, k: string)
    ensures SumCounts(Bump(m, k)) == SumCounts(m) + 1
  {
    var b := Bump(m, k);
    SumCountsRemove(b, k);
    if k in m {
      SumCountsRemove(m, k);
      assert b - {k} == m - {k};
    } else {
      assert b - {k} == m;
    }
  }

  /** Adding up the quantity once per distinct name gives the number of records. */
  lemma {:induction false} QuantitiesSumToTotal(sales: seq<Sale>)
    ensures SumCounts(ProductCounts(sales)) == |sales|
    decreases |sales|
  {
    if sales != [] {
      QuantitiesSumToTotal(sales[..|sales| - 1]);
      SumCountsBump(ProductCounts(sales[..|sales| - 1]), KeyOf(sales[|sales| - 1]));
    }
  }

  /** Records for "A", "A", "B" get the quantities 2, 2, 1. */
  lemma {:induction false} TwoAsAndOneB(a: Sale, a': Sale, b: Sale)
    requires a.productName == a'.productName == Some("A") && b.productName == Some("B")
    ensures var rows := DeriveQuantities([a, a', b]);
      rows[0].quantity == 2 && rows[1].quantity == 2 && rows[2].quantity == 1
  {
    var s := [a, a', b];
    assert s[..2] == [a, a'] && [a, a'][..1] == [a] && [a][..0] == [];
    assert Occurrences([a], "A") == 1;
    assert Occurrences([a, a'], "A") == 2;
    assert Occurrences(s, "A") == 2;
    assert Occurrences([a], "B") == 0;
    assert Occurrences([a, a'], "B") == 0;
    assert Occurrences(s, "B") == 1;
  }

  // The accumulator as written is a plain object literal `{}`, whose lookups also see the
  // members it inherits from Object.prototype. The functions below model that reading.

  /** Method names a plain object inherits from Object.prototype. (`__proto__`, an accessor
      whose setter ignores numbers, is not part of this model.) */
  const InheritedMembers: set<string> := {
    "constructor", "hasOwnProperty", "isPrototypeOf", "propertyIsEnumerable",
    "toLocaleString", "toString", "valueOf",
    "__defineGetter__", "__defineSetter__", "__lookupGetter__", "__lookupSetter__"
  }

  /** A property of the accumulator: a number, or a string produced by `function + 1`. */
  datatype Slot = Count(n: nat) | Garbled

  /** `acc[k] = (acc[k] || 0) + 1` on an object literal: an inherited method is truthy, and
      adding 1 to it (or to the string that results) concatenates text. */
  function ObjectBump(acc: map<string, Slot>, k: string): map<string, Slot> {
    var current := if k in acc then acc[k] else if k in InheritedMembers then Garbled else Count(0);
    acc[k := match current case Count(n) => Count(n + 1) case Garbled => Garbled]
  }

  function ObjectCounts(sales: seq<Sale>): map<string, Slot>
    decreases |sales|
  {
    if sales == [] then map[]
    else ObjectBump(ObjectCounts(sales[..|sales| - 1]), KeyOf(sales[|sales| - 1]))
  }

  /** `productCounts[k] || 1` on the object literal. */
  function ObjectQuantity(acc: map<string, Slot>, k: string): Slot {
    if k in acc then (if acc[k] == Count(0) then Count(1) else acc[k])
    else if k in InheritedMembers then Garbled
    else Count(1)
  }

  /** For names that are not inherited members, the object literal counts correctly. */
  lemma {:induction false} ObjectCountsAgree(sales: seq<Sale>, k: string)
    requires k !in InheritedMembers
    ensures k in ObjectCounts(sales) <==> k in ProductCounts(sales)
    ensures k in ObjectCounts(sales) ==> ObjectCounts(sales)[k] == Count(ProductCounts(sales)[k])
    decreases |sales|
  {
    if sales != [] {
      ObjectCountsAgree(sales[..|sales| - 1], k);
    }
  }

  /** A single record named "toString" gets a string instead of the quantity 1. */
  lemma {:induction false} InheritedNameGarblesQuantity(s: Sale)
    requires s.productName == Some("toString")
    ensures ObjectQuantity(ObjectCounts([s]), KeyOf(s)) == Garbled
    ensures DeriveQuantities([s])[0].quantity == 1
  {
    assert [s][..0] == [];
    assert Occurrences([s], KeyOf(s)) == 1;
  }

  /** The sales report's state. */
  class SalesTableView {
    var salesData: seq<SaleRow>
    var loading: bool
    var error: string
    var currentPage: int

    constructor ()
      ensures salesData == [] && loading && error == "" && currentPage == 1
    {
      salesData, loading, error, currentPage := [], true, "", 1;
    }

    /** `fetchSalesData`: on a resolved array, the rows with their quantities replace the
        table and the error is left as it was; otherwise (a rejection, or a body whose
        `reduce` throws) the error text is set and the rows are kept. Either way loading ends. */
    method FetchSalesData(response: Response<Payload<Sale>>)
      modifies this`salesData, this`loading, this`error
      ensures !loading
      ensures response.Ok? && response.data.Array? ==>
        salesData == DeriveQuantities(response.data.items) && error == old(error)
      ensures !(response.Ok? && response.data.Array?) ==>
        salesData == old(salesData) && error == FetchFailed
    {
      if response.Ok? && response.data.Array? {
        var counts := CountProducts(response.data.items);
        salesData := WithQuantities(response.data.items, counts);
        loading := false;
      } else {
        error := FetchFailed;
        loading := false;
      }
    }

    function PageCount(): nat
      reads this
    {
      TotalPages(|salesData|, ItemsPerPage)
    }

    /** `paginatedData`: at most three rows, the window of the current page. */
    function PaginatedData(): (page: seq<SaleRow>)
      reads this
      ensures |page| <= ItemsPerPage
      ensures currentPage >= 1 ==> forall k :: 0 <= k < |page| ==>
        (currentPage - 1) * ItemsPerPage + k < |salesData| &&
        page[k] == salesData[(currentPage - 1) * ItemsPerPage + k]
      ensures currentPage >= 1 ==>
        var lo, hi := Min((currentPage - 1) * ItemsPerPage, |salesData|), Min(currentPage * ItemsPerPage, |salesData|);
        lo <= hi && page == salesData[lo..hi]
    {
      PageAtMostSize(salesData, currentPage, ItemsPerPage);
      if currentPage >= 1 then
        PageWindow(salesData, currentPage, ItemsPerPage);
        PageOf(salesData, currentPage, ItemsPerPage)
      else
        PageOf(salesData, currentPage, ItemsPerPage)
    }

    /** What the component renders. */
    function View(): Screen<SaleRow>
      reads this
    {
      Precedence(loading, error, PaginatedData())
    }

    /** A click on a pagination button. */
    method Click(b: Button)
      modifies this`currentPage
      ensures currentPage == ClampedClick(old(currentPage), PageCount(), b)
    {
      currentPage := ClampedClick(currentPage, PageCount(), b);
    }
  }
}

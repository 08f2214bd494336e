/** The charts page: the container line items are grouped by container, by
    status, by supplier prefix and by client; the supplier and client
    groups are sorted by size and cut to the largest ten and five; and each
    container gets its product and freight cost. */
module Charts {
  import opened Common
  import opened Records
  import opened ContainerStats

  const Unknown := "Unknown"

  /** `value || "Unknown"`. */
  function OrUnknown(s: string): (r: string)
    ensures r != ""
    ensures s != "" ==> r == s
    ensures s == "" ==> r == Unknown
  {
    if s == "" then Unknown else s
  }

  /** The text before the first "-", all of it when there is none
      (`s.split("-")[0]`). */
  function BeforeDash(s: string): (p: string)
    ensures |p| <= |s| && p == s[..|p|]
    ensures '-' !in p
    ensures |p| < |s| ==> s[|p|] == '-'
  {
    if |s| == 0 || s[0] == '-' then "" else [s[0]] + BeforeDash(s[1..])
  }

  /** A code made of a dash-free prefix, a dash and anything after it splits
      back into that prefix. */
  lemma {:induction false} BeforeDashOfCode(prefix: string, rest: string)
    requires '-' !in prefix
    ensures BeforeDash(prefix + "-" + rest) == prefix
  {
    if |prefix| > 0 {
      assert (prefix + "-" + rest)[1..] == prefix[1..] + "-" + rest;
      BeforeDashOfCode(prefix[1..], rest);
    }
  }

  function ContainerKey(x: LineItem): string { OrUnknown(x.containerName) }
  function StatusKey(x: LineItem): string { OrUnknown(x.status) }
  function ClientKey(x: LineItem): string { OrUnknown(x.client) }

  /** The supplier of an item is the prefix of its reference code. */
  function SupplierKey(x: LineItem): string { OrUnknown(BeforeDash(x.referenceCode)) }

  /** The cost chart matches items on the bare container name. */
  function ContainerName(x: LineItem): string { x.containerName }

  function Freight(x: LineItem): real { NumOr0(x.freightCost) }

  // ---------------------------------------------------------------------
  // Grouping, as the reference the accumulating loops are checked against

  function KeysOf(items: seq<LineItem>, key: LineItem -> string): (ks: seq<string>)
    ensures |ks| == |items|
    ensures forall i :: 0 <= i < |items| ==> ks[i] == key(items[i])
  {
    seq(|items|, i requires 0 <= i < |items| => key(items[i]))
  }

  /** The keys in order of first appearance, each once: the order in which
      a `Map` lists its entries. */
  function Distinct(ks: seq<string>): (d: seq<string>)
    ensures forall k :: k in d <==> k in ks
    ensures forall i, j :: 0 <= i < j < |d| ==> d[i] != d[j]
  {
    if |ks| == 0 then []
    else
      var d := Distinct(ks[..|ks| - 1]);
      assert ks == ks[..|ks| - 1] + [ks[|ks| - 1]];
      if ks[|ks| - 1] in d then d else d + [ks[|ks| - 1]]
  }

  /** How many items have key `k`. */
  function CountWhere(items: seq<LineItem>, key: LineItem -> string, k: string): nat {
    if |items| == 0 then 0
    else CountWhere(items[..|items| - 1], key, k) + (if key(items[|items| - 1]) == k then 1 else 0)
  }

  /** The sum of `val` over the items with key `k`. */
  function SumWhere(items: seq<LineItem>, key: LineItem -> string, k: string, val: LineItem -> real): real {
    if |items| == 0 then 0.0
    else SumWhere(items[..|items| - 1], key, k, val) + (if key(items[|items| - 1]) == k then val(items[|items| - 1]) else 0.0)
  }

  /** One more item appends its key; the key is new to the distinct list
      exactly when no earlier item has it. */
  lemma GroupSnoc(items: seq<LineItem>, i: nat, key: LineItem -> string)
    requires i < |items|
    ensures var ks := KeysOf(items[..i], key);
      Distinct(KeysOf(items[..i + 1], key))
        == if key(items[i]) in Distinct(ks) then Distinct(ks) else Distinct(ks) + [key(items[i])]
  {
    var ks, k := KeysOf(items[..i], key), key(items[i]);
    assert KeysOf(items[..i + 1], key) == ks + [k];
    assert (ks + [k])[..|ks|] == ks;
  }

  lemma SumWhereSnoc(items: seq<LineItem>, i: nat, key: LineItem -> string, k: string, val: LineItem -> real)
    requires i < |items|
    ensures SumWhere(items[..i + 1], key, k, val)
      == SumWhere(items[..i], key, k, val) + (if key(items[i]) == k then val(items[i]) else 0.0)
  {
    assert items[..i + 1][..i] == items[..i];
  }

  lemma CountWhereSnoc(items: seq<LineItem>, i: nat, key: LineItem -> string, k: string)
    requires i < |items|
    ensures CountWhere(items[..i + 1], key, k) == CountWhere(items[..i], key, k) + (if key(items[i]) == k then 1 else 0)
  {
    assert items[..i + 1][..i] == items[..i];
  }

  // ---------------------------------------------------------------------
  // The accumulating loops

  /** The container loop: `map.set(k, (map.get(k) || 0) + val(item))` per
      item. */
  method SumByKey(items: seq<LineItem>, key: LineItem -> string, val: LineItem -> real)
    returns (order: seq<string>, sums: map<string, real>)
    ensures order == Distinct(KeysOf(items, key))
    ensures forall k :: k in sums <==> k in order
    ensures forall k :: k in sums ==> sums[k] == SumWhere(items, key, k, val)
  {
    order, sums := [], map[];
    for i := 0 to |items|
      invariant order == Distinct(KeysOf(items[..i], key))
      invariant forall k :: k in sums <==> k in order
      invariant forall k :: k in sums ==> sums[k] == SumWhere(items[..i], key, k, val)
    {
      var k := key(items[i]);
      var current := if k in sums then sums[k] else 0.0;
      GroupSnoc(items, i, key);
      if k !in sums {
        SumAbsentKey(items[..i], key, k, val);
        order := order + [k];
      }
      var sums' := sums[k := current + val(items[i])];
      forall k' | k' in sums'
        ensures sums'[k'] == SumWhere(items[..i + 1], key, k', val)
      {
        SumWhereSnoc(items, i, key, k', val);
      }
      sums := sums';
    }
    assert items[..|items|] == items;
  }

  /** The status, supplier and client loops:
      `map.set(k, (map.get(k) || 0) + 1)` per item. */
  method CountByKey(items: seq<LineItem>, key: LineItem -> string)
    returns (order: seq<string>, counts: map<string, nat>)
    ensures order == Distinct(KeysOf(items, key))
    ensures forall k :: k in counts <==> k in order
    ensures forall k :: k in counts ==> counts[k] == CountWhere(items, key, k)
  {
    order, counts := [], map[];
    for i := 0 to |items|
      invariant order == Distinct(KeysOf(items[..i], key))
      invariant forall k :: k in counts <==> k in order
      invariant forall k :: k in counts ==> counts[k] == CountWhere(items[..i], key, k)
    {
      var k := key(items[i]);
      var current := if k in counts then counts[k] else 0;
      GroupSnoc(items, i, key);
      if k !in counts {
        CountAbsentKey(items[..i], key, k);
        order := order + [k];
      }
      var counts' := counts[k := current + 1];
      forall k' | k' in counts'
        ensures counts'[k'] == CountWhere(items[..i + 1], key, k')
      {
        CountWhereSnoc(items, i, key, k');
      }
      counts := counts';
    }
    assert items[..|items|] == items;
  }

  // ---------------------------------------------------------------------
  // Counted entries, sorting and the top of the list

  datatype Entry = Entry(name: string, count: nat)

  /** `Array.from(map.entries())` over counts. */
  function EntriesOf(order: seq<string>, counts: map<string, nat>): (es: seq<Entry>)
    requires forall k :: k in order ==> k in counts
    ensures |es| == |order|
    ensures forall i :: 0 <= i < |order| ==> es[i] == Entry(order[i], counts[order[i]])
  {
    seq(|order|, i requires 0 <= i < |order| => Entry(order[i], counts[order[i]]))
  }

  /** One entry per key of `ks`, with its count among the items. */
  function CountEntries(ks: seq<string>, items: seq<LineItem>, key: LineItem -> string): (es: seq<Entry>)
    ensures |es| == |ks|
    ensures forall i :: 0 <= i < |ks| ==> es[i] == Entry(ks[i], CountWhere(items, key, ks[i]))
  {
    seq(|ks|, i requires 0 <= i < |ks| => Entry(ks[i], CountWhere(items, key, ks[i])))
  }

  predicate NonIncreasing(es: seq<Entry>) {
    forall i, j :: 0 <= i < j < |es| ==> es[i].count >= es[j].count
  }

  /** Puts `x` after every entry whose count is at least its own, so that
      entries of equal count keep their order. */
  function InsertDesc(es: seq<Entry>, x: Entry): (r: seq<Entry>)
    ensures multiset(r) == multiset(es) + multiset{x}
    ensures |r| == |es| + 1
    ensures r[0] == x || (|es| > 0 && r[0] == es[0])
  {
    if |es| == 0 then [x]
    else if es[0].count >= x.count then
      assert es == [es[0]] + es[1..];
      [es[0]] + InsertDesc(es[1..], x)
    else
      [x] + es
  }

  lemma {:induction false} InsertKeepsOrder(es: seq<Entry>, x: Entry)
    requires NonIncreasing(es)
    ensures NonIncreasing(InsertDesc(es, x))
  {
    if |es| > 0 && es[0].count >= x.count {
      var rest := InsertDesc(es[1..], x);
      InsertKeepsOrder(es[1..], x);
      assert rest[0] == x || rest[0] == es[1];
      var r := [es[0]] + rest;
      forall i, j | 0 <= i < j < |r|
        ensures r[i].count >= r[j].count
      {
        if i == 0 {
          assert r[j] in multiset(rest);
          assert r[j] in es[1..] || r[j] == x;
        }
      }
    }
  }

  /** `entries.sort((a, b) => b[1] - a[1])`: a stable sort by descending
      count, done as an insertion sort. */
  function SortDesc(es: seq<Entry>): (r: seq<Entry>)
    ensures multiset(r) == multiset(es)
    ensures NonIncreasing(r)
  {
    if |es| == 0 then []
    else
      assert es == es[..|es| - 1] + [es[|es| - 1]];
      var sorted := SortDesc(es[..|es| - 1]);
      InsertKeepsOrder(sorted, es[|es| - 1]);
      InsertDesc(sorted, es[|es| - 1])
  }

  /** `.slice(0, n)`. */
  function TopN(es: seq<Entry>, n: nat): (r: seq<Entry>)
    ensures |r| == Min(n, |es|) && r == es[..|r|]
  {
    es[..Min(n, |es|)]
  }

  /** The largest `n` entries: at most `n`, largest first, every one taken
      from the input, and every entry left out counting no more than the
      smallest one kept. */
  lemma TopKeepsLargest(es: seq<Entry>, n: nat)
    ensures var top := TopN(SortDesc(es), n);
      && |top| == Min(n, |es|)
      && NonIncreasing(top)
      && (forall e :: e in top ==> e in es)
      && (forall e :: e in es && e !in top && |top| > 0 ==> e.count <= top[|top| - 1].count)
  {
    var sorted := SortDesc(es);
    assert |sorted| == |multiset(sorted)| == |multiset(es)| == |es|;
    var top := TopN(sorted, n);
    assert top == sorted[..|top|];
    PrefixOfSorted(sorted, es, |top|);
  }

  /** The first `k` entries of a largest-first permutation of `es`. */
  lemma PrefixOfSorted(sorted: seq<Entry>, es: seq<Entry>, k: nat)
    requires multiset(sorted) == multiset(es) && NonIncreasing(sorted) && k <= |sorted|
    ensures NonIncreasing(sorted[..k])
    ensures forall e :: e in sorted[..k] ==> e in es
    ensures forall e :: e in es && e !in sorted[..k] && k > 0 ==> e.count <= sorted[k - 1].count
  {
    var top := sorted[..k];
    forall e | e in top
      ensures e in es
    {
      assert e in multiset(sorted);
    }
    forall e | e in es && e !in top && k > 0
      ensures e.count <= sorted[k - 1].count
    {
      assert e in multiset(sorted);
      OmittedCountsNoMore(sorted, k, e);
    }
  }

  /** In a list sorted largest first, an entry past the first `k` counts no
      more than the k-th. */
  lemma OmittedCountsNoMore(sorted: seq<Entry>, k: nat, e: Entry)
    requires NonIncreasing(sorted) && 0 < k <= |sorted|
    requires e in sorted && e !in sorted[..k]
    ensures e.count <= sorted[k - 1].count
  {
    var j :| 0 <= j < |sorted| && sorted[j] == e;
    forall i | 0 <= i < k
      ensures sorted[i] != e
    {
      assert sorted[i] == sorted[..k][i];
    }
  }

  // ---------------------------------------------------------------------
  // The charts

  datatype Bar = Bar(container: string, cbm: real)
  datatype CostPoint = CostPoint(container: string, productCost: real, freightCost: real)
  datatype ClientSlice = ClientSlice(name: string, value: nat, fill: string)

  datatype ChartData = ChartData(
    containers: seq<Bar>,
    statuses: seq<Entry>,
    suppliers: seq<Entry>,
    costs: seq<CostPoint>,
    clients: seq<ClientSlice>)

  /** The client palette; the i-th slice gets colour i mod 8. */
  function ClientColor(i: nat): string {
    match i % 8
    case 0 => "#3b82f6"
    case 1 => "#10b981"
    case 2 => "#f59e0b"
    case 3 => "#ef4444"
    case 4 => "#8b5cf6"
    case 5 => "#ec4899"
    case 6 => "#06b6d4"
    case _ => "#84cc16"
  }

  function ContainerKeys(items: seq<LineItem>): seq<string> { Distinct(KeysOf(items, ContainerKey)) }

  /** Total CBM per container key. */
  function ContainerChart(items: seq<LineItem>): (bars: seq<Bar>)
    ensures |bars| == |ContainerKeys(items)|
    ensures forall i :: 0 <= i < |bars| ==>
      bars[i] == Bar(ContainerKeys(items)[i], SumWhere(items, ContainerKey, ContainerKeys(items)[i], Cbm))
  {
    var ks := ContainerKeys(items);
    seq(|ks|, i requires 0 <= i < |ks| => Bar(ks[i], SumWhere(items, ContainerKey, ks[i], Cbm)))
  }

  /** Item count per status. */
  function StatusChart(items: seq<LineItem>): seq<Entry> {
    CountEntries(Distinct(KeysOf(items, StatusKey)), items, StatusKey)
  }

  /** The `n` keys with the most items. */
  function TopCounts(items: seq<LineItem>, key: LineItem -> string, n: nat): seq<Entry> {
    TopN(SortDesc(CountEntries(Distinct(KeysOf(items, key)), items, key)), n)
  }

  function SupplierChart(items: seq<LineItem>): seq<Entry> { TopCounts(items, SupplierKey, 10) }

  /** For each name, the costs of the items whose container name is that
      name exactly (`items.filter(...).reduce(...)`). */
  function CostPoints(names: seq<string>, items: seq<LineItem>): (points: seq<CostPoint>)
    ensures |points| == |names|
    ensures forall i :: 0 <= i < |names| ==>
      points[i] == CostPoint(names[i], SumWhere(items, ContainerName, names[i], Cost), SumWhere(items, ContainerName, names[i], Freight))
  {
    seq(|names|, i requires 0 <= i < |names| =>
      CostPoint(names[i], SumWhere(items, ContainerName, names[i], Cost), SumWhere(items, ContainerName, names[i], Freight)))
  }

  function CostChart(items: seq<LineItem>): seq<CostPoint> { CostPoints(ContainerKeys(items), items) }

  function Colored(es: seq<Entry>): (slices: seq<ClientSlice>)
    ensures |slices| == |es|
    ensures forall i :: 0 <= i < |es| ==> slices[i] == ClientSlice(es[i].name, es[i].count, ClientColor(i))
  {
    seq(|es|, i requires 0 <= i < |es| => ClientSlice(es[i].name, es[i].count, ClientColor(i)))
  }

  function ClientChart(items: seq<LineItem>): seq<ClientSlice> { Colored(TopCounts(items, ClientKey, 5)) }

  function ChartsOf(items: seq<LineItem>): ChartData {
    ChartData(ContainerChart(items), StatusChart(items), SupplierChart(items), CostChart(items), ClientChart(items))
  }

  /** `Array.from(map.entries())` over the CBM sums. */
  function BarsOf(names: seq<string>, sums: map<string, real>): (bars: seq<Bar>)
    requires forall k :: k in names ==> k in sums
    ensures |bars| == |names|
    ensures forall i :: 0 <= i < |names| ==> bars[i] == Bar(names[i], sums[names[i]])
  {
    seq(|names|, i requires 0 <= i < |names| => Bar(names[i], sums[names[i]]))
  }

  lemma BarsAreChart(items: seq<LineItem>, names: seq<string>, sums: map<string, real>)
    requires names == ContainerKeys(items)
    requires forall k :: k in names ==> k in sums && sums[k] == SumWhere(items, ContainerKey, k, Cbm)
    ensures BarsOf(names, sums) == ContainerChart(items)
  {
  }

  lemma EntriesAreCounts(order: seq<string>, counts: map<string, nat>, items: seq<LineItem>, key: LineItem -> string)
    requires forall k :: k in order ==> k in counts && counts[k] == CountWhere(items, key, k)
    ensures EntriesOf(order, counts) == CountEntries(order, items, key)
  {
  }

  /** The page's data load: nothing on a fetch error; otherwise the five
      charts, built with the grouping loops. */
  method LoadCharts(fetched: Fetch<LineItem>) returns (charts: Option<ChartData>)
    ensures charts.None? <==> fetched.FetchError?
    ensures charts.Some? ==> charts.value == ChartsOf(fetched.rows)
  {
    if fetched.FetchError? {
      return None;
    }
    var items := fetched.rows;

    var names, cbms := SumByKey(items, ContainerKey, Cbm);
    var containers := BarsOf(names, cbms);
    BarsAreChart(items, names, cbms);

    var statusOrder, statusCounts := CountByKey(items, StatusKey);
    var statuses := EntriesOf(statusOrder, statusCounts);
    EntriesAreCounts(statusOrder, statusCounts, items, StatusKey);

    var supplierOrder, supplierCounts := CountByKey(items, SupplierKey);
    var suppliers := TopN(SortDesc(EntriesOf(supplierOrder, supplierCounts)), 10);
    EntriesAreCounts(supplierOrder, supplierCounts, items, SupplierKey);

    var costs := CostPoints(names, items);

    var clientOrder, clientCounts := CountByKey(items, ClientKey);
    var clients := Colored(TopN(SortDesc(EntriesOf(clientOrder, clientCounts)), 5));
    EntriesAreCounts(clientOrder, clientCounts, items, ClientKey);

    charts := Some(ChartData(containers, statuses, suppliers, costs, clients));
  }

  // ---------------------------------------------------------------------
  // What the charts promise

  /** The container chart has one bar per distinct container key: no key
      twice, every bar a key some item carries, and every item's key has a
      bar. */
  lemma ContainerBarsAreTheKeys(items: seq<LineItem>)
    ensures var bars := ContainerChart(items);
      && (forall i, j :: 0 <= i < j < |bars| ==> bars[i].container != bars[j].container)
      && (forall i :: 0 <= i < |bars| ==> bars[i].container in KeysOf(items, ContainerKey))
      && (forall x :: x in items ==> exists i :: 0 <= i < |bars| && bars[i].container == ContainerKey(x))
  {
    var bars, ks := ContainerChart(items), ContainerKeys(items);
    forall x | x in items
      ensures exists i :: 0 <= i < |bars| && bars[i].container == ContainerKey(x)
    {
      var m :| 0 <= m < |items| && items[m] == x;
      assert KeysOf(items, ContainerKey)[m] == ContainerKey(x);
      assert ContainerKey(x) in ks;
      var j :| 0 <= j < |ks| && ks[j] == ContainerKey(x);
      assert bars[j].container == ContainerKey(x);
    }
  }

  /** The sum of the counts of a list of entries ("Total Items"). */
  function TotalCount(es: seq<Entry>): nat {
    if |es| == 0 then 0 else TotalCount(es[..|es| - 1]) + es[|es| - 1].count
  }

  /** How often `k` occurs in `ks`. */
  function Occurrences(ks: seq<string>, k: string): nat {
    if |ks| == 0 then 0 else Occurrences(ks[..|ks| - 1], k) + (if ks[|ks| - 1] == k then 1 else 0)
  }

  lemma {:induction false} OccursOnce(ks: seq<string>, k: string)
    requires forall i, j :: 0 <= i < j < |ks| ==> ks[i] != ks[j]
    ensures Occurrences(ks, k) == if k in ks then 1 else 0
  {
    if |ks| > 0 {
      var init := ks[..|ks| - 1];
      assert ks == init + [ks[|ks| - 1]];
      OccursOnce(init, k);
      if ks[|ks| - 1] == k {
        assert k !in init by {
          forall i | 0 <= i < |init| ensures init[i] != k {
            assert ks[i] != ks[|ks| - 1];
          }
        }
      }
    }
  }

  lemma {:induction false} CountAbsentKey(items: seq<LineItem>, key: LineItem -> string, k: string)
    requires k !in KeysOf(items, key)
    ensures CountWhere(items, key, k) == 0
  {
    if |items| > 0 {
      var init := items[..|items| - 1];
      assert KeysOf(items, key)[|items| - 1] == key(items[|items| - 1]);
      assert forall i :: 0 <= i < |init| ==> KeysOf(init, key)[i] == KeysOf(items, key)[i];
      CountAbsentKey(init, key, k);
    }
  }

  lemma {:induction false} SumAbsentKey(items: seq<LineItem>, key: LineItem -> string, k: string, val: LineItem -> real)
    requires k !in KeysOf(items, key)
    ensures SumWhere(items, key, k, val) == 0.0
  {
    if |items| > 0 {
      var init := items[..|items| - 1];
      assert KeysOf(items, key)[|items| - 1] == key(items[|items| - 1]);
      assert forall i :: 0 <= i < |init| ==> KeysOf(init, key)[i] == KeysOf(items, key)[i];
      SumAbsentKey(init, key, k, val);
    }
  }

  /** One more item adds one to the total for each occurrence of its key. */
  lemma {:induction false} TotalCountSnoc(ks: seq<string>, items: seq<LineItem>, x: LineItem, key: LineItem -> string)
    ensures TotalCount(CountEntries(ks, items + [x], key))
      == TotalCount(CountEntries(ks, items, key)) + Occurrences(ks, key(x))
  {
    assert (items + [x])[..|items|] == items;
    if |ks| > 0 {
      var init := ks[..|ks| - 1];
      assert CountEntries(ks, items + [x], key)[..|init|] == CountEntries(init, items + [x], key);
      assert CountEntries(ks, items, key)[..|init|] == CountEntries(init, items, key);
      TotalCountSnoc(init, items, x, key);
    }
  }

  lemma {:induction false} TotalCountAppendKey(ks: seq<string>, k: string, items: seq<LineItem>, key: LineItem -> string)
    ensures TotalCount(CountEntries(ks + [k], items, key)) == TotalCount(CountEntries(ks, items, key)) + CountWhere(items, key, k)
  {
    assert CountEntries(ks + [k], items, key)[..|ks|] == CountEntries(ks, items, key);
  }

  /** The counts of all keys add up to the number of items. */
  lemma {:induction false} CountsSumToItems(items: seq<LineItem>, key: LineItem -> string)
    ensures TotalCount(CountEntries(Distinct(KeysOf(items, key)), items, key)) == |items|
  {
    if |items| > 0 {
      var init, x := items[..|items| - 1], items[|items| - 1];
      assert items == init + [x];
      CountsSumToItems(init, key);
      var ks := KeysOf(init, key);
      var d := Distinct(ks);
      assert KeysOf(items, key) == ks + [key(x)];
      assert (ks + [key(x)])[..|ks|] == ks;
      TotalCountSnoc(d, init, x, key);
      OccursOnce(d, key(x));
      if key(x) !in d {
        TotalCountAppendKey(d, key(x), items, key);
        CountAbsentKey(init, key, key(x));
        assert CountWhere(items, key, key(x)) == 1;
      }
    }
  }

  /** "Total Items": the status counts add up to the number of items. */
  lemma StatusCountsSumToItems(items: seq<LineItem>)
    ensures TotalCount(StatusChart(items)) == |items|
  {
    CountsSumToItems(items, StatusKey);
  }

  /** At most ten suppliers, largest first; no supplier left out has more
      items than the smallest one shown. */
  lemma SupplierChartKeepsTheLargest(items: seq<LineItem>)
    ensures var all, top := CountEntries(Distinct(KeysOf(items, SupplierKey)), items, SupplierKey), SupplierChart(items);
      && |top| <= 10 && NonIncreasing(top)
      && (forall e :: e in all && e !in top && |top| > 0 ==> e.count <= top[|top| - 1].count)
  {
    TopKeepsLargest(CountEntries(Distinct(KeysOf(items, SupplierKey)), items, SupplierKey), 10);
  }

  /** At most five clients, largest first; no client left out has more
      items than the smallest one shown. */
  lemma ClientChartKeepsTheLargest(items: seq<LineItem>)
    ensures var all, top := CountEntries(Distinct(KeysOf(items, ClientKey)), items, ClientKey), TopCounts(items, ClientKey, 5);
      && |ClientChart(items)| <= 5 && NonIncreasing(top)
      && (forall e :: e in all && e !in top && |top| > 0 ==> e.count <= top[|top| - 1].count)
  {
    TopKeepsLargest(CountEntries(Distinct(KeysOf(items, ClientKey)), items, ClientKey), 5);
  }

  /** Each client slice shows the name and count of its entry, in the
      palette colour of its position. */
  lemma ClientColors(items: seq<LineItem>)
    ensures var top, slices := TopCounts(items, ClientKey, 5), ClientChart(items);
      forall i :: 0 <= i < |slices| ==>
        slices[i].name == top[i].name && slices[i].value == top[i].count && slices[i].fill == ClientColor(i)
    ensures ClientColor(0) == "#3b82f6" && ClientColor(8) == ClientColor(0)
  {
  }

  /** For a named container the cost point sums exactly the items grouped
      under it. */
  lemma {:induction false} NamedContainerCost(items: seq<LineItem>, k: string, val: LineItem -> real)
    requires k != Unknown && k != ""
    ensures SumWhere(items, ContainerName, k, val) == SumWhere(items, ContainerKey, k, val)
  {
    if |items| > 0 {
      NamedContainerCost(items[..|items| - 1], k, val);
    }
  }

  /** No item named `k` exactly: nothing is summed under it. */
  lemma {:induction false} UnmatchedNameSumsToZero(items: seq<LineItem>, k: string, val: LineItem -> real)
    requires forall x :: x in items ==> x.containerName != k
    ensures SumWhere(items, ContainerName, k, val) == 0.0
  {
    if |items| > 0 {
      assert items[|items| - 1] in items;
      UnmatchedNameSumsToZero(items[..|items| - 1], k, val);
    }
  }

  /** The cost chart has a point for each container bar, in the same order,
      and the point of every named container carries the product and freight
      costs of exactly the items grouped under that container. */
  lemma CostChartByContainer(items: seq<LineItem>)
    ensures |CostChart(items)| == |ContainerChart(items)|
    ensures forall i :: 0 <= i < |CostChart(items)| ==> CostChart(items)[i].container == ContainerChart(items)[i].container
    ensures forall i :: 0 <= i < |CostChart(items)| && CostChart(items)[i].container != Unknown ==>
      && CostChart(items)[i].productCost == SumWhere(items, ContainerKey, CostChart(items)[i].container, Cost)
      && CostChart(items)[i].freightCost == SumWhere(items, ContainerKey, CostChart(items)[i].container, Freight)
  {
    var ks := ContainerKeys(items);
    forall i | 0 <= i < |ks| && ks[i] != Unknown
      ensures CostChart(items)[i].productCost == SumWhere(items, ContainerKey, ks[i], Cost)
      ensures CostChart(items)[i].freightCost == SumWhere(items, ContainerKey, ks[i], Freight)
    {
      var all := KeysOf(items, ContainerKey);
      assert ks[i] in all;
      var j :| 0 <= j < |all| && all[j] == ks[i];
      assert ks[i] == OrUnknown(items[j].containerName);
      NamedContainerCost(items, ks[i], Cost);
      NamedContainerCost(items, ks[i], Freight);
    }
  }

  /** The items without a container name are grouped under "Unknown", but
      the cost chart looks for the literal name "Unknown": unless some item
      is named that, the "Unknown" point costs nothing. */
  lemma UnknownCostsNothing(items: seq<LineItem>)
    requires forall x :: x in items ==> x.containerName != Unknown
    ensures (exists x :: x in items && x.containerName == "") ==> Unknown in ContainerKeys(items)
    ensures forall i :: 0 <= i < |CostChart(items)| && CostChart(items)[i].container == Unknown ==>
      CostChart(items)[i].productCost == 0.0 && CostChart(items)[i].freightCost == 0.0
  {
    UnmatchedNameSumsToZero(items, Unknown, Cost);
    UnmatchedNameSumsToZero(items, Unknown, Freight);
    if x :| x in items && x.containerName == "" {
      var j :| 0 <= j < |items| && items[j] == x;
      assert KeysOf(items, ContainerKey)[j] == Unknown;
    }
  }
}

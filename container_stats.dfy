/** The summary metrics the container page shows above its table: sums,
    a filtered sum, a residual and a count over the line items on display,
    each missing amount counted as 0. */
module ContainerStats {
  import opened Common
  import opened Records

  function Cbm(x: LineItem): real { NumOr0(x.cbm) }
  function Cost(x: LineItem): real { NumOr0(x.productCost) }
  function Paid(x: LineItem): real { NumOr0(x.payment) }
  function Cartons(x: LineItem): real { x.cartons.GetOr(0) as real }
  function GrossWeight(x: LineItem): real { NumOr0(x.grossWeight) }

  /** What is still owed on one item. */
  function Balance(x: LineItem): real { Cost(x) - Paid(x) }

  const ReadyToShip := "READY TO SHIP"

  predicate IsReady(x: LineItem) { x.status == ReadyToShip }
  predicate NotReady(x: LineItem) { x.status != ReadyToShip }
  predicate Owes(x: LineItem) { Balance(x) > 0.0 }
  predicate Settled(x: LineItem) { Balance(x) <= 0.0 }

  /** `items.reduce((sum, item) => sum + field(item), 0)`: a left fold, so
      the last item is added last. */
  function Total(items: seq<LineItem>, field: LineItem -> real): real {
    if |items| == 0 then 0.0
    else Total(items[..|items| - 1], field) + field(items[|items| - 1])
  }

  /** `items.filter(keep)`: the kept items in their order. */
  function Filter(items: seq<LineItem>, keep: LineItem -> bool): (r: seq<LineItem>)
    ensures |r| <= |items|
  {
    if |items| == 0 then []
    else
      var rest := Filter(items[..|items| - 1], keep);
      var last := items[|items| - 1];
      if keep(last) then rest + [last] else rest
  }

  /** The kept items are exactly the members that pass the test. */
  lemma {:induction false} FilterMembers(items: seq<LineItem>, keep: LineItem -> bool)
    ensures forall x :: x in Filter(items, keep) <==> x in items && keep(x)
  {
    if |items| > 0 {
      var prefix := items[..|items| - 1];
      FilterMembers(prefix, keep);
      assert items == prefix + [items[|items| - 1]];
    }
  }

  /** Adding one item at the end adds its field to the sum. */
  lemma TotalSnoc(items: seq<LineItem>, x: LineItem, field: LineItem -> real)
    ensures Total(items + [x], field) == Total(items, field) + field(x)
  {
    assert (items + [x])[..|items|] == items;
  }

  datatype Metrics = Metrics(
    totalCBM: real,
    cbmReadyToShip: real,
    cbmAwaitingSupplier: real,
    needPaymentCount: nat,
    totalCost: real,
    totalPayments: real,
    remainingToPay: real,
    totalCartons: real,
    totalGrossWeight: real)

  /** The `stats` memo of the container page. Total cost is the product cost
      alone, and CBM awaiting supplier is what is left of the total once the
      ready-to-ship CBM is taken out. */
  function Stats(items: seq<LineItem>): Metrics {
    var totalCBM := Total(items, Cbm);
    var cbmReadyToShip := Total(Filter(items, IsReady), Cbm);
    var totalCost := Total(items, Cost);
    var totalPayments := Total(items, Paid);
    Metrics(
      totalCBM,
      cbmReadyToShip,
      totalCBM - cbmReadyToShip,
      |Filter(items, Owes)|,
      totalCost,
      totalPayments,
      totalCost - totalPayments,
      Total(items, Cartons),
      Total(items, GrossWeight))
  }

  /** Sums split over a concatenation. */
  lemma {:induction false} TotalAppend(a: seq<LineItem>, b: seq<LineItem>, field: LineItem -> real)
    ensures Total(a + b, field) == Total(a, field) + Total(b, field)
  {
    if |b| > 0 {
      assert (a + b)[..|a + b| - 1] == a + b[..|b| - 1];
      TotalAppend(a, b[..|b| - 1], field);
    } else {
      assert a + b == a;
    }
  }

  /** Filtering splits over a concatenation. */
  lemma {:induction false} FilterAppend(a: seq<LineItem>, b: seq<LineItem>, keep: LineItem -> bool)
    ensures Filter(a + b, keep) == Filter(a, keep) + Filter(b, keep)
  {
    if |b| > 0 {
      assert (a + b)[..|a + b| - 1] == a + b[..|b| - 1];
      FilterAppend(a, b[..|b| - 1], keep);
    } else {
      assert a + b == a;
    }
  }

  /** An item split: the ready part and the rest add up to the whole. */
  lemma {:induction false} ReadySplit(items: seq<LineItem>)
    ensures Total(Filter(items, IsReady), Cbm) + Total(Filter(items, NotReady), Cbm) == Total(items, Cbm)
  {
    if |items| > 0 {
      var prefix, last := items[..|items| - 1], items[|items| - 1];
      ReadySplit(prefix);
      if IsReady(last) {
        TotalAppend(Filter(prefix, IsReady), [last], Cbm);
      } else {
        TotalAppend(Filter(prefix, NotReady), [last], Cbm);
      }
    }
  }

  /** CBM "awaiting supplier" is the CBM of every item that is not ready to
      ship, whatever its actual status: a residual, not a filter on
      "AWAITING SUPPLIER". */
  lemma AwaitingIsEveryNonReadyItem(items: seq<LineItem>)
    ensures Stats(items).cbmAwaitingSupplier == Total(Filter(items, NotReady), Cbm)
    ensures Stats(items).cbmReadyToShip + Stats(items).cbmAwaitingSupplier == Stats(items).totalCBM
  {
    ReadySplit(items);
  }

  /** The remaining amount to pay is the sum of the per-item balances
      (product cost minus payment), the sum the exported sheet's Remaining
      column totals. */
  lemma {:induction false} RemainingIsSumOfBalances(items: seq<LineItem>)
    ensures Stats(items).remainingToPay == Total(items, Balance)
    ensures Stats(items).remainingToPay == Stats(items).totalCost - Stats(items).totalPayments
  {
    if |items| > 0 {
      RemainingIsSumOfBalances(items[..|items| - 1]);
    }
  }

  /** The need-payment count counts exactly the items with a positive balance:
      it never exceeds the item count, a settled item (payment at least the
      cost) is never among them, and together with the settled items they
      make up the whole list. */
  lemma {:induction false} NeedPaymentCountsOwingItems(items: seq<LineItem>)
    ensures 0 <= Stats(items).needPaymentCount <= |items|
    ensures forall x :: x in Filter(items, Owes) ==> Paid(x) < Cost(x)
    ensures forall x :: x in items && Paid(x) >= Cost(x) ==> x !in Filter(items, Owes)
    ensures Stats(items).needPaymentCount + |Filter(items, Settled)| == |items|
  {
    FilterMembers(items, Owes);
    if |items| > 0 {
      NeedPaymentCountsOwingItems(items[..|items| - 1]);
    }
  }

  /** With no items every metric is 0. */
  lemma EmptyListHasZeroMetrics()
    ensures Stats([]) == Metrics(0.0, 0.0, 0.0, 0, 0.0, 0.0, 0.0, 0.0, 0.0)
  {
  }

  /** Metrics of two lists together are the sums of their metrics, so the
      figures do not depend on how the rows are paged. */
  lemma StatsOfConcatenation(a: seq<LineItem>, b: seq<LineItem>)
    ensures Stats(a + b).totalCBM == Stats(a).totalCBM + Stats(b).totalCBM
    ensures Stats(a + b).cbmReadyToShip == Stats(a).cbmReadyToShip + Stats(b).cbmReadyToShip
    ensures Stats(a + b).cbmAwaitingSupplier == Stats(a).cbmAwaitingSupplier + Stats(b).cbmAwaitingSupplier
    ensures Stats(a + b).needPaymentCount == Stats(a).needPaymentCount + Stats(b).needPaymentCount
    ensures Stats(a + b).totalCost == Stats(a).totalCost + Stats(b).totalCost
    ensures Stats(a + b).totalPayments == Stats(a).totalPayments + Stats(b).totalPayments
    ensures Stats(a + b).remainingToPay == Stats(a).remainingToPay + Stats(b).remainingToPay
    ensures Stats(a + b).totalCartons == Stats(a).totalCartons + Stats(b).totalCartons
    ensures Stats(a + b).totalGrossWeight == Stats(a).totalGrossWeight + Stats(b).totalGrossWeight
  {
    TotalAppend(a, b, Cbm);
    TotalAppend(a, b, Cost);
    TotalAppend(a, b, Paid);
    TotalAppend(a, b, Cartons);
    TotalAppend(a, b, GrossWeight);
    FilterAppend(a, b, IsReady);
    FilterAppend(a, b, Owes);
    TotalAppend(Filter(a, IsReady), Filter(b, IsReady), Cbm);
  }

  function Item(cbm: real, status: string, cost: real, payment: real): LineItem {
    LineItem("", "", None, Some(cbm), None, None, Some(cost), None, None, Some(payment), None,
             status, None, None, None, "", None)
  }

  /** Two items, one ready with 10 CBM and 60 still owed, one pending and
      fully paid. */
  lemma TwoItemScenario()
    ensures var m := Stats([Item(10.0, ReadyToShip, 100.0, 40.0), Item(5.0, "PENDING", 50.0, 50.0)]);
      m.totalCBM == 15.0 && m.cbmReadyToShip == 10.0 && m.cbmAwaitingSupplier == 5.0 &&
      m.totalCost == 150.0 && m.totalPayments == 90.0 && m.remainingToPay == 60.0 &&
      m.needPaymentCount == 1
  {
    var a, b := Item(10.0, ReadyToShip, 100.0, 40.0), Item(5.0, "PENDING", 50.0, 50.0);
    var items := [a, b];
    assert items[..1] == [a];
    assert [a][..0] == [];
    assert Total([a], Cbm) == 10.0;
    assert Total([a], Cost) == 100.0;
    assert Total([a], Paid) == 40.0;
    assert Filter(items, IsReady) == [a];
    assert Filter(items, Owes) == [a];
  }
}

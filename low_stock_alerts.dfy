/** Low-stock alert computation of InventoryService.getLowStockAlerts.

    The repository query that yields the candidate rows is an input here, and the two
    collaborators the service consults per row (the recent-sales check and the sales
    velocity) are function parameters; the placeholders the service ships with are
    StubHasRecentSales and StubAverageDailySales below. */
module LowStockAlerts {

  /** One row of the low-stock query: an inventory record joined with its product,
      warehouse and supplier (the InventoryProjection getters the service reads). */
  datatype Candidate = Candidate(
    productId: int,
    productName: string,
    sku: string,
    warehouseId: int,
    warehouseName: string,
    quantity: int,
    reorderLevel: int,
    supplierId: int,
    supplierName: string,
    supplierEmail: string)

  /** LowStockAlertDTO.SupplierDTO */
  datatype Supplier = Supplier(id: int, name: string, contactEmail: string)

  /** LowStockAlertDTO */
  datatype Alert = Alert(
    productId: int,
    productName: string,
    sku: string,
    warehouseId: int,
    warehouseName: string,
    currentStock: int,
    threshold: int,
    daysUntilStockout: int,
    supplier: Supplier)

  /** hasRecentSales(productId, days) */
  type RecentSales = (int, int) -> bool

  /** getAverageDailySales(productId, warehouseId), units sold per day */
  type SalesVelocity = (int, int) -> real

  /** The look-back window, in days, passed to the recent-sales check. */
  const RecentSalesWindowDays := 30

  /** Days-until-stockout reported when there is no positive sales velocity. */
  const NoVelocitySentinel := 999

  // ---------------------------------------------------------------------------
  // The per-row computations

  /** Java's (int) cast of a quotient: truncation toward zero. Saturation at the
      bounds of a 32-bit int is not modelled. */
  function TruncateToInt(x: real): (n: int)
    ensures 0.0 <= x ==> 0 <= n && n as real <= x < n as real + 1.0
    ensures x < 0.0 ==> n <= 0 && n as real - 1.0 < x <= n as real
  {
    if x >= 0.0 then x.Floor else -((-x).Floor)
  }

  /** The stockout projection of one row: the sentinel when the velocity is not
      positive, otherwise the whole number of days the stock lasts at that velocity. */
  function DaysUntilStockout(quantity: int, avgDailySales: real): (days: int)
    ensures !(avgDailySales > 0.0) ==> days == NoVelocitySentinel
    ensures avgDailySales > 0.0 && quantity >= 0 ==>
      0 <= days &&
      days as real * avgDailySales <= quantity as real < (days + 1) as real * avgDailySales
    ensures avgDailySales > 0.0 && quantity < 0 ==>
      days <= 0 &&
      (days - 1) as real * avgDailySales < quantity as real <= days as real * avgDailySales
  {
    if avgDailySales > 0.0 then
      var q := quantity as real / avgDailySales;
      var d := TruncateToInt(q);
      ScaleBounds(q, avgDailySales, quantity as real, d as real);
      assert (d + 1) as real == d as real + 1.0 && (d - 1) as real == d as real - 1.0;
      d
    else
      NoVelocitySentinel
  }

  /** Multiplying the bounds of q = x / v by v > 0. */
  lemma ScaleBounds(q: real, v: real, x: real, e: real)
    requires v > 0.0 && q == x / v
    ensures e <= q ==> e * v <= x
    ensures q < e + 1.0 ==> x < (e + 1.0) * v
    ensures e - 1.0 < q ==> (e - 1.0) * v < x
    ensures q <= e ==> x <= e * v
  {
    assert q * v == x;
    if e <= q { MulMonotone(e, q, v); }
    if q < e + 1.0 {
      MulStrict(q, e + 1.0, v);
      assert x < (e + 1.0) * v;
    }
    if e - 1.0 < q {
      MulStrict(e - 1.0, q, v);
      assert (e - 1.0) * v < x;
    }
    if q <= e { MulMonotone(q, e, v); }
  }

  lemma MulStrict(a: real, b: real, v: real)
    requires a < b && v > 0.0
    ensures a * v < b * v
  {
  }

  lemma MulMonotone(a: real, b: real, v: real)
    requires a <= b && v > 0.0
    ensures a * v <= b * v
  {
  }

  /** The recent-sales business rule: a row is kept only if it sold recently. */
  predicate Passes(c: Candidate, hasRecentSales: RecentSales)
  {
    hasRecentSales(c.productId, RecentSalesWindowDays)
  }

  /** The DTO built from a row and its projected days-until-stockout. */
  function ToAlert(c: Candidate, daysUntilStockout: int): Alert
  {
    Alert(c.productId, c.productName, c.sku, c.warehouseId, c.warehouseName,
          c.quantity, c.reorderLevel, daysUntilStockout,
          Supplier(c.supplierId, c.supplierName, c.supplierEmail))
  }

  /** The alert the service emits for a row that passed the filter. */
  function AlertFor(c: Candidate, averageDailySales: SalesVelocity): Alert
  {
    ToAlert(c, DaysUntilStockout(c.quantity, averageDailySales(c.productId, c.warehouseId)))
  }

  /** Every identifying, stock and supplier field of the alert is the row's own. */
  predicate CopiesFields(c: Candidate, a: Alert)
  {
    && a.productId == c.productId
    && a.productName == c.productName
    && a.sku == c.sku
    && a.warehouseId == c.warehouseId
    && a.warehouseName == c.warehouseName
    && a.currentStock == c.quantity
    && a.threshold == c.reorderLevel
    && a.supplier.id == c.supplierId
    && a.supplier.name == c.supplierName
    && a.supplier.contactEmail == c.supplierEmail
  }

  // ---------------------------------------------------------------------------
  // The functional specification: filter, then map

  /** The rows that pass the recent-sales filter, in input order. */
  function Kept(cs: seq<Candidate>, hasRecentSales: RecentSales): (kept: seq<Candidate>)
    ensures |kept| <= |cs|
    decreases |cs|
  {
    if cs == [] then []
    else
      var rest := Kept(cs[..|cs| - 1], hasRecentSales);
      if Passes(cs[|cs| - 1], hasRecentSales) then rest + [cs[|cs| - 1]] else rest
  }

  /** The positions of the rows that pass the filter, in input order. */
  function KeptIndices(cs: seq<Candidate>, hasRecentSales: RecentSales): seq<nat>
    decreases |cs|
  {
    if cs == [] then []
    else
      var rest := KeptIndices(cs[..|cs| - 1], hasRecentSales);
      if Passes(cs[|cs| - 1], hasRecentSales) then rest + [|cs| - 1] else rest
  }

  /** One alert per kept row, in the same order. */
  function Projected(kept: seq<Candidate>, averageDailySales: SalesVelocity): (alerts: seq<Alert>)
  {
    seq(|kept|, k requires 0 <= k < |kept| => AlertFor(kept[k], averageDailySales))
  }

  /** The alert list getLowStockAlerts returns for the given candidate rows. */
  function AlertsSpec(cs: seq<Candidate>, hasRecentSales: RecentSales,
                          averageDailySales: SalesVelocity): (alerts: seq<Alert>)
    ensures |alerts| <= |cs|
    ensures cs == [] ==> alerts == []
  {
    Projected(Kept(cs, hasRecentSales), averageDailySales)
  }

  // ---------------------------------------------------------------------------
  // The service method

  /** InventoryService.getLowStockAlerts over the rows the repository returned. */
  method GetLowStockAlerts(lowStockItems: seq<Candidate>, hasRecentSales: RecentSales,
                           averageDailySales: SalesVelocity)
    returns (alerts: seq<Alert>)
    ensures alerts == AlertsSpec(lowStockItems, hasRecentSales, averageDailySales)
  {
    alerts := [];
    for i := 0 to |lowStockItems|
      invariant alerts == AlertsSpec(lowStockItems[..i], hasRecentSales, averageDailySales)
    {
      var item := lowStockItems[i];
      assert lowStockItems[..i + 1][..i] == lowStockItems[..i];
      if !hasRecentSales(item.productId, RecentSalesWindowDays) {
        continue;
      }
      var avgDailySales := averageDailySales(item.productId, item.warehouseId);
      var daysUntilStockout := NoVelocitySentinel;
      if avgDailySales > 0.0 {
        daysUntilStockout := TruncateToInt(item.quantity as real / avgDailySales);
      }
      var alert := Alert(
        item.productId, item.productName, item.sku, item.warehouseId, item.warehouseName,
        item.quantity, item.reorderLevel, daysUntilStockout,
        Supplier(item.supplierId, item.supplierName, item.supplierEmail));
      ProjectedAppend(Kept(lowStockItems[..i], hasRecentSales), item, averageDailySales);
      alerts := alerts + [alert];
    }
    assert lowStockItems[..|lowStockItems|] == lowStockItems;
  }

  // ---------------------------------------------------------------------------
  // Properties of the specification

  lemma ProjectedAppend(kept: seq<Candidate>, c: Candidate, averageDailySales: SalesVelocity)
    ensures Projected(kept + [c], averageDailySales)
         == Projected(kept, averageDailySales) + [AlertFor(c, averageDailySales)]
  {
  }

  lemma ProjectedConcat(a: seq<Candidate>, b: seq<Candidate>, averageDailySales: SalesVelocity)
    ensures Projected(a + b, averageDailySales)
         == Projected(a, averageDailySales) + Projected(b, averageDailySales)
  {
  }

  /** The filter distributes over concatenation of the candidate list. */
  lemma {:induction false} KeptConcat(a: seq<Candidate>, b: seq<Candidate>, hasRecentSales: RecentSales)
    ensures Kept(a + b, hasRecentSales) == Kept(a, hasRecentSales) + Kept(b, hasRecentSales)
    decreases |b|
  {
    if b == [] {
      assert a + b == a;
    } else {
      var b' := b[..|b| - 1];
      assert (a + b)[..|a + b| - 1] == a + b';
      assert (a + b)[|a + b| - 1] == b[|b| - 1];
      KeptConcat(a, b', hasRecentSales);
    }
  }

  /** The kept rows are exactly the rows that pass the filter, in input order: the
      positions KeptIndices lists are strictly increasing, are precisely the positions
      whose row passes, and pick out the kept rows. */
  lemma {:induction false} KeptIsFilteredSubsequence(cs: seq<Candidate>, hasRecentSales: RecentSales)
    ensures var kept, idx := Kept(cs, hasRecentSales), KeptIndices(cs, hasRecentSales);
      && |idx| == |kept|
      && (forall k :: 0 <= k < |idx| ==> idx[k] < |cs| && kept[k] == cs[idx[k]])
      && (forall k, l :: 0 <= k < l < |idx| ==> idx[k] < idx[l])
      && (forall j :: 0 <= j < |cs| ==> (j in idx <==> Passes(cs[j], hasRecentSales)))
    decreases |cs|
  {
    if cs != [] {
      var init := cs[..|cs| - 1];
      KeptIsFilteredSubsequence(init, hasRecentSales);
      var idx0 := KeptIndices(init, hasRecentSales);
      forall j | 0 <= j < |init| ensures init[j] == cs[j] { }
      assert forall k :: 0 <= k < |idx0| ==> idx0[k] < |init|;
    }
  }

  /** The output is exactly the projection of the passing rows, in input order: the
      k-th alert comes from the k-th passing row, copies its fields and carries its
      stockout projection. */
  lemma AlertsAreFilteredProjection(cs: seq<Candidate>, hasRecentSales: RecentSales,
                                    averageDailySales: SalesVelocity)
    ensures var alerts, idx := AlertsSpec(cs, hasRecentSales, averageDailySales),
                               KeptIndices(cs, hasRecentSales);
      && |alerts| == |idx|
      && (forall k, l :: 0 <= k < l < |idx| ==> idx[k] < idx[l])
      && (forall j :: 0 <= j < |cs| ==> (j in idx <==> Passes(cs[j], hasRecentSales)))
      && forall k :: 0 <= k < |alerts| ==>
           && idx[k] < |cs|
           && CopiesFields(cs[idx[k]], alerts[k])
           && alerts[k].daysUntilStockout
              == DaysUntilStockout(cs[idx[k]].quantity,
                                   averageDailySales(cs[idx[k]].productId, cs[idx[k]].warehouseId))
  {
  }

  /** A row without recent sales contributes no alert: dropping it from the input
      leaves the output unchanged. */
  lemma ExcludedCandidateContributesNothing(cs: seq<Candidate>, j: nat, hasRecentSales: RecentSales,
                                            averageDailySales: SalesVelocity)
    requires j < |cs| && !Passes(cs[j], hasRecentSales)
    ensures AlertsSpec(cs, hasRecentSales, averageDailySales)
         == AlertsSpec(cs[..j] + cs[j + 1..], hasRecentSales, averageDailySales)
  {
    assert cs == cs[..j] + ([cs[j]] + cs[j + 1..]);
    KeptConcat(cs[..j], [cs[j]] + cs[j + 1..], hasRecentSales);
    KeptConcat([cs[j]], cs[j + 1..], hasRecentSales);
    KeptConcat(cs[..j], cs[j + 1..], hasRecentSales);
    assert Kept([cs[j]], hasRecentSales) == [] by {
      assert [cs[j]][..0] == [];
    }
  }

  /** A row with recent sales contributes exactly its own alert, between the alerts
      of the rows before it and those of the rows after it. */
  lemma KeptCandidateContributesOneAlert(before: seq<Candidate>, c: Candidate, after: seq<Candidate>,
                                         hasRecentSales: RecentSales, averageDailySales: SalesVelocity)
    requires Passes(c, hasRecentSales)
    ensures AlertsSpec(before + [c] + after, hasRecentSales, averageDailySales)
         == AlertsSpec(before, hasRecentSales, averageDailySales)
            + [AlertFor(c, averageDailySales)]
            + AlertsSpec(after, hasRecentSales, averageDailySales)
  {
    KeptConcat(before + [c], after, hasRecentSales);
    KeptConcat(before, [c], hasRecentSales);
    assert [c][..0] == [];
    var kb, ka := Kept(before, hasRecentSales), Kept(after, hasRecentSales);
    assert Kept(before + [c] + after, hasRecentSales) == kb + [c] + ka;
    ProjectedConcat(kb + [c], ka, averageDailySales);
    ProjectedAppend(kb, c, averageDailySales);
  }

  // ---------------------------------------------------------------------------
  // The placeholders the service ships with

  /** hasRecentSales as shipped: every product counts as recently sold. */
  function StubHasRecentSales(productId: int, days: int): bool
  {
    true
  }

  /** getAverageDailySales as shipped: a fixed 5.0 units per day. */
  function StubAverageDailySales(productId: int, warehouseId: int): real
  {
    5.0
  }

  lemma {:induction false} FloorOfFifth(q: nat)
    ensures TruncateToInt(q as real / 5.0) == q / 5
  {
  }

  /** With the shipped placeholders every row yields exactly one alert, in input
      order, whose days-until-stockout is the quantity divided by 5, truncated. */
  lemma StubAlerts(cs: seq<Candidate>)
    ensures var alerts := AlertsSpec(cs, StubHasRecentSales, StubAverageDailySales);
      && |alerts| == |cs|
      && forall k :: 0 <= k < |cs| ==>
           && CopiesFields(cs[k], alerts[k])
           && (cs[k].quantity >= 0 ==> alerts[k].daysUntilStockout == cs[k].quantity / 5)
  {
    var alerts := AlertsSpec(cs, StubHasRecentSales, StubAverageDailySales);
    StubKeepsEverything(cs);
    forall k | 0 <= k < |cs| && cs[k].quantity >= 0
      ensures alerts[k].daysUntilStockout == cs[k].quantity / 5
    {
      FloorOfFifth(cs[k].quantity);
    }
  }

  lemma {:induction false} StubKeepsEverything(cs: seq<Candidate>)
    ensures Kept(cs, StubHasRecentSales) == cs
    decreases |cs|
  {
    if cs != [] {
      StubKeepsEverything(cs[..|cs| - 1]);
      assert cs[..|cs| - 1] + [cs[|cs| - 1]] == cs;
    }
  }

  // ---------------------------------------------------------------------------
  // Worked scenarios

  /** Quantity 10 at the shipped 5.0 units per day lasts 2 days. */
  lemma StubExample()
    ensures AlertsSpec([Candidate(1, "Widget A", "WID-001", 456, "Main Warehouse", 10, 20,
                                      789, "Supplier Corp", "orders@supplier.com")],
                           StubHasRecentSales, StubAverageDailySales)
         == [Alert(1, "Widget A", "WID-001", 456, "Main Warehouse", 10, 20, 2,
                   Supplier(789, "Supplier Corp", "orders@supplier.com"))]
  {
  }

  /** Three rows, the third without recent sales and the second without velocity:
      two alerts, in input order, the second with the sentinel. */
  lemma ThreeCandidateScenario()
    ensures var c1 := Candidate(1, "A", "A-1", 10, "W", 10, 15, 7, "S", "s@x");
            var c2 := Candidate(2, "B", "B-1", 10, "W", 4, 15, 7, "S", "s@x");
            var c3 := Candidate(3, "C", "C-1", 10, "W", 1, 15, 7, "S", "s@x");
            var alerts := AlertsSpec([c1, c2, c3], (p: int, d: int) => p != 3,
                                         (p: int, w: int) => if p == 2 then 0.0 else 5.0);
            && |alerts| == 2
            && alerts[0].productId == 1 && alerts[0].daysUntilStockout == 2
            && alerts[1].productId == 2 && alerts[1].daysUntilStockout == NoVelocitySentinel
  {
    var c1 := Candidate(1, "A", "A-1", 10, "W", 10, 15, 7, "S", "s@x");
    var c2 := Candidate(2, "B", "B-1", 10, "W", 4, 15, 7, "S", "s@x");
    var c3 := Candidate(3, "C", "C-1", 10, "W", 1, 15, 7, "S", "s@x");
    var recent := (p: int, d: int) => p != 3;
    var velocity := (p: int, w: int) => if p == 2 then 0.0 else 5.0;
    var cs := [c1, c2, c3];
    assert cs[..2] == [c1, c2] && [c1, c2][..1] == [c1] && [c1][..0] == [];
    assert Kept([c1], recent) == [c1];
    assert Kept([c1, c2], recent) == [c1, c2];
    assert !Passes(c3, recent);
    assert Kept(cs, recent) == [c1, c2];
    FloorOfFifth(10);
  }
}

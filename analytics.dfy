/**
 * The monthly analytics of the procurement service. It computes what each
 * supplier is owed for a month, a month's report with its total cost, and
 * request counts by month and status.
 *
 * The repository queries become parameters. The suppliers, each with its
 * requests, are a sequence. The stored requests are a sequence too, and
 * `ForMonth` plays the repository's month query on it.
 */
module Analytics {

  /** A stored request as the analytics see it: its month, status and cost. */
  datatype MonthRequest = MonthRequest(month: string, status: string, cost: int)

  datatype Supplier = Supplier(id: int, name: string, requests: seq<MonthRequest>)

  datatype Payment = Payment(supplierId: int, supplierName: string, totalPayment: int)

  datatype MonthlyReport = MonthlyReport(requests: seq<MonthRequest>, totalCost: int)

  datatype TotalRequests = TotalRequests(totalRequests: nat)

  /** The status strings the counts query for. */
  const RejectedStatus: string := "rejected"
  const DoneStatus: string := "done"

  // ---------------------------------------------------------------------
  // Selecting a month and summing costs
  // ---------------------------------------------------------------------

  /** The costs of `rs` added up from the left, starting at 0. */
  function SumCosts(rs: seq<MonthRequest>): (total: int)
    ensures |rs| == 0 ==> total == 0
    ensures |rs| == 1 ==> total == rs[0].cost
  {
    if |rs| == 0 then 0 else SumCosts(rs[..|rs| - 1]) + rs[|rs| - 1].cost
  }

  /** Adding up from the left agrees with adding up from the right: the first cost plus the rest. */
  lemma {:induction false} SumCostsCons(rs: seq<MonthRequest>)
    requires |rs| > 0
    ensures SumCosts(rs) == rs[0].cost + SumCosts(rs[1..])
    decreases |rs|
  {
    if |rs| > 1 {
      var init := rs[..|rs| - 1];
      SumCostsCons(init);
      assert init[1..] == rs[1..][..|rs| - 2];
    }
  }

  /** The requests of `month`, in their stored order. */
  function ForMonth(rs: seq<MonthRequest>, month: string): (r: seq<MonthRequest>)
    ensures |r| <= |rs|
  {
    if |rs| == 0 then []
    else
      var last := rs[|rs| - 1];
      ForMonth(rs[..|rs| - 1], month) + (if last.month == month then [last] else [])
  }

  /**
   * Exactly the requests of `month` are selected, each as many times as it
   * is stored.
   */
  lemma {:induction false} ForMonthSelects(rs: seq<MonthRequest>, month: string)
    ensures forall x :: multiset(ForMonth(rs, month))[x] == if x.month == month then multiset(rs)[x] else 0
    ensures forall x :: x in ForMonth(rs, month) <==> x in rs && x.month == month
  {
    if |rs| > 0 {
      var last := rs[|rs| - 1];
      assert rs == rs[..|rs| - 1] + [last];
      ForMonthSelects(rs[..|rs| - 1], month);
    }
  }

  /** The requests in status `status`, in their stored order. */
  function WithStatus(rs: seq<MonthRequest>, status: string): (r: seq<MonthRequest>)
    ensures |r| <= |rs|
    ensures forall i :: 0 <= i < |r| ==> r[i].status == status
  {
    if |rs| == 0 then []
    else
      var last := rs[|rs| - 1];
      WithStatus(rs[..|rs| - 1], status) + (if last.status == status then [last] else [])
  }

  /** Exactly the requests in `status` are selected, each as many times as it is stored. */
  lemma {:induction false} WithStatusSelects(rs: seq<MonthRequest>, status: string)
    ensures forall x :: multiset(WithStatus(rs, status))[x] == if x.status == status then multiset(rs)[x] else 0
  {
    if |rs| > 0 {
      var last := rs[|rs| - 1];
      assert rs == rs[..|rs| - 1] + [last];
      WithStatusSelects(rs[..|rs| - 1], status);
    }
  }

  lemma WithStatusSnoc(rs: seq<MonthRequest>, x: MonthRequest, status: string)
    ensures WithStatus(rs + [x], status) == WithStatus(rs, status) + (if x.status == status then [x] else [])
  {
    assert (rs + [x])[..|rs|] == rs;
  }

  lemma SumCostsSnoc(rs: seq<MonthRequest>, x: MonthRequest)
    ensures SumCosts(rs + [x]) == SumCosts(rs) + x.cost
  {
    assert (rs + [x])[..|rs|] == rs;
  }

  /** The sum of a concatenation is the sum of the parts. */
  lemma {:induction false} SumCostsAppend(a: seq<MonthRequest>, b: seq<MonthRequest>)
    ensures SumCosts(a + b) == SumCosts(a) + SumCosts(b)
    decreases |b|
  {
    if |b| == 0 {
      assert a + b == a;
    } else {
      var b' := b[..|b| - 1];
      assert a + b == (a + b') + [b[|b| - 1]];
      assert b == b' + [b[|b| - 1]];
      SumCostsAppend(a, b');
      SumCostsSnoc(a + b', b[|b| - 1]);
      SumCostsSnoc(b', b[|b| - 1]);
    }
  }

  lemma ForMonthSnoc(rs: seq<MonthRequest>, x: MonthRequest, month: string)
    ensures ForMonth(rs + [x], month) == ForMonth(rs, month) + (if x.month == month then [x] else [])
  {
    assert (rs + [x])[..|rs|] == rs;
  }

  /** Selecting a month of a concatenation selects it in each part. */
  lemma {:induction false} ForMonthAppend(a: seq<MonthRequest>, b: seq<MonthRequest>, month: string)
    ensures ForMonth(a + b, month) == ForMonth(a, month) + ForMonth(b, month)
    decreases |b|
  {
    if |b| == 0 {
      assert a + b == a;
    } else {
      var x := b[|b| - 1];
      var b' := b[..|b| - 1];
      assert a + b == (a + b') + [x];
      assert b == b' + [x];
      ForMonthAppend(a, b', month);
      ForMonthSnoc(a + b', x, month);
      ForMonthSnoc(b', x, month);
    }
  }

  /** One more request adds its cost to its month's sum and nothing to any other month's. */
  lemma MonthSumSnoc(rs: seq<MonthRequest>, x: MonthRequest, month: string)
    ensures SumCosts(ForMonth(rs + [x], month))
            == SumCosts(ForMonth(rs, month)) + (if x.month == month then x.cost else 0)
  {
    ForMonthSnoc(rs, x, month);
    if x.month == month {
      SumCostsSnoc(ForMonth(rs, month), x);
    } else {
      assert ForMonth(rs, month) + [] == ForMonth(rs, month);
    }
  }

  // ---------------------------------------------------------------------
  // Payments per supplier
  // ---------------------------------------------------------------------

  /**
   * `calculatePaymentsForSuppliers(month)`: one payment per supplier, in the
   * suppliers' order, with the supplier's id and name and the sum of the
   * costs of its requests of `month`.
   */
  method CalculatePaymentsForSuppliers(suppliers: seq<Supplier>, month: string) returns (payments: seq<Payment>)
    ensures |payments| == |suppliers|
    ensures forall i :: 0 <= i < |suppliers| ==>
      payments[i] == Payment(suppliers[i].id, suppliers[i].name, SumCosts(ForMonth(suppliers[i].requests, month)))
    ensures TotalPaid(payments) == TotalOwed(suppliers, month)
  {
    payments := [];
    for k := 0 to |suppliers|
      invariant |payments| == k
      invariant forall i :: 0 <= i < k ==>
        payments[i] == Payment(suppliers[i].id, suppliers[i].name, SumCosts(ForMonth(suppliers[i].requests, month)))
    {
      var supplier := suppliers[k];
      var totalPayment := 0;
      for j := 0 to |supplier.requests|
        invariant totalPayment == SumCosts(ForMonth(supplier.requests[..j], month))
      {
        var request := supplier.requests[j];
        assert supplier.requests[..j + 1] == supplier.requests[..j] + [request];
        MonthSumSnoc(supplier.requests[..j], request, month);
        if request.month == month {
          totalPayment := totalPayment + request.cost;
        }
      }
      assert supplier.requests[..|supplier.requests|] == supplier.requests;
      payments := payments + [Payment(supplier.id, supplier.name, totalPayment)];
    }
    PaidIsOwed(suppliers, payments, month);
  }

  /** The payments added up. */
  function TotalPaid(payments: seq<Payment>): int {
    if |payments| == 0 then 0
    else TotalPaid(payments[..|payments| - 1]) + payments[|payments| - 1].totalPayment
  }

  /** What all `suppliers` together are owed for `month`. */
  function TotalOwed(suppliers: seq<Supplier>, month: string): int {
    if |suppliers| == 0 then 0
    else TotalOwed(suppliers[..|suppliers| - 1], month)
         + SumCosts(ForMonth(suppliers[|suppliers| - 1].requests, month))
  }

  /** Every request of every supplier, supplier by supplier. */
  function AllRequests(suppliers: seq<Supplier>): seq<MonthRequest> {
    if |suppliers| == 0 then []
    else AllRequests(suppliers[..|suppliers| - 1]) + suppliers[|suppliers| - 1].requests
  }

  // ---------------------------------------------------------------------
  // The monthly report
  // ---------------------------------------------------------------------

  /**
   * `generateMonthlyReport(month)`: the month's requests as stored, and the
   * sum of their costs.
   */
  function GenerateMonthlyReport(store: seq<MonthRequest>, month: string): (r: MonthlyReport)
    ensures forall x :: multiset(r.requests)[x] == if x.month == month then multiset(store)[x] else 0
    ensures forall x :: x in r.requests <==> x in store && x.month == month
    ensures r.totalCost == SumCosts(r.requests)
    ensures (forall i :: 0 <= i < |store| ==> store[i].month != month) ==> r.requests == [] && r.totalCost == 0
  {
    var requests := ForMonth(store, month);
    ForMonthSelects(store, month);
    MonthlyReport(requests, SumCosts(requests))
  }

  /** The month's total over two parts of the store is the sum of the parts' totals. */
  lemma ReportIsAdditive(a: seq<MonthRequest>, b: seq<MonthRequest>, month: string)
    ensures GenerateMonthlyReport(a + b, month).totalCost
            == GenerateMonthlyReport(a, month).totalCost + GenerateMonthlyReport(b, month).totalCost
  {
    ForMonthAppend(a, b, month);
    SumCostsAppend(ForMonth(a, month), ForMonth(b, month));
  }

  /** Payments that each settle one supplier's month add up to what all the suppliers are owed. */
  lemma {:induction false} PaidIsOwed(suppliers: seq<Supplier>, payments: seq<Payment>, month: string)
    requires |payments| == |suppliers|
    requires forall i :: 0 <= i < |suppliers| ==>
      payments[i].totalPayment == SumCosts(ForMonth(suppliers[i].requests, month))
    ensures TotalPaid(payments) == TotalOwed(suppliers, month)
    decreases |suppliers|
  {
    if |suppliers| > 0 {
      PaidIsOwed(suppliers[..|suppliers| - 1], payments[..|payments| - 1], month);
    }
  }

  /**
   * What the suppliers are owed for a month adds up to the month's report
   * total over all their requests.
   */
  lemma {:induction false} PaymentsAddUpToReport(suppliers: seq<Supplier>, month: string)
    ensures TotalOwed(suppliers, month) == GenerateMonthlyReport(AllRequests(suppliers), month).totalCost
    decreases |suppliers|
  {
    if |suppliers| > 0 {
      var init := suppliers[..|suppliers| - 1];
      PaymentsAddUpToReport(init, month);
      ReportIsAdditive(AllRequests(init), suppliers[|suppliers| - 1].requests, month);
    }
  }

  // ---------------------------------------------------------------------
  // Counts
  // ---------------------------------------------------------------------

  /** The number of requests of `month` (the repository's month count). */
  function CountForMonth(rs: seq<MonthRequest>, month: string): (n: nat)
    ensures n == |ForMonth(rs, month)|
  {
    if |rs| == 0 then 0
    else CountForMonth(rs[..|rs| - 1], month) + (if rs[|rs| - 1].month == month then 1 else 0)
  }

  /** The number of requests of `month` in status `status` (the repository's filtered count). */
  function CountWithStatus(rs: seq<MonthRequest>, month: string, status: string): (n: nat)
    ensures n == |WithStatus(ForMonth(rs, month), status)|
    ensures n <= CountForMonth(rs, month)
    ensures n == 0 <==> forall i :: 0 <= i < |rs| ==> rs[i].month != month || rs[i].status != status
  {
    if |rs| == 0 then 0
    else
      var last := rs[|rs| - 1];
      WithStatusSnoc(ForMonth(rs[..|rs| - 1], month), last, status);
      assert ForMonth(rs[..|rs| - 1], month) + [] == ForMonth(rs[..|rs| - 1], month);
      CountWithStatus(rs[..|rs| - 1], month, status) + (if last.month == month && last.status == status then 1 else 0)
  }

  /** `getTotalRequests(month)`: the month's count, wrapped as `{totalRequests}`. */
  function GetTotalRequests(store: seq<MonthRequest>, month: string): (r: TotalRequests)
    ensures r.totalRequests == |GenerateMonthlyReport(store, month).requests|
  {
    TotalRequests(CountForMonth(store, month))
  }

  /** `getRejectedRequests(month)`: how many of the month's requests are rejected. */
  function GetRejectedRequests(store: seq<MonthRequest>, month: string): (n: nat)
    ensures n == |WithStatus(GenerateMonthlyReport(store, month).requests, RejectedStatus)|
    ensures n <= GetTotalRequests(store, month).totalRequests
    ensures n == 0 <==> forall i :: 0 <= i < |store| ==> store[i].month != month || store[i].status != RejectedStatus
  {
    CountWithStatus(store, month, RejectedStatus)
  }

  /** `getCompletedRequests(month)`: how many of the month's requests are done. */
  function GetCompletedRequests(store: seq<MonthRequest>, month: string): (n: nat)
    ensures n == |WithStatus(GenerateMonthlyReport(store, month).requests, DoneStatus)|
    ensures n <= GetTotalRequests(store, month).totalRequests
    ensures n == 0 <==> forall i :: 0 <= i < |store| ==> store[i].month != month || store[i].status != DoneStatus
  {
    CountWithStatus(store, month, DoneStatus)
  }

  /** No request counts both as rejected and as done: together they stay within the month's total. */
  lemma {:induction false} RejectedAndCompletedWithinTotal(store: seq<MonthRequest>, month: string)
    ensures GetRejectedRequests(store, month) + GetCompletedRequests(store, month)
            <= GetTotalRequests(store, month).totalRequests
    decreases |store|
  {
    if |store| > 0 {
      RejectedAndCompletedWithinTotal(store[..|store| - 1], month);
    }
  }

  /** The documented payments, derived from the contracts above. */
  method PaymentScenario() {
    var may := "2023-05";
    var s1 := Supplier(1, "Supplier1", [MonthRequest(may, "done", 100), MonthRequest(may, "done", 150)]);
    var s2 := Supplier(2, "Supplier2", [MonthRequest(may, "done", 200)]);
    var payments := CalculatePaymentsForSuppliers([s1, s2], may);
    assert s1.requests == [] + [s1.requests[0]] + [s1.requests[1]];
    MonthSumSnoc([], s1.requests[0], may);
    MonthSumSnoc([s1.requests[0]], s1.requests[1], may);
    assert s2.requests == [] + [s2.requests[0]];
    MonthSumSnoc([], s2.requests[0], may);
    assert payments == [Payment(1, "Supplier1", 250), Payment(2, "Supplier2", 200)];
  }

  /** The documented report total, derived from the contracts above. */
  method ReportScenario() {
    var may := "2023-05";

    var store := [MonthRequest(may, "done", 100), MonthRequest("2023-06", "rejected", 50), MonthRequest(may, "rejected", 200)];
    assert store == [] + [store[0]] + [store[1]] + [store[2]];
    MonthSumSnoc([], store[0], may);
    MonthSumSnoc([store[0]], store[1], may);
    MonthSumSnoc([store[0], store[1]], store[2], may);
    assert GenerateMonthlyReport(store, may).totalCost == 300;
  }
}

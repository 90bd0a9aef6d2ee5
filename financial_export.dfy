/** The monthly financial report of app/api/admin/export/financial/route.ts:
    succeeded payments and successful try-ons are bucketed by month, each
    month gets its revenue, provider cost and try-on count, and the months
    are listed newest first. Amounts are integer cents. */
module FinancialExport {
  import opened Base
  import opened Lists
  import opened Records

  datatype MonthData = MonthData(revenue: int, apiCost: int, tryOns: nat)

  /** A percentage as the exact fraction `num / den`. */
  datatype Percent = Percent(num: int, den: int)

  datatype Row = Row(month: string, revenue: int, apiCost: int, netProfit: int, margin: Percent)

  /** The payments query: `status: 'succeeded'`. */
  function SucceededPayments(payments: seq<Payment>): seq<Payment>
  {
    Filter(payments, (p: Payment) => p.status == "succeeded")
  }

  /** The try-ons query: `status: 'SUCCESS'`. */
  function SuccessfulTryOns(jobs: seq<TryOn>): seq<TryOn>
  {
    Filter(jobs, (t: TryOn) => t.status == SUCCESS)
  }

  /** `tryOn.aiCost || 0`. */
  function CostOf(t: TryOn): int
  {
    if t.aiCost.Some? then t.aiCost.value else 0
  }

  /** The revenue of month `m`: the sum of the amounts of its payments. */
  function Revenue(payments: seq<Payment>, m: string, monthKey: int -> string): (r: int)
    ensures (forall i :: 0 <= i < |payments| ==> payments[i].amount >= 0) ==> r >= 0
  {
    if payments == [] then 0
    else
      var p := payments[|payments| - 1];
      Revenue(payments[..|payments| - 1], m, monthKey) + (if monthKey(p.createdAt) == m then p.amount else 0)
  }

  /** The provider cost of month `m`. */
  function Cost(tryOns: seq<TryOn>, m: string, monthKey: int -> string): (c: int)
    ensures (forall i :: 0 <= i < |tryOns| ==> CostOf(tryOns[i]) >= 0) ==> c >= 0
  {
    if tryOns == [] then 0
    else
      var t := tryOns[|tryOns| - 1];
      Cost(tryOns[..|tryOns| - 1], m, monthKey) + (if monthKey(t.createdAt) == m then CostOf(t) else 0)
  }

  /** The number of try-ons of month `m`. */
  function Count(tryOns: seq<TryOn>, m: string, monthKey: int -> string): (n: nat)
    ensures n <= |tryOns|
  {
    if tryOns == [] then 0
    else
      var t := tryOns[|tryOns| - 1];
      Count(tryOns[..|tryOns| - 1], m, monthKey) + (if monthKey(t.createdAt) == m then 1 else 0)
  }

  function PaymentMonths(payments: seq<Payment>, monthKey: int -> string): set<string>
  {
    set i | 0 <= i < |payments| :: monthKey(payments[i].createdAt)
  }

  function TryOnMonths(tryOns: seq<TryOn>, monthKey: int -> string): set<string>
  {
    set i | 0 <= i < |tryOns| :: monthKey(tryOns[i].createdAt)
  }

  /** `order` lists each key of `keys` exactly once and nothing else. */
  ghost predicate ListsOnce(order: seq<string>, keys: set<string>)
  {
    forall m :: multiset(order)[m] == if m in keys then 1 else 0
  }

  /** Appending a new key keeps the listing exact. */
  lemma ListsOnceGrows(order: seq<string>, keys: set<string>, month: string)
    requires ListsOnce(order, keys) && month !in keys
    ensures ListsOnce(order + [month], keys + {month})
  {
    assert multiset(order + [month]) == multiset(order) + multiset{month};
  }

  lemma PaymentMonthsStep(payments: seq<Payment>, i: nat, monthKey: int -> string)
    requires i < |payments|
    ensures PaymentMonths(payments[..i + 1], monthKey) == PaymentMonths(payments[..i], monthKey) + {monthKey(payments[i].createdAt)}
  {
    var next := payments[..i + 1];
    assert next[..i] == payments[..i];
    forall m | m in PaymentMonths(next, monthKey) ensures m in PaymentMonths(payments[..i], monthKey) + {monthKey(payments[i].createdAt)} {
      var k :| 0 <= k < |next| && monthKey(next[k].createdAt) == m;
      if k < i { assert payments[..i][k] == next[k]; }
    }
    forall m | m in PaymentMonths(payments[..i], monthKey) ensures m in PaymentMonths(next, monthKey) {
      var k :| 0 <= k < i && monthKey(payments[..i][k].createdAt) == m;
      assert next[k] == payments[..i][k];
    }
    assert monthKey(next[i].createdAt) in PaymentMonths(next, monthKey);
  }

  lemma TryOnMonthsStep(tryOns: seq<TryOn>, i: nat, monthKey: int -> string)
    requires i < |tryOns|
    ensures TryOnMonths(tryOns[..i + 1], monthKey) == TryOnMonths(tryOns[..i], monthKey) + {monthKey(tryOns[i].createdAt)}
  {
    var next := tryOns[..i + 1];
    assert next[..i] == tryOns[..i];
    forall m | m in TryOnMonths(next, monthKey) ensures m in TryOnMonths(tryOns[..i], monthKey) + {monthKey(tryOns[i].createdAt)} {
      var k :| 0 <= k < |next| && monthKey(next[k].createdAt) == m;
      if k < i { assert tryOns[..i][k] == next[k]; }
    }
    forall m | m in TryOnMonths(tryOns[..i], monthKey) ensures m in TryOnMonths(next, monthKey) {
      var k :| 0 <= k < i && monthKey(tryOns[..i][k].createdAt) == m;
      assert next[k] == tryOns[..i][k];
    }
    assert monthKey(next[i].createdAt) in TryOnMonths(next, monthKey);
  }

  /** A month without payments has no revenue. */
  lemma {:induction false} NoPaymentsNoRevenue(payments: seq<Payment>, m: string, monthKey: int -> string)
    requires m !in PaymentMonths(payments, monthKey)
    ensures Revenue(payments, m, monthKey) == 0
    decreases |payments|
  {
    if payments != [] {
      var init := payments[..|payments| - 1];
      assert PaymentMonths(init, monthKey) <= PaymentMonths(payments, monthKey) by {
        forall x | x in PaymentMonths(init, monthKey) ensures x in PaymentMonths(payments, monthKey) {
          var k :| 0 <= k < |init| && monthKey(init[k].createdAt) == x;
          assert payments[k] == init[k];
        }
      }
      NoPaymentsNoRevenue(init, m, monthKey);
      assert monthKey(payments[|payments| - 1].createdAt) in PaymentMonths(payments, monthKey);
    }
  }

  /** `monthly` holds the revenue of every month of `payments`, with no
      cost or count yet, and `order` lists its months once each. */
  ghost predicate PaymentTotals(payments: seq<Payment>, monthKey: int -> string,
                                monthly: map<string, MonthData>, order: seq<string>)
  {
    && monthly.Keys == PaymentMonths(payments, monthKey)
    && (forall m :: m in monthly ==> monthly[m] == MonthData(Revenue(payments, m, monthKey), 0, 0))
    && ListsOnce(order, monthly.Keys)
  }

  /** Adding payment `i` to its month (created at zero if new) keeps the totals. */
  lemma PaymentTotalsStep(payments: seq<Payment>, i: nat, monthKey: int -> string,
                          monthly: map<string, MonthData>, order: seq<string>)
    requires i < |payments| && PaymentTotals(payments[..i], monthKey, monthly, order)
    ensures var month := monthKey(payments[i].createdAt);
      var created := if month in monthly then monthly else monthly[month := MonthData(0, 0, 0)];
      PaymentTotals(payments[..i + 1], monthKey,
                    created[month := created[month].(revenue := created[month].revenue + payments[i].amount)],
                    if month in monthly then order else order + [month])
  {
    var month := monthKey(payments[i].createdAt);
    PaymentMonthsStep(payments, i, monthKey);
    assert payments[..i + 1][..i] == payments[..i];
    if month !in monthly {
      NoPaymentsNoRevenue(payments[..i], month, monthKey);
      ListsOnceGrows(order, monthly.Keys, month);
    }
  }

  /** The first `forEach`: every payment adds its amount to its month,
      creating the month on first sight. */
  method AddPayments(payments: seq<Payment>, monthKey: int -> string)
    returns (monthly: map<string, MonthData>, order: seq<string>)
    ensures PaymentTotals(payments, monthKey, monthly, order)
  {
    monthly := map[];
    order := [];
    var i := 0;
    while i < |payments|
      invariant i <= |payments|
      invariant PaymentTotals(payments[..i], monthKey, monthly, order)
    {
      var payment := payments[i];
      var month := monthKey(payment.createdAt);
      PaymentTotalsStep(payments, i, monthKey, monthly, order);
      if month !in monthly {
        monthly := monthly[month := MonthData(0, 0, 0)];
        order := order + [month];
      }
      monthly := monthly[month := monthly[month].(revenue := monthly[month].revenue + payment.amount)];
      i := i + 1;
    }
    assert payments[..i] == payments;
  }

  /** The totals of a month after one more try-on. */
  lemma TryOnStep(tryOns: seq<TryOn>, j: nat, m: string, monthKey: int -> string)
    requires j < |tryOns|
    ensures var hit := monthKey(tryOns[j].createdAt) == m;
      && Cost(tryOns[..j + 1], m, monthKey) == Cost(tryOns[..j], m, monthKey) + (if hit then CostOf(tryOns[j]) else 0)
      && Count(tryOns[..j + 1], m, monthKey) == Count(tryOns[..j], m, monthKey) + (if hit then 1 else 0)
  {
    assert tryOns[..j + 1][..j] == tryOns[..j];
  }

  /** `monthly` holds the totals of `payments` and `tryOns`: one entry per
      month of either, with its revenue, cost and count. */
  ghost predicate TryOnTotals(payments: seq<Payment>, tryOns: seq<TryOn>, monthKey: int -> string,
                              monthly: map<string, MonthData>)
  {
    && monthly.Keys == PaymentMonths(payments, monthKey) + TryOnMonths(tryOns, monthKey)
    && forall m :: m in monthly ==>
      monthly[m] == MonthData(Revenue(payments, m, monthKey), Cost(tryOns, m, monthKey), Count(tryOns, m, monthKey))
  }

  /** Adding try-on `j` to its month (created at zero if new) keeps the totals. */
  lemma TryOnTotalsStep(payments: seq<Payment>, tryOns: seq<TryOn>, j: nat, monthKey: int -> string,
                        monthly: map<string, MonthData>)
    requires j < |tryOns| && TryOnTotals(payments, tryOns[..j], monthKey, monthly)
    ensures var month := monthKey(tryOns[j].createdAt);
      var created := if month in monthly then monthly else monthly[month := MonthData(0, 0, 0)];
      var next := created[month := created[month].(apiCost := created[month].apiCost + CostOf(tryOns[j]),
                                                   tryOns := created[month].tryOns + 1)];
      TryOnTotals(payments, tryOns[..j + 1], monthKey, next)
  {
    var month := monthKey(tryOns[j].createdAt);
    var created := if month in monthly then monthly else monthly[month := MonthData(0, 0, 0)];
    var next := created[month := created[month].(apiCost := created[month].apiCost + CostOf(tryOns[j]),
                                                 tryOns := created[month].tryOns + 1)];
    TryOnMonthsStep(tryOns, j, monthKey);
    if month !in monthly {
      NoTryOnsNoCost(tryOns[..j], month, monthKey);
      NoPaymentsNoRevenue(payments, month, monthKey);
    }
    assert next.Keys == monthly.Keys + {month};
    forall m | m in next
      ensures next[m] == MonthData(Revenue(payments, m, monthKey), Cost(tryOns[..j + 1], m, monthKey), Count(tryOns[..j + 1], m, monthKey))
    {
      TryOnStep(tryOns, j, m, monthKey);
    }
  }

  /** The second `forEach`: every try-on adds its cost and one to the count
      of its month, creating the month on first sight. */
  method AddTryOns(payments: seq<Payment>, tryOns: seq<TryOn>, monthKey: int -> string,
                   monthly0: map<string, MonthData>, order0: seq<string>)
    returns (monthly: map<string, MonthData>, order: seq<string>)
    requires PaymentTotals(payments, monthKey, monthly0, order0)
    ensures TryOnTotals(payments, tryOns, monthKey, monthly) && ListsOnce(order, monthly.Keys)
  {
    monthly, order := monthly0, order0;
    assert tryOns[..0] == [];
    assert TryOnMonths([], monthKey) == {};
    var j := 0;
    while j < |tryOns|
      invariant j <= |tryOns|
      invariant TryOnTotals(payments, tryOns[..j], monthKey, monthly) && ListsOnce(order, monthly.Keys)
    {
      var tryOn := tryOns[j];
      var month := monthKey(tryOn.createdAt);
      TryOnTotalsStep(payments, tryOns, j, monthKey, monthly);
      if month !in monthly {
        ListsOnceGrows(order, monthly.Keys, month);
        monthly := monthly[month := MonthData(0, 0, 0)];
        order := order + [month];
      }
      var cost := if tryOn.aiCost.Some? then tryOn.aiCost.value else 0;
      monthly := monthly[month := monthly[month].(apiCost := monthly[month].apiCost + cost,
                                                  tryOns := monthly[month].tryOns + 1)];
      j := j + 1;
    }
    assert tryOns[..j] == tryOns;
  }

  /** `monthlyData`, filled by the two `forEach` loops; `order` is the order
      in which its keys were created, which `Object.entries` follows. */
  method MonthlyTotals(payments: seq<Payment>, tryOns: seq<TryOn>, monthKey: int -> string)
    returns (monthly: map<string, MonthData>, order: seq<string>)
    ensures monthly.Keys == PaymentMonths(payments, monthKey) + TryOnMonths(tryOns, monthKey)
    ensures forall m :: m in monthly ==>
      monthly[m] == MonthData(Revenue(payments, m, monthKey), Cost(tryOns, m, monthKey), Count(tryOns, m, monthKey))
    ensures ListsOnce(order, monthly.Keys)
  {
    monthly, order := AddPayments(payments, monthKey);
    monthly, order := AddTryOns(payments, tryOns, monthKey, monthly, order);
  }

  /** A month without try-ons has no cost and no count. */
  lemma {:induction false} NoTryOnsNoCost(tryOns: seq<TryOn>, m: string, monthKey: int -> string)
    requires m !in TryOnMonths(tryOns, monthKey)
    ensures Cost(tryOns, m, monthKey) == 0 && Count(tryOns, m, monthKey) == 0
    decreases |tryOns|
  {
    if tryOns != [] {
      var init := tryOns[..|tryOns| - 1];
      assert TryOnMonths(init, monthKey) <= TryOnMonths(tryOns, monthKey) by {
        forall x | x in TryOnMonths(init, monthKey) ensures x in TryOnMonths(tryOns, monthKey) {
          var k :| 0 <= k < |init| && monthKey(init[k].createdAt) == x;
          assert tryOns[k] == init[k];
        }
      }
      NoTryOnsNoCost(init, m, monthKey);
      assert monthKey(tryOns[|tryOns| - 1].createdAt) in TryOnMonths(tryOns, monthKey);
    }
  }

  /** The count of a month is the number of its try-ons. */
  lemma {:induction false} CountIsFilterLength(tryOns: seq<TryOn>, m: string, monthKey: int -> string)
    ensures Count(tryOns, m, monthKey) == |Filter(tryOns, (t: TryOn) => monthKey(t.createdAt) == m)|
    decreases |tryOns|
  {
    if tryOns != [] {
      var init := tryOns[..|tryOns| - 1];
      var last := tryOns[|tryOns| - 1];
      CountIsFilterLength(init, m, monthKey);
      FilterAppend(init, [last], (t: TryOn) => monthKey(t.createdAt) == m);
      assert init + [last] == tryOns;
    }
  }

  lemma {:induction false} FilterAppend<T>(a: seq<T>, b: seq<T>, p: T -> bool)
    ensures Filter(a + b, p) == Filter(a, p) + Filter(b, p)
    decreases |a|
  {
    if a != [] {
      FilterAppend(a[1..], b, p);
      assert (a + b)[1..] == a[1..] + b;
    } else {
      assert a + b == b;
    }
  }

  /** Code-point order on month keys (the same as `localeCompare` for `yyyy-MM` keys). */
  predicate Before(a: string, b: string)
  {
    if a == [] then b != []
    else b != [] && (a[0] < b[0] || (a[0] == b[0] && Before(a[1..], b[1..])))
  }

  lemma {:induction false} BeforeAsymmetric(a: string, b: string)
    ensures Before(a, b) ==> !Before(b, a)
    decreases |a|
  {
    if a != [] && b != [] && a[0] == b[0] {
      BeforeAsymmetric(a[1..], b[1..]);
    }
  }

  /** Inserting into a list sorted newest first. */
  function Insert(x: string, s: seq<string>): (r: seq<string>)
    ensures multiset(r) == multiset(s) + multiset{x}
    ensures |r| > 0 && (r[0] == x || (s != [] && r[0] == s[0]))
  {
    if s == [] || !Before(x, s[0]) then [x] + s
    else
      assert s == [s[0]] + s[1..];
      [s[0]] + Insert(x, s[1..])
  }

  /** `.sort(([a], [b]) => b.localeCompare(a))` on the month keys. */
  function SortDescending(s: seq<string>): (r: seq<string>)
    ensures multiset(r) == multiset(s)
  {
    if s == [] then []
    else
      assert s == [s[0]] + s[1..];
      Insert(s[0], SortDescending(s[1..]))
  }

  predicate Descending(s: seq<string>)
  {
    forall i :: 0 <= i < |s| - 1 ==> !Before(s[i], s[i + 1])
  }

  lemma {:induction false} InsertKeepsDescending(x: string, s: seq<string>)
    requires Descending(s)
    ensures Descending(Insert(x, s))
    decreases |s|
  {
    if s != [] && Before(x, s[0]) {
      InsertKeepsDescending(x, s[1..]);
      BeforeAsymmetric(x, s[0]);
      var r := Insert(x, s[1..]);
      assert r[0] == x || (|s| > 1 && r[0] == s[1]);
    }
  }

  lemma {:induction false} SortIsDescending(s: seq<string>)
    ensures Descending(SortDescending(s))
    decreases |s|
  {
    if s != [] {
      SortIsDescending(s[1..]);
      InsertKeepsDescending(s[0], SortDescending(s[1..]));
    }
  }

  /** A row of the report; the margin guard gives 0 for a month without revenue. */
  function RowOf(month: string, d: MonthData): (r: Row)
    ensures r.netProfit == r.revenue - r.apiCost
    ensures d.revenue > 0 ==> r.margin == Percent(r.netProfit * 100, r.revenue)
    ensures d.revenue <= 0 ==> r.margin == Percent(0, 1)
  {
    var net := d.revenue - d.apiCost;
    Row(month, d.revenue, d.apiCost, net, if d.revenue > 0 then Percent(net * 100, d.revenue) else Percent(0, 1))
  }

  /** The month column of the report. */
  function Months(rows: seq<Row>): (months: seq<string>)
    ensures |months| == |rows| && forall i :: 0 <= i < |rows| ==> months[i] == rows[i].month
  {
    seq(|rows|, i requires 0 <= i < |rows| => rows[i].month)
  }

  /** `.map(([month, data]) => ...)` over the sorted keys. */
  function RowsFor(months: seq<string>, monthly: map<string, MonthData>): (rows: seq<Row>)
    requires forall i :: 0 <= i < |months| ==> months[i] in monthly
    ensures |rows| == |months|
    ensures forall i :: 0 <= i < |months| ==> rows[i] == RowOf(months[i], monthly[months[i]])
    ensures Months(rows) == months
  {
    seq(|months|, i requires 0 <= i < |months| => RowOf(months[i], monthly[months[i]]))
  }

  /** Sorting the distinct keys lists each month of the table once. */
  lemma SortedKeysOnce(order: seq<string>, keys: set<string>)
    requires ListsOnce(order, keys)
    ensures forall m :: multiset(SortDescending(order))[m] == if m in keys then 1 else 0
    ensures forall i :: 0 <= i < |SortDescending(order)| ==> SortDescending(order)[i] in keys
  {
    var sorted := SortDescending(order);
    forall i | 0 <= i < |sorted| ensures sorted[i] in keys {
      assert sorted[i] in multiset(sorted);
    }
  }

  /** The report rows over all stored payments and try-on rows: each month
      with a succeeded payment or a successful try-on exactly once, newest
      first, with its own totals. */
  method Report(payments: seq<Payment>, jobs: seq<TryOn>, monthKey: int -> string) returns (rows: seq<Row>)
    ensures forall m :: (multiset(Months(rows))[m] ==
      if m in PaymentMonths(SucceededPayments(payments), monthKey) + TryOnMonths(SuccessfulTryOns(jobs), monthKey) then 1 else 0)
    ensures Descending(Months(rows))
    ensures forall i :: 0 <= i < |rows| ==>
      rows[i] == RowOf(rows[i].month, MonthData(Revenue(SucceededPayments(payments), rows[i].month, monthKey),
                                                Cost(SuccessfulTryOns(jobs), rows[i].month, monthKey),
                                                Count(SuccessfulTryOns(jobs), rows[i].month, monthKey)))
  {
    var monthly, order := MonthlyTotals(SucceededPayments(payments), SuccessfulTryOns(jobs), monthKey);
    var sorted := SortDescending(order);
    SortIsDescending(order);
    SortedKeysOnce(order, monthly.Keys);
    rows := RowsFor(sorted, monthly);
  }
}

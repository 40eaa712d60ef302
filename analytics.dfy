/**
 * Bill analytics: for every bill template, the year's bill entries that
 * belong to it, what was paid so far, what is planned, and whether the
 * template's current amount drifted away from the average payment by more
 * than one cent. Amounts are exact reals, so the order in which the source
 * adds up `Object.values(...)` does not matter.
 */
module Analytics {
  import opened Wrappers
  import opened Text
  import opened BudgetTypes
  import Generator
  import Calculations

  /** The drift threshold: a change of one cent or less is not a change. */
  const Threshold: real := 0.01

  datatype ChangeType = Increase | Decrease | NoChange

  /** One row of `calculateBillAnalytics`. */
  datatype BillAnalytics = BillAnalytics(
    templateId: string,
    templateName: string,
    ytdPaid: real,
    ytdPlanned: real,
    paidCount: nat,
    plannedCount: nat,
    currentAmount: real,
    averagePaidAmount: real,
    hasChange: bool,
    changeType: ChangeType,
    changeAmount: real,
    changePercentage: real)

  function Abs(x: real): real {
    if x < 0.0 then -x else x
  }

  /**
   * The sum of the values of an amounts map. The keys are taken in an
   * arbitrary order; `SumValuesRemove` shows the order does not matter.
   */
  ghost function SumValues(m: Amounts): real
    decreases |m|
  {
    if m == map[] then 0.0
    else
      var k :| k in m;
      assert |m - {k}| < |m| by { RemoveSmaller(m, k); }
      m[k] + SumValues(m - {k})
  }

  lemma RemoveSmaller(m: Amounts, k: string)
    requires k in m
    ensures |m - {k}| == |m| - 1
  {
    assert (m - {k}).Keys == m.Keys - {k};
  }

  /** Any key can be taken first: the sum is that value plus the sum of the rest. */
  lemma {:induction false} SumValuesRemove(m: Amounts, k: string)
    requires k in m
    ensures SumValues(m) == m[k] + SumValues(m - {k})
    decreases |m|
  {
    var j :| j in m && SumValues(m) == m[j] + SumValues(m - {j});
    if j != k {
      RemoveSmaller(m, j);
      RemoveSmaller(m, k);
      SumValuesRemove(m - {j}, k);
      SumValuesRemove(m - {k}, j);
      assert m - {j} - {k} == m - {k} - {j};
    }
  }

  /** A map with one key sums to that key's value. */
  lemma SumValuesSingle(k: string, v: real)
    ensures SumValues(map[k := v]) == v
  {
    SumValuesRemove(map[k := v], k);
    assert map[k := v] - {k} == map[];
  }

  /** The year as the source writes it into the three patterns. */
  function YearFull(year: int): string {
    IntToString(year)
  }

  /** `'YY`, ` YY` or `YYYY` occurs in the label. */
  predicate YearMatches(month: string, year: int) {
    var yy := LastTwo(IntToString(year));
    Contains(month, "'" + yy) || Contains(month, " " + yy) || Contains(month, YearFull(year))
  }

  /** `!e.templateId`: absent or the empty string. */
  predicate HasTemplateId(e: Entry) {
    Truthy(e.templateId)
  }

  /** The filter of `calculateBillAnalytics` for template `t`. */
  predicate Matches(t: Template, e: Entry, year: int) {
    e.IsBill() && YearMatches(e.month, year)
    && (e.templateId == Some(t.id) || (e.name == t.name && !HasTemplateId(e)))
  }

  /** The entries of the year that belong to `t`, in ledger order. */
  function Matched(t: Template, entries: seq<Entry>, year: int): (r: seq<Entry>)
    ensures |r| <= |entries|
    ensures forall e :: e in r <==> e in entries && Matches(t, e, year)
  {
    if entries == [] then []
    else
      var rest := Matched(t, entries[1..], year);
      assert forall e :: e in entries <==> e == entries[0] || e in entries[1..];
      if Matches(t, entries[0], year) then [entries[0]] + rest else rest
  }

  /** The paid ones among `s`, in order. */
  function PaidOf(s: seq<Entry>): (r: seq<Entry>)
    ensures |r| <= |s|
    ensures forall e :: e in r <==> e in s && e.IsPaid()
  {
    if s == [] then []
    else
      var rest := PaidOf(s[1..]);
      assert forall e :: e in s <==> e == s[0] || e in s[1..];
      if s[0].IsPaid() then [s[0]] + rest else rest
  }

  /** The sum of a bill's amounts (a payday counts nothing). */
  ghost function EntryTotal(e: Entry): real {
    if e.kind.Bill? then SumValues(e.kind.amounts) else 0.0
  }

  /** The sum of the entries' totals. */
  ghost function TotalOf(s: seq<Entry>): real {
    if s == [] then 0.0 else EntryTotal(s[0]) + TotalOf(s[1..])
  }

  /** The planned amount of the template: the sum of its amounts. */
  ghost function CurrentAmount(t: Template): real {
    SumValues(TemplateAmounts(t))
  }

  /** The average payment, 0 when nothing was paid. */
  function Average(paid: real, count: nat): (r: real)
    ensures count > 0 ==> r * (count as real) == paid
    ensures count == 0 ==> r == 0.0
  {
    if count > 0 then paid / (count as real) else 0.0
  }

  /** `diff / average * 100`: the change as a percentage of the average. */
  function Percentage(diff: real, average: real): (p: real)
    requires average != 0.0
    ensures p * average == diff * 100.0
  {
    var q := diff / average;
    assert q * average == diff;
    assert (q * 100.0) * average == (q * average) * 100.0;
    q * 100.0
  }

  /** The drift fields of a row: whether it changed, which way, by how much, and in percent. */
  datatype Drift = Drift(hasChange: bool, changeType: ChangeType, changeAmount: real, changePercentage: real)

  /**
   * The drift between the current amount and the average payment: reported
   * only when something was paid, the average is positive and the two differ
   * by more than the threshold.
   */
  function DriftOf(paidCount: nat, current: real, average: real): (d: Drift)
    ensures d.hasChange <==> paidCount > 0 && average > 0.0 && Abs(current - average) > Threshold
    ensures d.hasChange ==>
      d.changeAmount == current - average
      && (d.changeType == Increase <==> current > average) && d.changeType != NoChange
      && d.changePercentage * average == d.changeAmount * 100.0
    ensures !d.hasChange ==> d.changeType == NoChange && d.changeAmount == 0.0 && d.changePercentage == 0.0
  {
    var diff := current - average;
    if paidCount > 0 && average > 0.0 && Abs(diff) > Threshold then
      Drift(true, if diff > 0.0 then Increase else Decrease, diff, Percentage(diff, average))
    else
      Drift(false, NoChange, 0.0, 0.0)
  }

  /** The analytics row of one bill template. */
  ghost function Row(t: Template, entries: seq<Entry>, year: int): (r: BillAnalytics)
    requires t.IsBillTemplate()
    ensures r.templateId == t.id && r.templateName == t.name
    ensures r.plannedCount == |Matched(t, entries, year)|
    ensures r.paidCount == |PaidOf(Matched(t, entries, year))| && r.paidCount <= r.plannedCount
    ensures r.ytdPaid == TotalOf(PaidOf(Matched(t, entries, year))) && r.currentAmount == CurrentAmount(t)
    ensures r.ytdPlanned == Calculations.Repeat(r.plannedCount, r.currentAmount)
    ensures r.averagePaidAmount == Average(r.ytdPaid, r.paidCount)
    ensures Drift(r.hasChange, r.changeType, r.changeAmount, r.changePercentage)
      == DriftOf(r.paidCount, r.currentAmount, r.averagePaidAmount)
  {
    var matched := Matched(t, entries, year);
    var paid := PaidOf(matched);
    var ytdPaid := TotalOf(paid);
    var current := CurrentAmount(t);
    var average := Average(ytdPaid, |paid|);
    var d := DriftOf(|paid|, current, average);
    BillAnalytics(
      t.id, t.name, ytdPaid, Calculations.Repeat(|matched|, current), |paid|, |matched|, current, average,
      d.hasChange, d.changeType, d.changeAmount, d.changePercentage)
  }

  /**
   * The planned total of a row, the current amount once per planned payment,
   * is the planned count times the current amount.
   */
  lemma PlannedIsProduct(r: BillAnalytics)
    requires r.ytdPlanned == Calculations.Repeat(r.plannedCount, r.currentAmount)
    ensures r.ytdPlanned == r.plannedCount as real * r.currentAmount
  {
    Calculations.RepeatIsProduct(r.plannedCount, r.currentAmount);
  }

  /** `calculateBillAnalytics(templates, entries, year)`: one row per template, in template order. */
  ghost function Rows(templates: seq<Template>, entries: seq<Entry>, year: int): (r: seq<BillAnalytics>)
    requires forall t :: t in templates ==> t.IsBillTemplate()
    ensures |r| == |templates|
    ensures forall i :: 0 <= i < |r| ==> r[i] == Row(templates[i], entries, year)
    ensures forall i :: 0 <= i < |r| ==>
      r[i].templateId == templates[i].id && r[i].templateName == templates[i].name
      && r[i].plannedCount == |Matched(templates[i], entries, year)|
  {
    if templates == [] then []
    else [Row(templates[0], entries, year)] + Rows(templates[1..], entries, year)
  }

  /** `Repeat` can also be unrolled from the front. */
  lemma {:induction false} RepeatFront(k: nat, c: real)
    ensures Calculations.Repeat(k + 1, c) == c + Calculations.Repeat(k, c)
  {
    if k > 0 {
      RepeatFront(k - 1, c);
    }
  }

  /** The totals of entries that all come to `c` add up to `c` once per entry. */
  lemma {:induction false} TotalOfConstant(s: seq<Entry>, c: real)
    requires forall e :: e in s ==> EntryTotal(e) == c
    ensures TotalOf(s) == Calculations.Repeat(|s|, c)
  {
    if s != [] {
      TotalOfConstant(s[1..], c);
      RepeatFront(|s| - 1, c);
    }
  }

  lemma MulCancel(x: real, y: real, n: real)
    requires n > 0.0 && x * n == n * y
    ensures x == y
  {
    assert (x - y) * n == 0.0;
  }

  /**
   * When every payment of the year equals the template's current amount,
   * no drift is reported.
   */
  lemma SteadyPaymentsNoChange(t: Template, entries: seq<Entry>, year: int)
    requires t.IsBillTemplate()
    requires forall e :: e in entries && Matches(t, e, year) && e.IsPaid() ==> EntryTotal(e) == CurrentAmount(t)
    ensures !Row(t, entries, year).hasChange
  {
    var paid := PaidOf(Matched(t, entries, year));
    var c := CurrentAmount(t);
    TotalOfConstant(paid, c);
    if |paid| > 0 {
      AverageOfRepeat(|paid|, c);
    }
  }

  /** Paying `c` each time, `n > 0` times, averages to `c`. */
  lemma AverageOfRepeat(n: nat, c: real)
    requires n > 0
    ensures Average(Calculations.Repeat(n, c), n) == c
  {
    Calculations.RepeatIsProduct(n, c);
    MulCancel(Average(Calculations.Repeat(n, c), n), c, n as real);
  }

  /** All of `s` is paid: selecting the paid ones keeps everything. */
  lemma {:induction false} PaidOfAllPaid(s: seq<Entry>)
    requires forall e :: e in s ==> e.IsPaid()
    ensures PaidOf(s) == s
  {
    if s != [] {
      PaidOfAllPaid(s[1..]);
    }
  }

  /**
   * When every planned entry of the year is paid at the template's current
   * amount, what was paid so far is exactly what was planned.
   */
  lemma PaidInFullMeetsPlan(t: Template, entries: seq<Entry>, year: int)
    requires t.IsBillTemplate()
    requires forall e :: e in entries && Matches(t, e, year) ==> e.IsPaid() && EntryTotal(e) == CurrentAmount(t)
    ensures Row(t, entries, year).ytdPaid == Row(t, entries, year).ytdPlanned
  {
    var matched := Matched(t, entries, year);
    PaidOfAllPaid(matched);
    TotalOfConstant(matched, CurrentAmount(t));
  }

  /**
   * Every bill the generator emits for template `t` in `year` is counted in
   * that template's row for the same year.
   */
  lemma GeneratedBillMatched(t: Template, year: int, s: Generator.Slot, id: string)
    requires t.IsBillTemplate()
    ensures Matches(t, Generator.CreateEntry(t, Generator.YearSuffix(year), s, id), year)
  {
    var e := Generator.CreateEntry(t, Generator.YearSuffix(year), s, id);
    var pat := "'" + LastTwo(IntToString(year));
    assert e.month == s.month + " " + pat;
    assert SliceAt(e.month, pat, |s.month| + 1);
  }

  /** `getChangedBills`: the rows with a change, in order. */
  function ChangedBills(rows: seq<BillAnalytics>): (r: seq<BillAnalytics>)
    ensures |r| <= |rows|
    ensures forall x :: x in r <==> x in rows && x.hasChange
  {
    if rows == [] then []
    else
      var rest := ChangedBills(rows[1..]);
      assert forall x :: x in rows <==> x == rows[0] || x in rows[1..];
      if rows[0].hasChange then [rows[0]] + rest else rest
  }

  /** Selecting the changed rows distributes over concatenation, so their order is kept. */
  lemma {:induction false} ChangedBillsAppend(a: seq<BillAnalytics>, b: seq<BillAnalytics>)
    ensures ChangedBills(a + b) == ChangedBills(a) + ChangedBills(b)
  {
    if a == [] {
      assert a + b == b;
    } else {
      assert (a + b)[1..] == a[1..] + b;
      ChangedBillsAppend(a[1..], b);
    }
  }

  /** With no change anywhere the selection is empty; with a change everywhere it is everything. */
  lemma {:induction false} ChangedBillsExtremes(rows: seq<BillAnalytics>)
    ensures (forall x :: x in rows ==> !x.hasChange) ==> ChangedBills(rows) == []
    ensures (forall x :: x in rows ==> x.hasChange) ==> ChangedBills(rows) == rows
  {
    if rows != [] {
      ChangedBillsExtremes(rows[1..]);
    }
  }
}

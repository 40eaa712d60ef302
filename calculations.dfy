/**
 * The period projection the dashboard shows (`useCalculations`): the entries
 * are sorted by month label, day and kind; every payday opens a period that
 * holds the bills sorted after it; each period's payday records what its
 * bills owe per account and what remains unpaid, and its bills carry the
 * same remaining balances. Bills sorted before the first payday are
 * "orphans" and come first, untouched.
 */
module Calculations {
  import opened Wrappers
  import opened Text
  import opened Calendar
  import opened BudgetTypes

  // ---------------------------------------------------------------------
  // The sort key

  /**
   * The year of a month label: the text after its first apostrophe read by
   * `parseInt`, 26 when the label has no apostrophe. `None` is `NaN`.
   */
  function LabelYear(month: string): Option<int> {
    match Text.Field(month, "'", 1)
    case None => Some(26)
    case Some(part) => ParseInt(part)
  }

  /** The month of a label: its first word looked up among the month names, 0 when it is none of them. */
  function LabelMonth(month: string): (r: nat)
    ensures r < 12
  {
    MonthIndex(Text.Field(month, " ", 0).value).GetOr(0)
  }

  /** Paydays sort before bills of the same day. */
  function TypeRank(e: Entry): int {
    if e.IsPayday() then 0 else 1
  }

  /**
   * The comparator: by year, then month, then day of month, then kind; the
   * sign is what matters. A year that is `NaN` makes the difference `NaN`,
   * which the sort reads as 0, so such an entry ties with every other one.
   */
  function Compare(a: Entry, b: Entry): int {
    var ya := LabelYear(a.month);
    var yb := LabelYear(b.month);
    if ya.None? || yb.None? then 0
    else if ya.value != yb.value then ya.value - yb.value
    else if LabelMonth(a.month) != LabelMonth(b.month) then LabelMonth(a.month) - LabelMonth(b.month)
    else if a.date != b.date then a.date - b.date
    else TypeRank(a) - TypeRank(b)
  }

  /** The position of an entry on the timeline, when its year is a number. */
  datatype SortKey = SortKey(year: int, month: int, date: int, rank: int)

  function KeyOf(e: Entry): Option<SortKey> {
    match LabelYear(e.month)
    case None => None
    case Some(y) => Some(SortKey(y, LabelMonth(e.month), e.date, TypeRank(e)))
  }

  /** Lexicographic order on keys. */
  predicate KeyBefore(x: SortKey, y: SortKey) {
    x.year < y.year
    || (x.year == y.year && x.month < y.month)
    || (x.year == y.year && x.month == y.month && x.date < y.date)
    || (x.year == y.year && x.month == y.month && x.date == y.date && x.rank < y.rank)
  }

  /** The comparator orders entries exactly as their keys, and ties everything with an entry whose year is `NaN`. */
  lemma CompareByKey(a: Entry, b: Entry)
    ensures KeyOf(a).None? || KeyOf(b).None? ==> Compare(a, b) == 0
    ensures KeyOf(a).Some? && KeyOf(b).Some? ==>
      (Compare(a, b) < 0 <==> KeyBefore(KeyOf(a).value, KeyOf(b).value))
      && (Compare(a, b) == 0 <==> KeyOf(a) == KeyOf(b))
  {
  }

  /** Swapping the arguments negates the answer. */
  lemma CompareAntisymmetric(a: Entry, b: Entry)
    ensures Compare(a, b) == -Compare(b, a)
  {
  }

  /** Among entries whose years are numbers, "not after" is transitive. */
  lemma CompareTransitive(a: Entry, b: Entry, c: Entry)
    requires KeyOf(a).Some? && KeyOf(b).Some? && KeyOf(c).Some?
    requires Compare(a, b) <= 0 && Compare(b, c) <= 0
    ensures Compare(a, c) <= 0
  {
    CompareByKey(a, b);
    CompareByKey(b, c);
    CompareByKey(a, c);
  }

  /** A label the generator writes, month name, space, apostrophe and digits, sorts as that month of that year. */
  lemma LabelKeyOfGeneratedLabel(m: nat, n: nat)
    requires m < 12
    ensures LabelYear(MonthNames[m] + " '" + NatToString(n)) == Some(n)
    ensures LabelMonth(MonthNames[m] + " '" + NatToString(n)) == m
  {
    MonthNameHasNoSeparator(m);
    NatToStringHasNoSeparator(n);
    Text.LabelFields(MonthNames[m], NatToString(n));
    ParseIntOfNatToString(n);
    MonthIndexOfName(m);
  }

  // ---------------------------------------------------------------------
  // Sorting

  /** A comparator: negative when the first entry sorts first, zero for a tie. */
  type Comparator = (Entry, Entry) -> int

  /** Swapping the arguments negates the answer, as it does for `Compare`. */
  ghost predicate Antisymmetric(cmp: Comparator) {
    forall a: Entry, b: Entry :: cmp(a, b) == -cmp(b, a)
  }

  /** "Not after" is transitive among the entries of `s`. */
  predicate TransitiveOn(cmp: Comparator, s: seq<Entry>) {
    forall i, j, k ::
      (0 <= i < |s| && 0 <= j < |s| && 0 <= k < |s| && cmp(s[i], s[j]) <= 0 && cmp(s[j], s[k]) <= 0)
      ==> cmp(s[i], s[k]) <= 0
  }

  /** Each entry is not after its successor. */
  predicate AdjacentSorted(cmp: Comparator, s: seq<Entry>) {
    forall i :: 0 < i < |s| ==> cmp(s[i - 1], s[i]) <= 0
  }

  /** Each entry is not after any later one. */
  predicate Sorted(cmp: Comparator, s: seq<Entry>) {
    forall i, j :: 0 <= i < j < |s| ==> cmp(s[i], s[j]) <= 0
  }

  /** Every entry's year is a number. */
  predicate KeysDefined(s: seq<Entry>) {
    forall i :: 0 <= i < |s| ==> KeyOf(s[i]).Some?
  }

  /** Places `x` after the trailing run of entries it does not sort before. */
  function Insert(cmp: Comparator, s: seq<Entry>, x: Entry): (r: seq<Entry>)
    ensures |r| == |s| + 1
    ensures r[|r| - 1] == x || (s != [] && r[|r| - 1] == s[|s| - 1])
  {
    if s == [] || cmp(x, s[|s| - 1]) >= 0 then s + [x]
    else Insert(cmp, s[..|s| - 1], x) + [s[|s| - 1]]
  }

  /** A stable sort: each entry in turn is inserted after the entries it does not sort before. */
  function SortBy(cmp: Comparator, data: seq<Entry>): (r: seq<Entry>)
    ensures |r| == |data|
  {
    if data == [] then [] else Insert(cmp, SortBy(cmp, data[..|data| - 1]), data[|data| - 1])
  }

  /**
   * `[...data].sort(compare)`. With every year a number the comparator is a
   * total preorder, and every stable sort then yields this same sequence.
   */
  function SortEntries(data: seq<Entry>): seq<Entry> {
    SortBy(Compare, data)
  }

  lemma {:induction false} InsertPermutes(cmp: Comparator, s: seq<Entry>, x: Entry)
    ensures multiset(Insert(cmp, s, x)) == multiset(s) + multiset{x}
  {
    if s != [] && cmp(x, s[|s| - 1]) < 0 {
      InsertPermutes(cmp, s[..|s| - 1], x);
      assert s == s[..|s| - 1] + [s[|s| - 1]];
    }
  }

  lemma {:induction false} InsertKeepsOrder(cmp: Comparator, s: seq<Entry>, x: Entry)
    requires Antisymmetric(cmp) && AdjacentSorted(cmp, s)
    ensures AdjacentSorted(cmp, Insert(cmp, s, x))
  {
    if s != [] && cmp(x, s[|s| - 1]) < 0 {
      var init := s[..|s| - 1];
      InsertKeepsOrder(cmp, init, x);
      var r := Insert(cmp, init, x);
      assert cmp(s[|s| - 1], x) == -cmp(x, s[|s| - 1]);
      if init != [] {
        assert s[|s| - 2] == init[|init| - 1];
      }
      assert cmp(r[|r| - 1], s[|s| - 1]) <= 0;
    } else if s != [] {
      assert cmp(s[|s| - 1], x) == -cmp(x, s[|s| - 1]);
    }
  }

  /** The sort returns the entries it was given, each as often as given. */
  lemma {:induction false} SortPermutes(cmp: Comparator, data: seq<Entry>)
    ensures multiset(SortBy(cmp, data)) == multiset(data)
  {
    if data != [] {
      var init := data[..|data| - 1];
      SortPermutes(cmp, init);
      InsertPermutes(cmp, SortBy(cmp, init), data[|data| - 1]);
      assert data == init + [data[|data| - 1]];
    }
  }

  /** For an antisymmetric comparator, no entry of the result is after its successor. */
  lemma {:induction false} SortAdjacent(cmp: Comparator, data: seq<Entry>)
    requires Antisymmetric(cmp)
    ensures AdjacentSorted(cmp, SortBy(cmp, data))
  {
    if data != [] {
      SortAdjacent(cmp, data[..|data| - 1]);
      InsertKeepsOrder(cmp, SortBy(cmp, data[..|data| - 1]), data[|data| - 1]);
    }
  }

  /** With a transitive comparator, local order is global order. */
  lemma AdjacentToSorted(cmp: Comparator, s: seq<Entry>)
    requires TransitiveOn(cmp, s) && AdjacentSorted(cmp, s)
    ensures Sorted(cmp, s)
  {
    forall i, j | 0 <= i < j < |s| ensures cmp(s[i], s[j]) <= 0 {
      var k := i + 1;
      while k < j
        invariant i < k <= j
        invariant cmp(s[i], s[k]) <= 0
      {
        assert cmp(s[k], s[k + 1]) <= 0;
        k := k + 1;
      }
    }
  }

  lemma CompareIsAntisymmetric()
    ensures Antisymmetric(Compare)
  {
    forall a: Entry, b: Entry ensures Compare(a, b) == -Compare(b, a) {
      CompareAntisymmetric(a, b);
    }
  }

  lemma CompareTransitiveOn(s: seq<Entry>)
    requires KeysDefined(s)
    ensures TransitiveOn(Compare, s)
  {
    forall i, j, k | 0 <= i < |s| && 0 <= j < |s| && 0 <= k < |s|
      && Compare(s[i], s[j]) <= 0 && Compare(s[j], s[k]) <= 0
      ensures Compare(s[i], s[k]) <= 0
    {
      CompareTransitive(s[i], s[j], s[k]);
    }
  }

  /** The sort keeps the entries, and no entry is after its successor, whatever the labels. */
  lemma SortedEntries(data: seq<Entry>)
    ensures multiset(SortEntries(data)) == multiset(data)
    ensures AdjacentSorted(Compare, SortEntries(data))
  {
    SortPermutes(Compare, data);
    CompareIsAntisymmetric();
    SortAdjacent(Compare, data);
  }

  /** When every label's year is a number, the entries come out in timeline order. */
  lemma SortOrders(data: seq<Entry>)
    requires KeysDefined(data)
    ensures Sorted(Compare, SortEntries(data))
  {
    var r := SortEntries(data);
    SortedEntries(data);
    assert KeysDefined(r) by {
      forall i | 0 <= i < |r| ensures KeyOf(r[i]).Some? {
        assert r[i] in multiset(data);
        var j :| 0 <= j < |data| && data[j] == r[i];
      }
    }
    CompareTransitiveOn(r);
    AdjacentToSorted(Compare, r);
  }

  // ---------------------------------------------------------------------
  // Grouping into periods

  /** A payday and the bills sorted after it, up to the next payday. */
  datatype Period = Period(payday: Entry, bills: seq<Entry>)

  predicate WellFormed(p: Period) {
    p.payday.IsPayday() && forall j :: 0 <= j < |p.bills| ==> p.bills[j].IsBill()
  }

  /** The periods laid out in order, each payday followed by its bills. */
  function Flatten(ps: seq<Period>): seq<Entry> {
    if ps == [] then [] else Flatten(ps[..|ps| - 1]) + ([ps[|ps| - 1].payday] + ps[|ps| - 1].bills)
  }

  /** The orphans are bills and every period is a payday followed by bills. */
  predicate WellGrouped(orphans: seq<Entry>, periods: seq<Period>) {
    (forall i :: 0 <= i < |orphans| ==> orphans[i].IsBill())
    && forall k :: 0 <= k < |periods| ==> WellFormed(periods[k])
  }

  /** The state of the grouping loop: orphans, closed periods and the open one. */
  datatype Grouping = Grouping(orphans: seq<Entry>, periods: seq<Period>, current: Option<Period>)

  /** One pass of the loop: a payday closes the open period and opens its own; a bill joins the open period, or the orphans. */
  function Step(g: Grouping, e: Entry): Grouping {
    if e.IsPayday() then
      Grouping(g.orphans, g.periods + (if g.current.Some? then [g.current.value] else []), Some(Period(e, [])))
    else match g.current
      case Some(p) => g.(current := Some(p.(bills := p.bills + [e])))
      case None => g.(orphans := g.orphans + [e])
  }

  function Fold(s: seq<Entry>): Grouping {
    if s == [] then Grouping([], [], None) else Step(Fold(s[..|s| - 1]), s[|s| - 1])
  }

  /** The grouping of `s` once the last open period is closed. */
  function GroupEntries(s: seq<Entry>): Grouping {
    var g := Fold(s);
    Grouping(g.orphans, g.periods + (if g.current.Some? then [g.current.value] else []), None)
  }

  function Open(g: Grouping): seq<Entry> {
    match g.current
    case None => []
    case Some(p) => [p.payday] + p.bills
  }

  lemma FlattenSnoc(ps: seq<Period>, p: Period)
    ensures Flatten(ps + [p]) == Flatten(ps) + ([p.payday] + p.bills)
  {
    assert (ps + [p])[..|ps|] == ps;
  }

  /**
   * What the loop has seen, `s`, is the orphans, the closed periods and the
   * open one, in that order; orphans are bills, periods are well formed, and
   * there are no closed periods before a period has been opened.
   */
  predicate Layout(g: Grouping, s: seq<Entry>) {
    g.orphans + Flatten(g.periods) + Open(g) == s
    && WellGrouped(g.orphans, g.periods)
    && (g.current.Some? ==> WellFormed(g.current.value))
    && (g.current.None? ==> g.periods == [])
  }

  /** One pass of the loop keeps the layout. */
  lemma StepLayout(g: Grouping, s: seq<Entry>, e: Entry)
    requires Layout(g, s)
    ensures Layout(Step(g, e), s + [e])
  {
    var h := Step(g, e);
    if e.IsPayday() {
      if g.current.Some? {
        var p := g.current.value;
        FlattenSnoc(g.periods, p);
        assert h.orphans + Flatten(h.periods) == g.orphans + Flatten(g.periods) + Open(g);
      } else {
        assert Flatten(h.periods) == [];
      }
      assert Open(h) == [e];
    } else if g.current.Some? {
      assert Open(h) == Open(g) + [e];
    } else {
      assert Flatten(h.periods) == [] && Open(h) == [];
    }
  }

  lemma {:induction false} FoldLayout(s: seq<Entry>)
    ensures Layout(Fold(s), s)
  {
    if s != [] {
      var init := s[..|s| - 1];
      FoldLayout(init);
      StepLayout(Fold(init), init, s[|s| - 1]);
      assert init + [s[|s| - 1]] == s;
    }
  }

  /**
   * The grouping splits the sorted entries, without loss or reordering, into
   * leading bills and periods that each start with a payday and hold only
   * bills; the orphans are exactly the bills before the first payday.
   */
  lemma GroupLayout(s: seq<Entry>)
    ensures GroupEntries(s).orphans + Flatten(GroupEntries(s).periods) == s
    ensures WellGrouped(GroupEntries(s).orphans, GroupEntries(s).periods)
    ensures |GroupEntries(s).orphans| < |s| ==> s[|GroupEntries(s).orphans|].IsPayday()
  {
    var g := Fold(s);
    FoldLayout(s);
    if g.current.Some? {
      FlattenSnoc(g.periods, g.current.value);
    }
    var r := GroupEntries(s);
    if |r.orphans| < |s| {
      assert r.periods != [];
      FlattenFirst(r.periods);
      assert s[|r.orphans|] == Flatten(r.periods)[0];
    }
  }

  /** A non-empty layout of periods starts with the first payday. */
  lemma {:induction false} FlattenFirst(ps: seq<Period>)
    requires ps != []
    ensures Flatten(ps) != [] && Flatten(ps)[0] == ps[0].payday
  {
    if |ps| > 1 {
      FlattenFirst(ps[..|ps| - 1]);
    }
  }

  /** The grouping loop: walks the sorted entries once. */
  method Group(sorted: seq<Entry>) returns (orphans: seq<Entry>, periods: seq<Period>)
    ensures Grouping(orphans, periods, None) == GroupEntries(sorted)
  {
    var current: Option<Period> := None;
    orphans := [];
    periods := [];
    var i := 0;
    while i < |sorted|
      invariant 0 <= i <= |sorted|
      invariant Grouping(orphans, periods, current) == Fold(sorted[..i])
    {
      var e := sorted[i];
      if e.IsPayday() {
        if current.Some? {
          periods := periods + [current.value];
        }
        current := Some(Period(e, []));
      } else if current.Some? {
        current := Some(current.value.(bills := current.value.bills + [e]));
      } else {
        orphans := orphans + [e];
      }
      assert sorted[..i + 1][..i] == sorted[..i];
      i := i + 1;
    }
    assert sorted[..i] == sorted;
    if current.Some? {
      periods := periods + [current.value];
    }
  }

  // ---------------------------------------------------------------------
  // What a period owes

  /** The amount a bill holds for an account name; a missing key counts as nothing. */
  function AmountOf(b: Entry, name: string): real {
    if b.kind.Bill? && name in b.kind.amounts then b.kind.amounts[name] else 0.0
  }

  /** What one bill adds to `name`'s column: its amount once for every account of that name. */
  function Share(b: Entry, accounts: seq<Account>, name: string): real {
    if accounts == [] then 0.0 else
    Share(b, accounts[..|accounts| - 1], name)
      + (if accounts[|accounts| - 1].name == name then AmountOf(b, name) else 0.0)
  }

  /** What the bills add to `name`'s owed column. */
  function Owed(bills: seq<Entry>, accounts: seq<Account>, name: string): real {
    if bills == [] then 0.0
    else Owed(bills[..|bills| - 1], accounts, name) + Share(bills[|bills| - 1], accounts, name)
  }

  /** What the paid bills add to `name`'s paid column. */
  function Paid(bills: seq<Entry>, accounts: seq<Account>, name: string): real {
    if bills == [] then 0.0 else
    Paid(bills[..|bills| - 1], accounts, name)
      + (if bills[|bills| - 1].IsPaid() then Share(bills[|bills| - 1], accounts, name) else 0.0)
  }

  /** The account names, the keys of every map a period records. */
  function Names(accounts: seq<Account>): set<string> {
    set k | 0 <= k < |accounts| :: accounts[k].name
  }

  /** `totalOwed`: per account name, what the period's bills owe. */
  function OwedMap(bills: seq<Entry>, accounts: seq<Account>): Amounts {
    map n | n in Names(accounts) :: Owed(bills, accounts, n)
  }

  /** `calculatedBalances`: per account name, what is owed and not yet paid. */
  function RemainingMap(bills: seq<Entry>, accounts: seq<Account>): Amounts {
    map n | n in Names(accounts) :: Owed(bills, accounts, n) - Paid(bills, accounts, n)
  }

  /** The bills of a period, each carrying the period's remaining balances. */
  function WithBalances(bills: seq<Entry>, remaining: Amounts): (r: seq<Entry>)
    ensures |r| == |bills|
  {
    seq(|bills|, j requires 0 <= j < |bills| => bills[j].(calculatedBalances := Some(remaining)))
  }

  /** A processed period: the payday records owed and remaining, its bills the remaining. */
  function Processed(p: Period, accounts: seq<Account>): Period {
    var remaining := RemainingMap(p.bills, accounts);
    Period(
      p.payday.(totalOwed := Some(OwedMap(p.bills, accounts)), calculatedBalances := Some(remaining)),
      WithBalances(p.bills, remaining))
  }

  /** How many accounts carry the name. */
  function Occurrences(accounts: seq<Account>, name: string): nat {
    if accounts == [] then 0 else
    Occurrences(accounts[..|accounts| - 1], name) + (if accounts[|accounts| - 1].name == name then 1 else 0)
  }

  /** `x` added to itself `k` times. */
  function Repeat(k: nat, x: real): real {
    if k == 0 then 0.0 else Repeat(k - 1, x) + x
  }

  /** Adding `k` times is multiplying by `k`. */
  lemma {:induction false} RepeatIsProduct(k: nat, x: real)
    ensures Repeat(k, x) == k as real * x
  {
    if k > 0 {
      RepeatIsProduct(k - 1, x);
    }
  }

  lemma {:induction false} RepeatSum(k: nat, x: real, y: real)
    ensures Repeat(k, x + y) == Repeat(k, x) + Repeat(k, y)
    ensures Repeat(k, x - y) == Repeat(k, x) - Repeat(k, y)
    ensures Repeat(k, 0.0) == 0.0
  {
    if k > 0 {
      RepeatSum(k - 1, x, y);
    }
  }

  /** The sum of the bills' amounts for a name. */
  function Total(bills: seq<Entry>, name: string): real {
    if bills == [] then 0.0 else Total(bills[..|bills| - 1], name) + AmountOf(bills[|bills| - 1], name)
  }

  /** The sum of the paid bills' amounts for a name. */
  function PaidTotal(bills: seq<Entry>, name: string): real {
    if bills == [] then 0.0 else
    PaidTotal(bills[..|bills| - 1], name) + (if bills[|bills| - 1].IsPaid() then AmountOf(bills[|bills| - 1], name) else 0.0)
  }

  /** The sum of the unpaid bills' amounts for a name. */
  function Unpaid(bills: seq<Entry>, name: string): real {
    if bills == [] then 0.0 else
    Unpaid(bills[..|bills| - 1], name) + (if bills[|bills| - 1].IsPaid() then 0.0 else AmountOf(bills[|bills| - 1], name))
  }

  /** A bill's share of a column is its amount once per account of that name. */
  lemma {:induction false} ShareCount(b: Entry, accounts: seq<Account>, name: string)
    ensures Share(b, accounts, name) == Repeat(Occurrences(accounts, name), AmountOf(b, name))
  {
    if accounts != [] {
      ShareCount(b, accounts[..|accounts| - 1], name);
    }
  }

  /** The owed column of a name is the sum of its amounts over the bills, once per account of that name. */
  lemma {:induction false} OwedIsTotal(bills: seq<Entry>, accounts: seq<Account>, name: string)
    ensures Owed(bills, accounts, name) == Repeat(Occurrences(accounts, name), Total(bills, name))
  {
    if bills != [] {
      var init := bills[..|bills| - 1];
      var b := bills[|bills| - 1];
      OwedIsTotal(init, accounts, name);
      ShareCount(b, accounts, name);
      RepeatSum(Occurrences(accounts, name), Total(init, name), AmountOf(b, name));
    } else {
      RepeatSum(Occurrences(accounts, name), 0.0, 0.0);
    }
  }

  /** The paid column of a name is the sum over the paid bills, once per account of that name. */
  lemma {:induction false} PaidIsTotal(bills: seq<Entry>, accounts: seq<Account>, name: string)
    ensures Paid(bills, accounts, name) == Repeat(Occurrences(accounts, name), PaidTotal(bills, name))
  {
    if bills != [] {
      var init := bills[..|bills| - 1];
      var b := bills[|bills| - 1];
      PaidIsTotal(init, accounts, name);
      ShareCount(b, accounts, name);
      RepeatSum(Occurrences(accounts, name), PaidTotal(init, name), if b.IsPaid() then AmountOf(b, name) else 0.0);
    } else {
      RepeatSum(Occurrences(accounts, name), 0.0, 0.0);
    }
  }

  /** The unpaid bills' sum is the whole sum less the paid bills' sum. */
  lemma {:induction false} UnpaidSplit(bills: seq<Entry>, name: string)
    ensures Unpaid(bills, name) == Total(bills, name) - PaidTotal(bills, name)
  {
    if bills != [] {
      UnpaidSplit(bills[..|bills| - 1], name);
    }
  }

  /** What remains of a name's column is the sum of its amounts over the unpaid bills only. */
  lemma {:induction false} RemainingIsUnpaid(bills: seq<Entry>, accounts: seq<Account>, name: string)
    ensures Owed(bills, accounts, name) - Paid(bills, accounts, name)
      == Repeat(Occurrences(accounts, name), Unpaid(bills, name))
  {
    OwedIsTotal(bills, accounts, name);
    PaidIsTotal(bills, accounts, name);
    UnpaidSplit(bills, name);
    RepeatSum(Occurrences(accounts, name), Total(bills, name), PaidTotal(bills, name));
  }

  /** The account names, and nothing else, are the keys of both maps a processed payday records. */
  lemma ProcessedKeys(p: Period, accounts: seq<Account>)
    ensures Processed(p, accounts).payday.totalOwed == Some(OwedMap(p.bills, accounts))
    ensures Processed(p, accounts).payday.calculatedBalances == Some(RemainingMap(p.bills, accounts))
    ensures OwedMap(p.bills, accounts).Keys == Names(accounts)
    ensures RemainingMap(p.bills, accounts).Keys == Names(accounts)
  {
  }

  /**
   * For an account name, the payday's owed column is the sum of the name's
   * amounts over the period's bills and its remaining column the same sum
   * over the unpaid bills, each counted once per account of that name (so
   * exactly the sums when one account carries the name); with no bills both
   * are zero.
   */
  lemma ProcessedValues(bills: seq<Entry>, accounts: seq<Account>, name: string)
    requires name in Names(accounts)
    ensures OwedMap(bills, accounts)[name] == Repeat(Occurrences(accounts, name), Total(bills, name))
    ensures RemainingMap(bills, accounts)[name] == Repeat(Occurrences(accounts, name), Unpaid(bills, name))
    ensures Occurrences(accounts, name) == 1 ==>
      OwedMap(bills, accounts)[name] == Total(bills, name) && RemainingMap(bills, accounts)[name] == Unpaid(bills, name)
    ensures bills == [] ==> OwedMap(bills, accounts)[name] == 0.0 && RemainingMap(bills, accounts)[name] == 0.0
  {
    OwedIsTotal(bills, accounts, name);
    RemainingIsUnpaid(bills, accounts, name);
    RepeatSum(Occurrences(accounts, name), 0.0, 0.0);
  }

  /** The entry with the two projection maps cleared: what the user entered. */
  function Unannotated(e: Entry): Entry {
    e.(calculatedBalances := None, totalOwed := None)
  }

  /**
   * Processing keeps the payday and each bill, in order, except for the two
   * projection maps, and every bill carries the payday's remaining balances.
   */
  lemma ProcessedKeepsEntries(p: Period, accounts: seq<Account>)
    ensures var q := Processed(p, accounts);
      Unannotated(q.payday) == Unannotated(p.payday) && |q.bills| == |p.bills|
      && (forall j :: 0 <= j < |p.bills| ==> Unannotated(q.bills[j]) == Unannotated(p.bills[j]))
      && (forall j :: 0 <= j < |p.bills| ==> q.bills[j].calculatedBalances == q.payday.calculatedBalances)
      && (forall j :: 0 <= j < |p.bills| ==> q.bills[j].totalOwed == p.bills[j].totalOwed)
  {
  }

  lemma NamesSnoc(accounts: seq<Account>, k: nat)
    requires k < |accounts|
    ensures Names(accounts[..k + 1]) == Names(accounts[..k]) + {accounts[k].name}
  {
    var front := accounts[..k];
    assert accounts[..k + 1] == front + [accounts[k]];
  }

  lemma ShareSnoc(b: Entry, accounts: seq<Account>, k: nat, name: string)
    requires k < |accounts|
    ensures Share(b, accounts[..k + 1], name)
      == Share(b, accounts[..k], name) + (if accounts[k].name == name then AmountOf(b, name) else 0.0)
  {
    assert accounts[..k + 1][..k] == accounts[..k];
  }

  lemma SameMap(a: Amounts, b: Amounts)
    requires a.Keys == b.Keys && forall n :: n in a ==> a[n] == b[n]
    ensures a == b
  {
  }

  /** `cycleOwed[acc.name] = 0` and `paidAmount[acc.name] = 0` for every account. */
  method ZeroColumns(accounts: seq<Account>) returns (owed: Amounts, paid: Amounts)
    ensures owed.Keys == Names(accounts) && paid.Keys == Names(accounts)
    ensures forall n :: n in owed ==> owed[n] == 0.0 && paid[n] == 0.0
  {
    owed := map[];
    paid := map[];
    for k := 0 to |accounts|
      invariant owed.Keys == Names(accounts[..k]) && paid.Keys == owed.Keys
      invariant forall n :: n in owed ==> owed[n] == 0.0 && paid[n] == 0.0
    {
      NamesSnoc(accounts, k);
      owed := owed[accounts[k].name := 0.0];
      paid := paid[accounts[k].name := 0.0];
    }
    assert accounts[..|accounts|] == accounts;
  }

  /**
   * One bill's pass over the accounts: a truthy amount for an account's name
   * is added to that name's owed column, and to its paid column when the
   * bill is paid.
   */
  method AddBill(owed0: Amounts, paid0: Amounts, b: Entry, accounts: seq<Account>) returns (owed: Amounts, paid: Amounts)
    requires owed0.Keys == Names(accounts) && paid0.Keys == Names(accounts)
    ensures owed.Keys == Names(accounts) && paid.Keys == Names(accounts)
    ensures forall n :: n in owed ==>
      owed[n] == owed0[n] + Share(b, accounts, n)
      && paid[n] == paid0[n] + (if b.IsPaid() then Share(b, accounts, n) else 0.0)
  {
    owed := owed0;
    paid := paid0;
    for k := 0 to |accounts|
      invariant owed.Keys == Names(accounts) && paid.Keys == Names(accounts)
      invariant forall n :: n in owed ==>
        owed[n] == owed0[n] + Share(b, accounts[..k], n)
        && paid[n] == paid0[n] + (if b.IsPaid() then Share(b, accounts[..k], n) else 0.0)
    {
      var name := accounts[k].name;
      assert name in Names(accounts);
      forall n | n in owed ensures Share(b, accounts[..k + 1], n)
        == Share(b, accounts[..k], n) + (if name == n then AmountOf(b, n) else 0.0)
      {
        ShareSnoc(b, accounts, k, n);
      }
      if b.kind.Bill? && name in b.kind.amounts && b.kind.amounts[name] != 0.0 {
        var amount := b.kind.amounts[name];
        owed := owed[name := owed[name] + amount];
        if b.kind.paid {
          paid := paid[name := paid[name] + amount];
        }
      }
    }
    assert accounts[..|accounts|] == accounts;
  }

  lemma SumsSnoc(bills: seq<Entry>, j: nat, accounts: seq<Account>, name: string)
    requires j < |bills|
    ensures Owed(bills[..j + 1], accounts, name) == Owed(bills[..j], accounts, name) + Share(bills[j], accounts, name)
    ensures Paid(bills[..j + 1], accounts, name)
      == Paid(bills[..j], accounts, name) + (if bills[j].IsPaid() then Share(bills[j], accounts, name) else 0.0)
  {
    assert bills[..j + 1][..j] == bills[..j];
  }

  /** `cycleOwed` and `paidAmount` after every bill of the period has been added. */
  method Accumulate(bills: seq<Entry>, accounts: seq<Account>) returns (owed: Amounts, paid: Amounts)
    ensures owed.Keys == Names(accounts) && paid.Keys == Names(accounts)
    ensures forall n :: n in owed ==> owed[n] == Owed(bills, accounts, n) && paid[n] == Paid(bills, accounts, n)
  {
    owed, paid := ZeroColumns(accounts);
    for j := 0 to |bills|
      invariant owed.Keys == Names(accounts) && paid.Keys == Names(accounts)
      invariant forall n :: n in owed ==> owed[n] == Owed(bills[..j], accounts, n) && paid[n] == Paid(bills[..j], accounts, n)
    {
      forall n | n in owed
        ensures Owed(bills[..j + 1], accounts, n) == Owed(bills[..j], accounts, n) + Share(bills[j], accounts, n)
        ensures Paid(bills[..j + 1], accounts, n)
          == Paid(bills[..j], accounts, n) + (if bills[j].IsPaid() then Share(bills[j], accounts, n) else 0.0)
      {
        SumsSnoc(bills, j, accounts, n);
      }
      owed, paid := AddBill(owed, paid, bills[j], accounts);
    }
    assert bills[..|bills|] == bills;
  }

  /** `remaining[acc.name] = cycleOwed[acc.name] - paidAmount[acc.name]` for every account. */
  method RemainingColumns(owed: Amounts, paid: Amounts, accounts: seq<Account>) returns (remaining: Amounts)
    requires owed.Keys == Names(accounts) && paid.Keys == Names(accounts)
    ensures remaining.Keys == Names(accounts)
    ensures forall n :: n in remaining ==> remaining[n] == owed[n] - paid[n]
  {
    remaining := map[];
    for k := 0 to |accounts|
      invariant remaining.Keys == Names(accounts[..k])
      invariant forall n :: n in remaining ==> remaining[n] == owed[n] - paid[n]
    {
      NamesSnoc(accounts, k);
      var name := accounts[k].name;
      assert name in Names(accounts);
      remaining := remaining[name := owed[name] - paid[name]];
    }
    assert accounts[..|accounts|] == accounts;
  }

  /** One period of `processedPeriods`: the payday gets both maps, each bill the remaining balances. */
  method ProcessPeriod(p: Period, accounts: seq<Account>) returns (q: Period)
    ensures q == Processed(p, accounts)
  {
    var bills := p.bills;
    var owed, paid := Accumulate(bills, accounts);
    var remaining := RemainingColumns(owed, paid, accounts);
    assert owed == OwedMap(bills, accounts) by {
      SameMap(owed, OwedMap(bills, accounts));
    }
    assert remaining == RemainingMap(bills, accounts) by {
      SameMap(remaining, RemainingMap(bills, accounts));
    }
    var annotated := [];
    for j := 0 to |bills|
      invariant annotated == WithBalances(bills[..j], remaining)
    {
      annotated := annotated + [bills[j].(calculatedBalances := Some(remaining))];
    }
    assert bills[..|bills|] == bills;
    q := Period(p.payday.(totalOwed := Some(owed), calculatedBalances := Some(remaining)), annotated);
  }

  // ---------------------------------------------------------------------
  // The whole projection

  function ProcessAll(ps: seq<Period>, accounts: seq<Account>): (r: seq<Period>)
    ensures |r| == |ps|
  {
    seq(|ps|, k requires 0 <= k < |ps| => Processed(ps[k], accounts))
  }

  lemma ProcessAllSnoc(ps: seq<Period>, k: nat, accounts: seq<Account>)
    requires k < |ps|
    ensures ProcessAll(ps[..k + 1], accounts) == ProcessAll(ps[..k], accounts) + [Processed(ps[k], accounts)]
  {
  }

  /** The result: the orphans untouched, then each processed period, payday first. */
  function Calculation(data: seq<Entry>, accounts: seq<Account>): seq<Entry> {
    var g := GroupEntries(SortEntries(data));
    g.orphans + Flatten(ProcessAll(g.periods, accounts))
  }

  /** `useCalculations(entries, accounts)`. */
  method Calculate(data: seq<Entry>, accounts: seq<Account>) returns (result: seq<Entry>)
    ensures result == Calculation(data, accounts)
  {
    var sorted := SortEntries(data);
    var orphans, periods := Group(sorted);
    var processed := [];
    for k := 0 to |periods|
      invariant processed == ProcessAll(periods[..k], accounts)
    {
      var q := ProcessPeriod(periods[k], accounts);
      ProcessAllSnoc(periods, k, accounts);
      processed := processed + [q];
    }
    assert periods[..|periods|] == periods;
    result := orphans + Flatten(processed);
  }

  /** `a` and `b` hold the same entries, position by position, up to the projection maps. */
  predicate SameLayout(a: seq<Entry>, b: seq<Entry>) {
    |a| == |b| && forall i :: 0 <= i < |a| ==> Unannotated(a[i]) == Unannotated(b[i])
  }

  lemma SameLayoutAppend(a: seq<Entry>, a': seq<Entry>, b: seq<Entry>, b': seq<Entry>)
    requires SameLayout(a, a') && SameLayout(b, b')
    ensures SameLayout(a + b, a' + b')
  {
    forall i | 0 <= i < |a + b|
      ensures Unannotated((a + b)[i]) == Unannotated((a' + b')[i])
    {
      if i >= |a| {
        assert (a + b)[i] == b[i - |a|] && (a' + b')[i] == b'[i - |a|];
      }
    }
  }

  /** A processed period lays out as the period: its payday, then its bills. */
  lemma PeriodLayout(p: Period, accounts: seq<Account>)
    ensures var q := Processed(p, accounts);
      SameLayout([q.payday] + q.bills, [p.payday] + p.bills)
  {
    var q := Processed(p, accounts);
    ProcessedKeepsEntries(p, accounts);
    forall i | 0 <= i < 1 + |p.bills|
      ensures Unannotated(([q.payday] + q.bills)[i]) == Unannotated(([p.payday] + p.bills)[i])
    {
      if i > 0 {
        assert ([q.payday] + q.bills)[i] == q.bills[i - 1];
      }
    }
  }

  /** Processing keeps the layout of each period, entry for entry, up to the projection maps. */
  lemma {:induction false} FlattenProcessed(ps: seq<Period>, accounts: seq<Account>)
    ensures |Flatten(ProcessAll(ps, accounts))| == |Flatten(ps)|
    ensures forall i :: 0 <= i < |Flatten(ps)| ==>
      Unannotated(Flatten(ProcessAll(ps, accounts))[i]) == Unannotated(Flatten(ps)[i])
  {
    if ps != [] {
      var init := ps[..|ps| - 1];
      var p := ps[|ps| - 1];
      var q := Processed(p, accounts);
      FlattenProcessed(init, accounts);
      assert ProcessAll(ps, accounts)[..|ps| - 1] == ProcessAll(init, accounts);
      PeriodLayout(p, accounts);
      SameLayoutAppend(Flatten(ProcessAll(init, accounts)), Flatten(init), [q.payday] + q.bills, [p.payday] + p.bills);
    }
  }

  /**
   * Every input entry appears in the result exactly once and in sorted
   * position; only the two projection maps may differ.
   */
  lemma CalculationKeepsEntries(data: seq<Entry>, accounts: seq<Account>)
    ensures var r := Calculation(data, accounts);
      var sorted := SortEntries(data);
      multiset(sorted) == multiset(data) && |r| == |data|
      && forall i :: 0 <= i < |r| ==> Unannotated(r[i]) == Unannotated(sorted[i])
  {
    var sorted := SortEntries(data);
    SortedEntries(data);
    GroupLayout(sorted);
    var g := GroupEntries(sorted);
    FlattenProcessed(g.periods, accounts);
  }

  /**
   * The result starts with the orphans, unchanged: the bills sorted before
   * the first payday; the entry after them is that payday.
   */
  lemma OrphansFirst(data: seq<Entry>, accounts: seq<Account>)
    ensures var r := Calculation(data, accounts);
      var sorted := SortEntries(data);
      var n := |GroupEntries(sorted).orphans|;
      |r| == |sorted| && n <= |sorted| && r[..n] == sorted[..n]
      && (forall i :: 0 <= i < n ==> r[i].IsBill())
      && (n < |r| ==> r[n].IsPayday() && Unannotated(r[n]) == Unannotated(sorted[n]))
  {
    var sorted := SortEntries(data);
    GroupLayout(sorted);
    CalculationKeepsEntries(data, accounts);
    var g := GroupEntries(sorted);
    assert sorted[..|g.orphans|] == g.orphans;
  }
}

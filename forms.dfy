/**
 * The dashboard's entry forms: the bill form and the payday form. Both
 * split the entry's month label `"Mon 'YY"` into a month name and a year
 * and compose them again on submit; the bill form also chooses between a
 * template's name and a custom one.
 */
module Forms {
  import opened Wrappers
  import opened Text
  import opened BudgetTypes
  import Generator
  import Dashboard

  // ---------------------------------------------------------------------
  // Month labels

  /** The label a form starts from when the entry has none. */
  const DefaultLabel: string := "Jan '26"
  const DefaultYear: string := "26"

  /** `initialData?.month || "Jan '26"`. */
  function StartLabel(initial: Option<Entry>): (m: string)
    ensures m != ""
    ensures initial.Some? && initial.value.month != "" ==> m == initial.value.month
  {
    if initial.Some? && initial.value.month != "" then initial.value.month else DefaultLabel
  }

  /** `m.split(' ')[0]`: the label up to its first space. */
  function MonthNameOf(m: string): (r: string)
    ensures |r| <= |m| && r == m[..|r|] && ' ' !in r
  {
    var f := Text.Field(m, " ", 0).value;
    forall j | 0 <= j < |f|
      ensures f[j] != ' '
    {
      assert !SliceAt(m, " ", j) && m[j..j + 1] == [m[j]];
    }
    f
  }

  /** `parts.length > 1 ? parts[1] : '26'` for `parts = m.split("'")`. */
  function YearOf(m: string): (r: string)
    ensures Text.Field(m, "'", 1).Some? ==> r == Text.Field(m, "'", 1).value
  {
    match Text.Field(m, "'", 1)
    case Some(y) => y
    case None => DefaultYear
  }

  /** A label without an apostrophe has the default year. */
  lemma YearOfWithoutApostrophe(m: string)
    requires '\'' !in m
    ensures YearOf(m) == DefaultYear
  {
    FindNone(m, '\'');
  }

  /** The label the form submits: `${monthName} '${year}`. */
  function Compose(monthName: string, year: string): string {
    Generator.MonthLabel(monthName, year)
  }

  /**
   * Splitting a label composed from a month name without spaces or
   * apostrophes and a year without apostrophes gives back the two parts, so
   * composing them again gives back the label.
   */
  lemma ParseCompose(monthName: string, year: string)
    requires ' ' !in monthName && '\'' !in monthName && '\'' !in year
    ensures MonthNameOf(Compose(monthName, year)) == monthName
    ensures YearOf(Compose(monthName, year)) == year
    ensures var m := Compose(monthName, year); Compose(MonthNameOf(m), YearOf(m)) == m
  {
    LabelFields(monthName, year);
  }

  /** The characters of `year.toString().slice(-2)`: digits, or a minus sign. */
  lemma YearSuffixHasNoApostrophe(year: int)
    ensures '\'' !in Generator.YearSuffix(year)
  {
    var s := IntToString(year);
    assert forall i :: 0 <= i < |s| ==> IsDigit(s[i]) || s[i] == '-';
    LastTwoSuffix(s);
    var r := Generator.YearSuffix(year);
    assert forall i :: 0 <= i < |r| ==> r[i] == s[|s| - |r| + i];
  }

  /**
   * The label the generator gives an entry in month `month` of `year`
   * (`"Mon 'YY"`) splits back into the month and the year suffix.
   */
  lemma GeneratedLabelParses(month: string, year: int)
    requires ' ' !in month && '\'' !in month
    ensures var m := Generator.MonthLabel(month, Generator.YearSuffix(year));
      MonthNameOf(m) == month && YearOf(m) == Generator.YearSuffix(year)
  {
    YearSuffixHasNoApostrophe(year);
    ParseCompose(month, Generator.YearSuffix(year));
  }

  /** The default label splits into "Jan" and "26". */
  lemma DefaultLabelParses()
    ensures MonthNameOf(DefaultLabel) == "Jan" && YearOf(DefaultLabel) == DefaultYear
  {
    DefaultLabelComposed();
    ParseCompose("Jan", DefaultYear);
  }

  /** The default label is January of the default year. */
  lemma DefaultLabelComposed()
    ensures Compose("Jan", DefaultYear) == DefaultLabel
  {
    assert Generator.MonthLabel("Jan", DefaultYear) == "Jan" + " '" + "26";
  }

  /** A label of the form `"Mon 'YY"`. */
  ghost predicate WellFormedLabel(m: string) {
    exists monthName: string, year: string
      | ' ' !in monthName && '\'' !in monthName && '\'' !in year :: m == Compose(monthName, year)
  }

  /** `initialData?.date || new Date().getDate()`, `today` being the day of the month today. */
  function StartDate(initial: Option<Entry>, today: int): (d: int)
    ensures initial.Some? && initial.value.date != 0 ==> d == initial.value.date
    ensures (initial.None? || initial.value.date == 0) ==> d == today
  {
    if initial.Some? && initial.value.date != 0 then initial.value.date else today
  }

  // ---------------------------------------------------------------------
  // The bill form

  const OtherName: string := "Other"

  /** The bill form's state. */
  datatype BillFormState = BillFormState(
    selected: string, customName: string, date: int, monthName: string, year: string, amounts: Amounts)

  predicate TemplateNamed(templates: seq<Template>, name: string) {
    exists t :: t in templates && t.name == name
  }

  /**
   * The initial `(selectedBillName, customName)`: the entry's name when a
   * template has it, otherwise "Other" with the name as the custom name;
   * for a new bill, the first template's name, or "Other" when there is none.
   */
  function InitialSelection(initialName: string, templates: seq<Template>): (r: (string, string))
    ensures initialName != "" && TemplateNamed(templates, initialName) ==> r == (initialName, "")
    ensures initialName != "" && !TemplateNamed(templates, initialName) ==> r == (OtherName, initialName)
    ensures initialName == "" && templates != [] ==> r == (templates[0].name, "")
    ensures initialName == "" && templates == [] ==> r == (OtherName, "")
  {
    if initialName != "" then
      if TemplateNamed(templates, initialName) then (initialName, "") else (OtherName, initialName)
    else if templates != [] then (templates[0].name, "")
    else (OtherName, "")
  }

  /** The form as it opens for `initial` (a bill) or for a new bill. */
  function OpenBillForm(initial: Option<Entry>, templates: seq<Template>, today: int): (r: BillFormState)
    requires initial.Some? ==> initial.value.IsBill()
    ensures r.date == StartDate(initial, today)
    ensures r.amounts == if initial.Some? then initial.value.kind.amounts else map[]
  {
    var name := if initial.Some? then initial.value.name else "";
    var sel := InitialSelection(name, templates);
    var m := StartLabel(initial);
    BillFormState(sel.0, sel.1, StartDate(initial, today), MonthNameOf(m), YearOf(m),
      if initial.Some? then initial.value.kind.amounts else map[])
  }

  /** The name the form saves: the custom name exactly when "Other" is selected. */
  function BillName(s: BillFormState): (n: string)
    ensures s.selected == OtherName ==> n == s.customName
    ensures s.selected != OtherName ==> n == s.selected
  {
    if s.selected == OtherName then s.customName else s.selected
  }

  /** `handleSubmit`: name, day, composed month label and amounts. */
  function SubmitBill(s: BillFormState): (d: Dashboard.BillData)
    ensures d.name == BillName(s) && d.date == s.date && d.amounts == s.amounts
    ensures d.month == Compose(s.monthName, s.year)
  {
    Dashboard.BillData(BillName(s), s.date, Compose(s.monthName, s.year), s.amounts)
  }

  /**
   * Submitting the bill form unchanged gives back the bill's own fields, so
   * the edit leaves the bill as it was, for a bill with a name other than
   * "Other", a day and a well-formed label.
   */
  lemma UnchangedBillFormKeepsBill(e: Entry, templates: seq<Template>, today: int)
    requires e.IsBill() && e.name != "" && e.name != OtherName && e.date != 0 && WellFormedLabel(e.month)
    ensures SubmitBill(OpenBillForm(Some(e), templates, today)) == Dashboard.BillDataOf(e)
    ensures Dashboard.MergeBill(e, SubmitBill(OpenBillForm(Some(e), templates, today))) == e
  {
    var monthName: string, year: string :|
      ' ' !in monthName && '\'' !in monthName && '\'' !in year && e.month == Compose(monthName, year);
    ParseCompose(monthName, year);
    Dashboard.MergeReadsBack(e, Dashboard.BillDataOf(e), Dashboard.NewPayday(Dashboard.PaydayData("", 0, "", map[]), ""), Dashboard.PaydayData("", 0, "", map[]));
  }

  /**
   * A bill named "Other" while a template also has that name is saved with
   * the empty custom name: the name "Other" doubles as the marker of a
   * custom name.
   */
  lemma BillNamedOtherLosesName()
    ensures var t := Template("t", OtherName, 1, None, None, None, None, Monthly, true, true,
        BillBody(map[], Missing, None));
      var e := Entry("e", None, Bill(false, map[]), 1, DefaultLabel, OtherName, None, None);
      SubmitBill(OpenBillForm(Some(e), [t], 1)).name == ""
  {
    var t := Template("t", OtherName, 1, None, None, None, None, Monthly, true, true,
      BillBody(map[], Missing, None));
    assert t in [t];
    assert InitialSelection(OtherName, [t]) == (OtherName, "");
  }

  /**
   * `handleAmountChange(account, value)`, `parsed` being `parseFloat(value)`
   * (`None` for `NaN`): an unreadable input or a zero removes the account's
   * amount, any other number sets it; no other account changes.
   */
  method HandleAmountChange(prev: Amounts, account: string, parsed: Option<real>) returns (next: Amounts)
    ensures account in next <==> parsed.Some? && parsed.value != 0.0
    ensures account in next ==> next[account] == parsed.value
    ensures forall k :: k != account ==> (k in next <==> k in prev)
    ensures forall k :: k != account && k in next ==> next[k] == prev[k]
  {
    next := prev;
    if parsed.None? || parsed.value == 0.0 {
      next := next - {account};
    } else {
      next := next[account := parsed.value];
    }
  }

  // ---------------------------------------------------------------------
  // The payday form

  const DefaultPaydayName: string := "Payday"

  /** The payday form's state. */
  datatype PaydayFormState = PaydayFormState(
    name: string, date: int, monthName: string, year: string, balances: Amounts)

  /** The form as it opens for `initial` (a payday) or for a new payday. */
  function OpenPaydayForm(initial: Option<Entry>, today: int): (r: PaydayFormState)
    requires initial.Some? ==> initial.value.IsPayday()
    ensures r.name == if initial.Some? && initial.value.name != "" then initial.value.name else DefaultPaydayName
    ensures r.date == StartDate(initial, today)
    ensures r.balances == if initial.Some? then initial.value.kind.balances else map[]
  {
    var m := StartLabel(initial);
    PaydayFormState(
      if initial.Some? && initial.value.name != "" then initial.value.name else DefaultPaydayName,
      StartDate(initial, today), MonthNameOf(m), YearOf(m),
      if initial.Some? then initial.value.kind.balances else map[])
  }

  /** `handleSubmit`: name, day, composed month label and balances. */
  function SubmitPayday(s: PaydayFormState): (d: Dashboard.PaydayData)
    ensures d.name == s.name && d.date == s.date && d.balances == s.balances
    ensures d.month == Compose(s.monthName, s.year)
  {
    Dashboard.PaydayData(s.name, s.date, Compose(s.monthName, s.year), s.balances)
  }

  /** A new payday form proposes "Payday" in January '26, today, with no balances. */
  lemma NewPaydayFormDefaults(today: int)
    ensures SubmitPayday(OpenPaydayForm(None, today)) ==
      Dashboard.PaydayData(DefaultPaydayName, today, DefaultLabel, map[])
  {
    DefaultLabelParses();
    var s := OpenPaydayForm(None, today);
    assert s.monthName == "Jan" && s.year == DefaultYear;
    DefaultLabelComposed();
  }

  /**
   * Submitting the payday form unchanged gives back the payday's own fields,
   * so the edit leaves the payday as it was, for a payday with a name, a
   * day and a well-formed label.
   */
  lemma UnchangedPaydayFormKeepsPayday(e: Entry, today: int)
    requires e.IsPayday() && e.name != "" && e.date != 0 && WellFormedLabel(e.month)
    ensures SubmitPayday(OpenPaydayForm(Some(e), today)) == Dashboard.PaydayDataOf(e)
    ensures Dashboard.MergePayday(e, SubmitPayday(OpenPaydayForm(Some(e), today))) == e
  {
    var monthName: string, year: string :|
      ' ' !in monthName && '\'' !in monthName && '\'' !in year && e.month == Compose(monthName, year);
    ParseCompose(monthName, year);
  }

  /**
   * `handleBalanceChange(account, value)`: only an unreadable input removes
   * the balance; any number, 0 included, sets it; no other account changes.
   */
  method HandleBalanceChange(prev: Amounts, account: string, parsed: Option<real>) returns (next: Amounts)
    ensures account in next <==> parsed.Some?
    ensures account in next ==> next[account] == parsed.value
    ensures forall k :: k != account ==> (k in next <==> k in prev)
    ensures forall k :: k != account && k in next ==> next[k] == prev[k]
  {
    next := prev;
    if parsed.None? {
      next := next - {account};
    } else {
      next := next[account := parsed.value];
    }
  }
}

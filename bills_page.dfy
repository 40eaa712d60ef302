/**
 * The bill template page: the form's state, how opening the form and
 * editing a template fill it, how saving shapes the template record from it
 * (each optional field only for the recurrences that use it), and the edits
 * of the amounts map and of the list of manual dates.
 */
module BillsPage {
  import opened Wrappers
  import opened BudgetTypes
  import Dashboard

  /** The form's fields. */
  datatype BillForm = BillForm(
    name: string,
    recurrence: Recurrence,
    day: int,
    day2: int,
    month: string,
    startMonth: string,
    endMonth: Option<string>,
    intervalDays: int,
    manualDates: seq<ManualDate>,
    isActive: bool,
    amounts: Amounts)

  /** The manual date a new row starts with. */
  const FirstOfJanuary: ManualDate := ManualDate("Jan", 1)

  /** The form as the page first shows it. */
  const InitialForm: BillForm :=
    BillForm("", Monthly, 1, 15, "Jan", "Jan", None, 30, [FirstOfJanuary], true, map[])

  /**
   * `handleOpenForm`: a blank monthly form; the second day and the yearly
   * month are not reset and keep what the form last held.
   */
  function OpenForm(f: BillForm): (r: BillForm)
    ensures r.day2 == f.day2 && r.month == f.month
    ensures r == InitialForm.(day2 := f.day2, month := f.month)
  {
    BillForm("", Monthly, 1, f.day2, f.month, "Jan", None, 30, [FirstOfJanuary], true, map[])
  }

  /**
   * `handleEdit(t)`: the template's fields, `startMonth` defaulting to "Jan";
   * `day2`, `month`, `intervalDays` and `manualDates` keep the form's values
   * when the template has none (or a falsy one).
   */
  function EditForm(f: BillForm, t: Template): (r: BillForm)
    requires t.IsBillTemplate()
    ensures r.name == t.name && r.recurrence == t.recurrence && r.day == t.day
    ensures r.isActive == t.isActive && r.amounts == t.body.amounts && r.endMonth == t.endMonth
    ensures r.startMonth == if Truthy(t.startMonth) then t.startMonth.value else "Jan"
    ensures r.day2 == if t.day2.Some? && t.day2.value != 0 then t.day2.value else f.day2
    ensures r.month == if Truthy(t.month) then t.month.value else f.month
    ensures r.intervalDays ==
      if t.body.intervalDays.Present? && t.body.intervalDays.value != 0 then t.body.intervalDays.value
      else f.intervalDays
    ensures r.manualDates == if t.body.manualDates.Some? then t.body.manualDates.value else f.manualDates
  {
    BillForm(
      t.name, t.recurrence, t.day,
      if t.day2.Some? && t.day2.value != 0 then t.day2.value else f.day2,
      if Truthy(t.month) then t.month.value else f.month,
      if Truthy(t.startMonth) then t.startMonth.value else "Jan",
      t.endMonth,
      if t.body.intervalDays.Present? && t.body.intervalDays.value != 0 then t.body.intervalDays.value
      else f.intervalDays,
      if t.body.manualDates.Some? then t.body.manualDates.value else f.manualDates,
      t.isActive, t.body.amounts)
  }

  /** The recurrences that run over a window of months (all but one-time and manual). */
  predicate HasWindow(r: Recurrence) {
    r != OneTime && r != Manual
  }

  /**
   * `handleSave`'s template record under the id `id`: each optional field is
   * set only for the recurrences that use it, and the template always
   * generates entries.
   */
  function SavedTemplate(f: BillForm, id: string): (t: Template)
    ensures t.IsBillTemplate() && t.id == id && t.autoGenerate
    ensures t.name == f.name && t.recurrence == f.recurrence && t.day == f.day
    ensures t.isActive == f.isActive && t.body.amounts == f.amounts
    ensures t.day2.Some? <==> f.recurrence == SemiMonthly
    ensures t.day2.Some? ==> t.day2.value == f.day2
    ensures t.month.Some? <==> f.recurrence == Yearly
    ensures t.month.Some? ==> t.month.value == f.month
    ensures t.startMonth.Some? <==> HasWindow(f.recurrence)
    ensures t.startMonth.Some? ==> t.startMonth.value == f.startMonth
    ensures t.endMonth.Some? <==> HasWindow(f.recurrence) && Truthy(f.endMonth)
    ensures t.endMonth.Some? ==> t.endMonth == f.endMonth
    ensures t.body.intervalDays.Present? <==> f.recurrence == CustomInterval
    ensures t.body.intervalDays.Present? ==> t.body.intervalDays.value == f.intervalDays
    ensures t.body.manualDates.Some? <==> f.recurrence == Manual
    ensures t.body.manualDates.Some? ==> t.body.manualDates.value == f.manualDates
  {
    var r := f.recurrence;
    Template(
      id, f.name, f.day,
      if r == SemiMonthly then Some(f.day2) else None,
      if r == Yearly then Some(f.month) else None,
      if HasWindow(r) then Some(f.startMonth) else None,
      if HasWindow(r) && Truthy(f.endMonth) then f.endMonth else None,
      r, true, f.isActive,
      BillBody(f.amounts,
        if r == CustomInterval then Present(f.intervalDays) else Undefined,
        if r == Manual then Some(f.manualDates) else None))
  }

  /** What saving sends to the store. */
  datatype SaveAction = UpdateTemplate(template: Template) | AddTemplate(template: Template)

  /** `handleSave`: an update under the id being edited, otherwise an addition under a fresh id. */
  function HandleSave(f: BillForm, editingId: Option<string>, freshId: string): (a: SaveAction)
    ensures Truthy(editingId) ==> a == UpdateTemplate(SavedTemplate(f, editingId.value))
    ensures !Truthy(editingId) ==> a == AddTemplate(SavedTemplate(f, freshId))
  {
    if Truthy(editingId) then UpdateTemplate(SavedTemplate(f, editingId.value))
    else AddTemplate(SavedTemplate(f, freshId))
  }

  /**
   * Editing a saved template gives back the form it was saved from, in every
   * field that the template's recurrence uses (for a start month picked from
   * the list, which is never empty).
   */
  lemma EditAfterSave(g: BillForm, f: BillForm, id: string)
    requires f.startMonth != "" && (f.recurrence == Yearly ==> f.month != "")
    ensures var r := EditForm(g, SavedTemplate(f, id));
      r.name == f.name && r.recurrence == f.recurrence && r.day == f.day
      && r.isActive == f.isActive && r.amounts == f.amounts
      && (HasWindow(f.recurrence) ==> r.startMonth == f.startMonth)
      && (HasWindow(f.recurrence) && Truthy(f.endMonth) ==> r.endMonth == f.endMonth)
      && (f.recurrence == SemiMonthly && f.day2 != 0 ==> r.day2 == f.day2)
      && (f.recurrence == Yearly ==> r.month == f.month)
      && (f.recurrence == CustomInterval && f.intervalDays != 0 ==> r.intervalDays == f.intervalDays)
      && (f.recurrence == Manual ==> r.manualDates == f.manualDates)
  {
    var t := SavedTemplate(f, id);
    assert HasWindow(f.recurrence) ==> t.startMonth == Some(f.startMonth);
  }

  // ---------------------------------------------------------------------
  // Amounts

  /**
   * `handleAmountChange(account, val)`, `parsed` being `parseFloat(val)`
   * (`None` for `NaN`): an empty or unreadable input removes the account's
   * amount, anything else, 0 included, sets it; no other account changes.
   */
  method HandleAmountChange(prev: Amounts, account: string, val: string, parsed: Option<real>)
    returns (next: Amounts)
    ensures account in next <==> val != "" && parsed.Some?
    ensures account in next ==> next[account] == parsed.value
    ensures forall k :: k != account ==> (k in next <==> k in prev)
    ensures forall k :: k != account && k in next ==> next[k] == prev[k]
  {
    next := prev;
    if val == "" || parsed.None? {
      next := next - {account};
    } else {
      next := next[account := parsed.value];
    }
  }

  // ---------------------------------------------------------------------
  // Manual dates

  /** `addManualDate`: one more row, 1 January. */
  function AddManualDate(dates: seq<ManualDate>): (r: seq<ManualDate>)
    ensures |r| == |dates| + 1 && r[..|dates|] == dates && r[|dates|] == FirstOfJanuary
  {
    dates + [FirstOfJanuary]
  }

  /** The rows other than `index`, in order (`filter((_, i) => i !== index)`). */
  function WithoutIndex(dates: seq<ManualDate>, index: int): (r: seq<ManualDate>)
    ensures 0 <= index < |dates| ==> |r| == |dates| - 1
    ensures !(0 <= index < |dates|) ==> r == dates
  {
    if dates == [] then []
    else (if index == 0 then [] else [dates[0]]) + WithoutIndex(dates[1..], index - 1)
  }

  /** Dropping row `index` leaves the rows before it and the rows after it, in order. */
  lemma {:induction false} WithoutIndexMeaning(dates: seq<ManualDate>, index: nat)
    requires index < |dates|
    ensures WithoutIndex(dates, index) == dates[..index] + dates[index + 1..]
  {
    if index > 0 {
      WithoutIndexMeaning(dates[1..], index - 1);
      assert dates[1..][..index - 1] == dates[1..index];
      assert dates[1..][index..] == dates[index + 1..];
      assert [dates[0]] + dates[1..index] == dates[..index];
    } else {
      assert dates[1..] == dates[index + 1..];
    }
  }

  /** `removeManualDate(index)`: the last remaining row is never removed. */
  function RemoveManualDate(dates: seq<ManualDate>, index: int): (r: seq<ManualDate>)
    ensures |dates| <= 1 ==> r == dates
    ensures dates != [] ==> r != []
    ensures |dates| > 1 && 0 <= index < |dates| ==> r == dates[..index] + dates[index + 1..]
  {
    if |dates| <= 1 then dates
    else if 0 <= index < |dates| then
      WithoutIndexMeaning(dates, index);
      WithoutIndex(dates, index)
    else WithoutIndex(dates, index)
  }

  /** What `updateManualDate` writes into the row: its month or its day. */
  datatype DateChange = SetMonth(month: string) | SetDay(day: int)

  function Changed(d: ManualDate, c: DateChange): ManualDate {
    match c
    case SetMonth(m) => d.(month := m)
    case SetDay(n) => d.(day := n)
  }

  /**
   * `updateManualDate(index, field, value)`: a copy of the rows with the one
   * field of row `index` replaced.
   */
  method UpdateManualDate(dates: seq<ManualDate>, index: nat, c: DateChange) returns (r: seq<ManualDate>)
    requires index < |dates|
    ensures |r| == |dates|
    ensures forall j :: 0 <= j < |dates| && j != index ==> r[j] == dates[j]
    ensures c.SetMonth? ==> r[index] == ManualDate(c.month, dates[index].day)
    ensures c.SetDay? ==> r[index] == ManualDate(dates[index].month, c.day)
  {
    var copy := new ManualDate[|dates|](j requires 0 <= j < |dates| => dates[j]);
    copy[index] := Changed(copy[index], c);
    r := copy[..];
  }
}

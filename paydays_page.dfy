/**
 * The payday schedule page: opening the form, filling it from a template,
 * and shaping the payday template record that saving sends to the store.
 * The balance input behaves as the bill page's amount input
 * (`BillsPage.HandleAmountChange`).
 */
module PaydaysPage {
  import opened Wrappers
  import opened BudgetTypes
  import Dashboard
  import BillsPage

  /** The form's fields. */
  datatype PaydayForm = PaydayForm(
    name: string,
    recurrence: Recurrence,
    day: int,
    day2: int,
    month: string,
    startMonth: string,
    balances: Amounts)

  const DefaultName: string := "Payday"

  /**
   * `handleOpenForm`: a bi-weekly "Payday" on day 1 with no balances; the
   * second day and the month keep what the form last held.
   */
  function OpenForm(f: PaydayForm): (r: PaydayForm)
    ensures r.name == DefaultName && r.recurrence == BiWeekly && r.day == 1 && r.balances == map[]
    ensures r.startMonth == "Jan" && r.day2 == f.day2 && r.month == f.month
  {
    PaydayForm(DefaultName, BiWeekly, 1, f.day2, f.month, "Jan", map[])
  }

  /**
   * `handleEdit(t)`: the template's fields, `startMonth` defaulting to "Jan";
   * `day2` and `month` keep the form's values when the template has none.
   */
  function EditForm(f: PaydayForm, t: Template): (r: PaydayForm)
    requires !t.IsBillTemplate()
    ensures r.name == t.name && r.recurrence == t.recurrence && r.day == t.day
    ensures r.balances == t.body.balances
    ensures r.startMonth == if Truthy(t.startMonth) then t.startMonth.value else "Jan"
    ensures r.day2 == if t.day2.Some? && t.day2.value != 0 then t.day2.value else f.day2
    ensures r.month == if Truthy(t.month) then t.month.value else f.month
  {
    PaydayForm(
      t.name, t.recurrence, t.day,
      if t.day2.Some? && t.day2.value != 0 then t.day2.value else f.day2,
      if Truthy(t.month) then t.month.value else f.month,
      if Truthy(t.startMonth) then t.startMonth.value else "Jan",
      t.body.balances)
  }

  /** The recurrences that place a payday in a chosen month. */
  predicate UsesMonth(r: Recurrence) {
    r == Yearly || r == OneTime
  }

  /**
   * `handleSave`'s payday template under the id `id`: a second day only for
   * semi-monthly, a month only for yearly and one-time, a start month for
   * all but one-time, never an end month; it is always active and always
   * generates entries.
   */
  function SavedTemplate(f: PaydayForm, id: string): (t: Template)
    ensures !t.IsBillTemplate() && t.id == id && t.autoGenerate && t.isActive
    ensures t.name == f.name && t.recurrence == f.recurrence && t.day == f.day
    ensures t.body.balances == f.balances && t.endMonth == None
    ensures t.day2.Some? <==> f.recurrence == SemiMonthly
    ensures t.day2.Some? ==> t.day2.value == f.day2
    ensures t.month.Some? <==> UsesMonth(f.recurrence)
    ensures t.month.Some? ==> t.month.value == f.month
    ensures t.startMonth.Some? <==> f.recurrence != OneTime
    ensures t.startMonth.Some? ==> t.startMonth.value == f.startMonth
  {
    var r := f.recurrence;
    Template(
      id, f.name, f.day,
      if r == SemiMonthly then Some(f.day2) else None,
      if UsesMonth(r) then Some(f.month) else None,
      if r != OneTime then Some(f.startMonth) else None,
      None, r, true, true,
      PaydayBody(f.balances))
  }

  /** `handleSave`: an update under the id being edited, otherwise an addition under a fresh id. */
  function HandleSave(f: PaydayForm, editingId: Option<string>, freshId: string): (a: BillsPage.SaveAction)
    ensures Truthy(editingId) ==> a == BillsPage.UpdateTemplate(SavedTemplate(f, editingId.value))
    ensures !Truthy(editingId) ==> a == BillsPage.AddTemplate(SavedTemplate(f, freshId))
  {
    if Truthy(editingId) then BillsPage.UpdateTemplate(SavedTemplate(f, editingId.value))
    else BillsPage.AddTemplate(SavedTemplate(f, freshId))
  }

  /**
   * Editing a saved payday template gives back the form it was saved from,
   * in every field its recurrence uses (months being picked from the list,
   * never empty).
   */
  lemma EditAfterSave(g: PaydayForm, f: PaydayForm, id: string)
    requires f.startMonth != "" && f.month != ""
    ensures var r := EditForm(g, SavedTemplate(f, id));
      r.name == f.name && r.recurrence == f.recurrence && r.day == f.day && r.balances == f.balances
      && (f.recurrence != OneTime ==> r.startMonth == f.startMonth)
      && (f.recurrence == OneTime ==> r.startMonth == "Jan")
      && (f.recurrence == SemiMonthly && f.day2 != 0 ==> r.day2 == f.day2)
      && (UsesMonth(f.recurrence) ==> r.month == f.month)
  {
    var t := SavedTemplate(f, id);
    assert f.recurrence != OneTime ==> t.startMonth == Some(f.startMonth);
    assert UsesMonth(f.recurrence) ==> t.month == Some(f.month);
  }
}

/**
 * The first-run setup wizard: five steps (welcome, accounts, paydays,
 * bills, complete) that collect accounts and payday and bill templates and
 * finally hand them, with the current year's generated entries, to the
 * caller. The component's state is the `Wizard` class; fresh ids, the
 * current year and the outcome of the completion callback are parameters.
 */
module Setup {
  import opened Wrappers
  import opened Text
  import opened BudgetTypes
  import Generator
  import Store

  /** The last step, "complete"; the steps are 0 to 4. */
  const LastStep: nat := 4

  /** The payday name the form starts with and returns to after each addition. */
  const DefaultPaydayName: string := "Payday"

  /** `billAccountId` is empty or the id of one of the accounts. */
  ghost predicate SelectionValid(accounts: seq<Account>, selected: string) {
    selected == "" || exists a :: a in accounts && a.id == selected
  }

  /** `accounts.find((a) => a.id !== id)`: the first account with another id. */
  function FirstOther(accounts: seq<Account>, id: string): (r: Option<Account>)
    ensures r.Some? ==> r.value in accounts && r.value.id != id
    ensures r.None? ==> forall a :: a in accounts ==> a.id == id
  {
    if accounts == [] then None
    else if accounts[0].id != id then Some(accounts[0])
    else FirstOther(accounts[1..], id)
  }

  /**
   * The bill account selected after removing account `id`: unchanged unless
   * it was the removed one; then the first other account when there were at
   * least two accounts, otherwise none.
   */
  function SelectionAfterRemoval(accounts: seq<Account>, selected: string, id: string): (r: string)
    ensures selected != id ==> r == selected
    ensures selected == id && |accounts| > 1 && FirstOther(accounts, id).Some? ==>
      r == FirstOther(accounts, id).value.id
    ensures selected == id && (|accounts| <= 1 || FirstOther(accounts, id).None?) ==> r == ""
  {
    if selected != id then selected
    else if |accounts| > 1 then
      match FirstOther(accounts, id)
      case Some(a) => a.id
      case None => ""
    else ""
  }

  /** Removing an account never leaves the bill account pointing at a missing account. */
  /**
   * `accounts.find((a) => a.id === selected)` for a valid, non-empty
   * selection: the lookup's `if (!account) return` cannot fire.
   */
  function SelectedAccount(accounts: seq<Account>, selected: string): (a: Account)
    requires selected != "" && SelectionValid(accounts, selected)
    ensures a in accounts && a.id == selected
  {
    SelectionFound(accounts, selected);
    accounts[Store.FindAccount(accounts, selected).value]
  }

  lemma SelectionFound(accounts: seq<Account>, selected: string)
    requires selected != "" && SelectionValid(accounts, selected)
    ensures Store.FindAccount(accounts, selected).Some?
  {
    var a :| a in accounts && a.id == selected;
    assert accounts[IndexOf(accounts, a)].id == selected;
  }

  /** Appending an account keeps the selection, and selects the account when it is the first. */
  lemma AdditionKeepsSelection(accounts: seq<Account>, selected: string, account: Account)
    requires SelectionValid(accounts, selected)
    ensures SelectionValid(accounts + [account], if accounts == [] then account.id else selected)
  {
    assert account in accounts + [account];
    if accounts != [] && selected != "" {
      var a :| a in accounts && a.id == selected;
      assert a in accounts + [account];
    }
  }

  lemma RemovalKeepsSelection(accounts: seq<Account>, selected: string, id: string)
    requires SelectionValid(accounts, selected)
    ensures SelectionValid(Store.RemovedAccount(accounts, id), SelectionAfterRemoval(accounts, selected, id))
  {
    var rest := Store.RemovedAccount(accounts, id);
    var r := SelectionAfterRemoval(accounts, selected, id);
    if r != "" {
      if selected != id {
        var a :| a in accounts && a.id == selected;
        assert a in rest;
      } else {
        var a := FirstOther(accounts, id).value;
        assert a in rest;
      }
    }
  }

  /**
   * Removing the selected account while another account remains selects
   * another one (if its id is not empty).
   */
  lemma RemovalSelectsOther(accounts: seq<Account>, id: string, other: Account)
    requires other in accounts && other.id != id && |accounts| > 1
    ensures var r := SelectionAfterRemoval(accounts, id, id);
      r != id && (r == "" || exists a :: a in Store.RemovedAccount(accounts, id) && a.id == r)
    ensures FirstOther(accounts, id).Some?
  {
    var f := FirstOther(accounts, id);
    assert f.Some?;
    assert f.value in Store.RemovedAccount(accounts, id);
  }

  /** The payday template `handleAddPayday` adds: no balances, active, generating. */
  function NewPaydayTemplate(id: string, name: string, recurrence: Recurrence, day: int): (t: Template)
    ensures !t.IsBillTemplate() && t.body.balances == map[] && t.autoGenerate && t.isActive
    ensures t.id == id && t.name == name && t.recurrence == recurrence && t.day == day
  {
    Template(id, name, day, None, None, None, None, recurrence, true, true, PaydayBody(map[]))
  }

  /** The bill template `handleAddBill` adds: the amount under the one account's name. */
  function NewBillTemplate(id: string, name: string, recurrence: Recurrence, day: int,
                           account: Account, amount: real): (t: Template)
    ensures t.IsBillTemplate() && t.autoGenerate && t.isActive
    ensures t.body.amounts.Keys == {account.name} && t.body.amounts[account.name] == amount
    ensures t.id == id && t.name == name && t.recurrence == recurrence && t.day == day
  {
    Template(id, name, day, None, None, None, None, recurrence, true, true,
      BillBody(map[account.name := amount], Missing, None))
  }

  /** The position of `a` in `s`. */
  ghost function IndexOf(s: seq<Account>, a: Account): (k: nat)
    requires a in s
    ensures k < |s| && s[k] == a
  {
    if s[0] == a then 0 else 1 + IndexOf(s[1..], a)
  }

  /** What the wizard hands to the completion callback. */
  datatype SetupData = SetupData(
    accounts: seq<Account>, templates: seq<Template>, paydayTemplates: seq<Template>, entries: seq<Entry>)

  /** The wizard's state. */
  class Wizard {
    var step: nat
    var accounts: seq<Account>
    var paydayTemplates: seq<Template>
    var billTemplates: seq<Template>
    var newAccount: string
    var pdName: string
    var pdRecurrence: Recurrence
    var pdDay: int
    var billName: string
    var billRecurrence: Recurrence
    var billAmount: string
    var billDay: int
    var billAccountId: string
    var isSubmitting: bool

    /** The step is in range and the selected bill account exists or is none. */
    ghost predicate Valid()
      reads this
    {
      step <= LastStep && SelectionValid(accounts, billAccountId)
    }

    constructor()
      ensures Valid() && step == 0 && !isSubmitting
      ensures accounts == [] && paydayTemplates == [] && billTemplates == [] && billAccountId == ""
      ensures newAccount == "" && billName == "" && billAmount == ""
      ensures pdName == DefaultPaydayName && pdRecurrence == BiWeekly && pdDay == 1
      ensures billRecurrence == Monthly && billDay == 1
    {
      step := 0;
      accounts, paydayTemplates, billTemplates := [], [], [];
      newAccount := "";
      pdName, pdRecurrence, pdDay := DefaultPaydayName, BiWeekly, 1;
      billName, billRecurrence, billAmount, billDay := "", Monthly, "", 1;
      billAccountId := "";
      isSubmitting := false;
    }

    /** `canProceed`: only the accounts step holds the wizard back, until an account exists. */
    function CanProceed(): (r: bool)
      reads this
      ensures !r <==> step == 1 && accounts == []
    {
      if step == 1 then |accounts| > 0 else true
    }

    /** The bill form has a name, an amount and an account (the add button's condition). */
    predicate BillReady()
      reads this
    {
      billName != "" && billAmount != "" && billAccountId != ""
    }

    /** `handleBack`: one step back, never before the first. */
    method Back()
      requires Valid()
      modifies this
      ensures Valid()
      ensures step == if old(step) > 0 then old(step) - 1 else 0
      ensures accounts == old(accounts) && billTemplates == old(billTemplates)
      ensures paydayTemplates == old(paydayTemplates) && billAccountId == old(billAccountId)
      ensures isSubmitting == old(isSubmitting)
    {
      if step > 0 {
        step := step - 1;
      }
    }

    /**
     * `handleNext`: one step forward, or on the last step `handleFinish`;
     * `accepted` says whether the completion callback succeeds.
     */
    method Next(year: int, uuid: nat -> string, accepted: bool) returns (sent: Option<SetupData>)
      requires Valid()
      modifies this
      ensures Valid()
      ensures old(step) < LastStep ==> step == old(step) + 1 && sent == None && isSubmitting == old(isSubmitting)
      ensures old(step) == LastStep ==> step == LastStep
      ensures old(step) == LastStep && old(isSubmitting) ==> sent == None && isSubmitting
      ensures old(step) == LastStep && !old(isSubmitting) ==>
        sent == Some(SetupData(accounts, billTemplates, paydayTemplates,
          Generator.Generated(billTemplates + paydayTemplates, year, uuid)))
        && isSubmitting == accepted
      ensures accounts == old(accounts) && billTemplates == old(billTemplates)
      ensures paydayTemplates == old(paydayTemplates) && billAccountId == old(billAccountId)
    {
      if step < LastStep {
        step := step + 1;
        sent := None;
      } else {
        sent := Finish(year, uuid, accepted);
      }
    }

    /**
     * `handleFinish`: while a submission is in progress, nothing; otherwise
     * the collected data and the year's generated entries go to the
     * callback, and the wizard stays submitting unless the callback fails.
     */
    method Finish(year: int, uuid: nat -> string, accepted: bool) returns (sent: Option<SetupData>)
      requires Valid()
      modifies this
      ensures Valid()
      ensures old(isSubmitting) ==> sent == None && isSubmitting
      ensures !old(isSubmitting) ==>
        sent == Some(SetupData(accounts, billTemplates, paydayTemplates,
          Generator.Generated(billTemplates + paydayTemplates, year, uuid)))
        && isSubmitting == accepted
      ensures step == old(step) && accounts == old(accounts) && billTemplates == old(billTemplates)
      ensures paydayTemplates == old(paydayTemplates) && billAccountId == old(billAccountId)
    {
      if isSubmitting {
        return None;
      }
      isSubmitting := true;
      var entries := Generator.GenerateEntries(billTemplates, paydayTemplates, year, uuid);
      sent := Some(SetupData(accounts, billTemplates, paydayTemplates, entries));
      if !accepted {
        isSubmitting := false;
      }
    }

    /**
     * `handleAddAccount`: a blank name does nothing; otherwise the trimmed
     * name is appended with the next order, the input is cleared, and the
     * first account becomes the bill account.
     */
    method AddAccount(freshId: string)
      requires Valid()
      modifies this
      ensures Valid()
      ensures Trim(old(newAccount)) == [] ==>
        accounts == old(accounts) && billAccountId == old(billAccountId) && newAccount == old(newAccount)
      ensures Trim(old(newAccount)) != [] ==>
        accounts == old(accounts) + [Account(freshId, Trim(old(newAccount)), |old(accounts)|)]
        && newAccount == ""
        && billAccountId == if old(accounts) == [] then freshId else old(billAccountId)
      ensures step == old(step) && billTemplates == old(billTemplates)
      ensures paydayTemplates == old(paydayTemplates) && isSubmitting == old(isSubmitting)
    {
      var name := Trim(newAccount);
      if name != [] {
        var account := Account(freshId, name, |accounts|);
        var selected := if accounts == [] then account.id else billAccountId;
        AdditionKeepsSelection(accounts, billAccountId, account);
        accounts, newAccount, billAccountId := accounts + [account], "", selected;
      }
    }

    /**
     * `handleRemoveAccount`: every account with that id goes; a removed bill
     * account is replaced by another account, or by none.
     */
    method RemoveAccount(id: string)
      requires Valid()
      modifies this
      ensures Valid()
      ensures accounts == Store.RemovedAccount(old(accounts), id)
      ensures billAccountId == SelectionAfterRemoval(old(accounts), old(billAccountId), id)
      ensures step == old(step) && billTemplates == old(billTemplates)
      ensures paydayTemplates == old(paydayTemplates) && isSubmitting == old(isSubmitting)
    {
      RemovalKeepsSelection(accounts, billAccountId, id);
      billAccountId := SelectionAfterRemoval(accounts, billAccountId, id);
      accounts := Store.RemovedAccount(accounts, id);
    }

    /** The account picker of the bill step: one of the accounts, or the blank "Select Account" choice. */
    method SelectBillAccount(id: string)
      requires Valid() && (id == "" || exists a :: a in accounts && a.id == id)
      modifies this
      ensures Valid() && billAccountId == id
      ensures step == old(step) && accounts == old(accounts) && billTemplates == old(billTemplates)
      ensures paydayTemplates == old(paydayTemplates) && isSubmitting == old(isSubmitting)
    {
      billAccountId := id;
    }

    /** `handleAddPayday`: appends the payday form's template and resets its name. */
    method AddPayday(freshId: string)
      requires Valid()
      modifies this
      ensures Valid()
      ensures paydayTemplates == old(paydayTemplates) + [NewPaydayTemplate(freshId, old(pdName), pdRecurrence, pdDay)]
      ensures pdName == DefaultPaydayName && pdRecurrence == old(pdRecurrence) && pdDay == old(pdDay)
      ensures step == old(step) && accounts == old(accounts) && billTemplates == old(billTemplates)
      ensures billAccountId == old(billAccountId) && isSubmitting == old(isSubmitting)
    {
      paydayTemplates := paydayTemplates + [NewPaydayTemplate(freshId, pdName, pdRecurrence, pdDay)];
      pdName := DefaultPaydayName;
    }

    /** `handleRemovePayday`: every payday template with that id goes. */
    method RemovePayday(id: string)
      requires Valid()
      modifies this
      ensures Valid()
      ensures paydayTemplates == Store.RemovedTemplate(old(paydayTemplates), id)
      ensures step == old(step) && accounts == old(accounts) && billTemplates == old(billTemplates)
      ensures billAccountId == old(billAccountId) && isSubmitting == old(isSubmitting)
    {
      paydayTemplates := Store.RemovedTemplate(paydayTemplates, id);
    }

    /**
     * `handleAddBill`, `amount` being `parseFloat(billAmount)`: with a name,
     * an amount and a bill account, a template carrying the amount under
     * that account's name is appended and the name and amount are cleared;
     * otherwise nothing happens. Since the selected account always exists,
     * the three inputs decide alone.
     */
    method AddBill(freshId: string, amount: real)
      requires Valid()
      modifies this
      ensures Valid()
      ensures !old(BillReady()) ==>
        billTemplates == old(billTemplates) && billName == old(billName) && billAmount == old(billAmount)
      ensures old(BillReady()) ==> billName == "" && billAmount == ""
      ensures old(BillReady()) ==>
        exists a :: (a in accounts && a.id == old(billAccountId)
          && billTemplates == old(billTemplates) + [NewBillTemplate(freshId, old(billName), billRecurrence, billDay, a, amount)])
      ensures step == old(step) && accounts == old(accounts) && paydayTemplates == old(paydayTemplates)
      ensures billAccountId == old(billAccountId) && isSubmitting == old(isSubmitting)
      ensures billRecurrence == old(billRecurrence) && billDay == old(billDay)
    {
      if !BillReady() {
        return;
      }
      var account := SelectedAccount(accounts, billAccountId);
      billTemplates, billName, billAmount :=
        billTemplates + [NewBillTemplate(freshId, billName, billRecurrence, billDay, account, amount)], "", "";
    }

    /** `handleRemoveBill`: every bill template with that id goes. */
    method RemoveBill(id: string)
      requires Valid()
      modifies this
      ensures Valid()
      ensures billTemplates == Store.RemovedTemplate(old(billTemplates), id)
      ensures step == old(step) && accounts == old(accounts) && paydayTemplates == old(paydayTemplates)
      ensures billAccountId == old(billAccountId) && isSubmitting == old(isSubmitting)
    {
      billTemplates := Store.RemovedTemplate(billTemplates, id);
    }
  }
}

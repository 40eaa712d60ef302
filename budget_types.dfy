/**
 * The records of the budget: accounts, dated entries (bills and paydays)
 * and the templates the entries are generated from. Amount maps are keyed
 * by account name; a key that is absent stands for "no amount".
 */
module BudgetTypes {
  import opened Wrappers

  /** An optional string is truthy: present and not empty. */
  predicate Truthy(s: Option<string>) {
    s.Some? && s.value != ""
  }

  /** An optional day is truthy: present and not 0. */
  predicate DayTruthy(d: Option<int>) {
    d.Some? && d.value != 0
  }

  /** Amounts per account name (`Partial<Record<string, number>>`). */
  type Amounts = map<string, real>

  datatype Account = Account(id: string, name: string, order: int)

  /**
   * What distinguishes a bill from a payday (the `type` tag): a bill has a
   * `paid` flag and the amounts it owes, a payday the balances it records.
   */
  datatype Kind =
    | Bill(paid: bool, amounts: Amounts)
    | Payday(balances: Amounts)

  /**
   * An entry of the ledger: day-of-month `date`, month label `month` such as
   * "Mar '26", and the two maps the period projection attaches.
   */
  datatype Entry = Entry(
    id: string,
    templateId: Option<string>,
    kind: Kind,
    date: int,
    month: string,
    name: string,
    calculatedBalances: Option<Amounts>,
    totalOwed: Option<Amounts>)
  {
    predicate IsBill() { kind.Bill? }
    predicate IsPayday() { kind.Payday? }
    /** `(e as Bill).paid` is truthy: only a bill can be paid. */
    predicate IsPaid() { kind.Bill? && kind.paid }
  }

  datatype Recurrence =
    | Weekly | BiWeekly | SemiMonthly | Monthly | Yearly | CustomInterval | Manual | OneTime

  datatype ManualDate = ManualDate(month: string, day: int)

  /**
   * A record field that may be missing altogether, present but `undefined`,
   * or present with a value. Only `intervalDays` needs the distinction: the
   * generator tests whether the key exists before reading it.
   */
  datatype Field<T> = Missing | Undefined | Present(value: T)

  /** The part of a template that depends on its kind. */
  datatype TemplateBody =
    | BillBody(amounts: Amounts, intervalDays: Field<int>, manualDates: Option<seq<ManualDate>>)
    | PaydayBody(balances: Amounts)

  /**
   * A bill template or a payday template; the generator tells them apart by
   * the presence of `amounts`, which is the `BillBody` case here.
   */
  datatype Template = Template(
    id: string,
    name: string,
    day: int,
    day2: Option<int>,
    month: Option<string>,
    startMonth: Option<string>,
    endMonth: Option<string>,
    recurrence: Recurrence,
    autoGenerate: bool,
    isActive: bool,
    body: TemplateBody)
  {
    predicate IsBillTemplate() { body.BillBody? }
  }

  /** The amounts map of a template: `amounts` for bills, `balances` for paydays. */
  function TemplateAmounts(t: Template): Amounts {
    match t.body
    case BillBody(a, _, _) => a
    case PaydayBody(b) => b
  }
}

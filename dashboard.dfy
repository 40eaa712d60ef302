/**
 * The dashboard's view of the projected entries: the optional filter that
 * hides entries more than eight weeks old, the optional filter that hides
 * paid bills and the paydays left without bills, and the handlers that turn
 * a click or a submitted form into the record sent to the store.
 *
 * The clock is a parameter: "now" is given as its day number (as
 * `Calendar.Serial` counts days) and the milliseconds since local midnight.
 */
module Dashboard {
  import opened Wrappers
  import opened Text
  import opened Calendar
  import opened BudgetTypes

  // ---------------------------------------------------------------------
  // Order-preserving filters

  /** `s.filter(keep)`. */
  function Filter(keep: Entry -> bool, s: seq<Entry>): (r: seq<Entry>)
    ensures |r| <= |s|
  {
    if s == [] then [] else (if keep(s[0]) then [s[0]] else []) + Filter(keep, s[1..])
  }

  /** `idx` lists, in increasing order, positions of `b` holding the elements of `a`. */
  predicate Embeds(a: seq<Entry>, b: seq<Entry>, idx: seq<nat>) {
    |idx| == |a|
    && (forall k :: 0 <= k < |a| ==> idx[k] < |b| && a[k] == b[idx[k]])
    && (forall k :: 0 < k < |idx| ==> idx[k - 1] < idx[k])
  }

  /** `a` is `b` with some elements left out and the rest in their order. */
  ghost predicate Subsequence(a: seq<Entry>, b: seq<Entry>) {
    exists idx :: Embeds(a, b, idx)
  }

  /** Shifts an embedding into `b` to an embedding into `[x] + b`, optionally matching `x` first. */
  lemma EmbedsCons(a: seq<Entry>, b: seq<Entry>, idx: seq<nat>, x: Entry, take: bool) returns (idx': seq<nat>)
    requires Embeds(a, b, idx)
    ensures take ==> Embeds([x] + a, [x] + b, idx')
    ensures !take ==> Embeds(a, [x] + b, idx')
  {
    var shifted := EmbedsShift(a, b, idx, x);
    if take {
      idx' := [0] + shifted;
      forall k | 0 < k < |idx'|
        ensures ([x] + a)[k] == ([x] + b)[idx'[k]]
      {
        assert idx'[k] == shifted[k - 1];
      }
    } else {
      idx' := shifted;
    }
  }

  /** Each position moved one place on: an embedding into `[x] + b`. */
  lemma EmbedsShift(a: seq<Entry>, b: seq<Entry>, idx: seq<nat>, x: Entry) returns (shifted: seq<nat>)
    requires Embeds(a, b, idx)
    ensures Embeds(a, [x] + b, shifted)
    ensures |shifted| == |idx| && forall k :: 0 <= k < |idx| ==> shifted[k] == idx[k] + 1
  {
    shifted := seq(|idx|, k requires 0 <= k < |idx| => idx[k] + 1);
    forall k | 0 <= k < |a|
      ensures a[k] == ([x] + b)[shifted[k]]
    {
      assert ([x] + b)[idx[k] + 1] == b[idx[k]];
    }
  }

  /**
   * The filter keeps exactly the elements that pass, in their order: the
   * result embeds into the input, and an element is in the result exactly
   * when it is in the input and passes.
   */
  lemma {:induction false} FilterMeaning(keep: Entry -> bool, s: seq<Entry>) returns (idx: seq<nat>)
    ensures Embeds(Filter(keep, s), s, idx)
    ensures forall k :: 0 <= k < |idx| ==> keep(s[idx[k]])
  {
    if s == [] {
      idx := [];
    } else {
      var rest := FilterMeaning(keep, s[1..]);
      assert s == [s[0]] + s[1..];
      idx := EmbedsCons(Filter(keep, s[1..]), s[1..], rest, s[0], keep(s[0]));
    }
  }

  /** An element is in the filtered list exactly when it is in the list and passes. */
  lemma {:induction false} FilterMembers(keep: Entry -> bool, s: seq<Entry>, x: Entry)
    ensures x in Filter(keep, s) <==> x in s && keep(x)
  {
    if s != [] {
      FilterMembers(keep, s[1..], x);
      assert x in s <==> x == s[0] || x in s[1..];
    }
  }

  // ---------------------------------------------------------------------
  // Hide old data

  const DayMs: int := 86400000

  /** The first part of `month.split(" '")`: the month name. */
  function MonthPart(month: string): string {
    Text.Field(month, " '", 0).value
  }

  /** The second part of `month.split(" '")`, or "26" when it is missing or empty (`yearShort || '26'`). */
  function YearPart(month: string): string {
    match Text.Field(month, " '", 1)
    case None => "26"
    case Some(y) => if y == "" then "26" else y
  }

  /** The month index of the month name, -1 when it is none of the twelve. */
  function MonthNumber(month: string): int {
    match IndexOf(MonthNames, MonthPart(month))
    case None => -1
    case Some(k) => k
  }

  /**
   * `new Date(2000 + parseInt(yearShort), monthIndex, entry.date)` at local
   * midnight; `None` for the invalid date an unparsable year gives.
   */
  function EntryDay(e: Entry): Option<Date> {
    match ParseInt(YearPart(e.month))
    case None => None
    case Some(yy) => Some(MakeDate(2000 + yy, MonthNumber(e.month), e.date))
  }

  /**
   * `entryDate >= cutoff`, where the cutoff is now moved 56 days back with
   * its time of day kept. An invalid date compares false.
   */
  predicate Recent(e: Entry, today: int, millis: int) {
    match EntryDay(e)
    case None => false
    case Some(d) => Serial(d) * DayMs >= (today - 56) * DayMs + millis
  }

  /** The hide-old filter. */
  function HideOld(data: seq<Entry>, today: int, millis: int): seq<Entry> {
    Filter(e => Recent(e, today, millis), data)
  }

  /**
   * An entry is recent exactly when its date is after the cutoff day, or on
   * the cutoff day itself when now is exactly midnight.
   */
  lemma RecentMeaning(e: Entry, today: int, millis: int)
    requires 0 <= millis < DayMs
    ensures Recent(e, today, millis) <==>
      EntryDay(e).Some?
      && (Serial(EntryDay(e).value) > today - 56 || (Serial(EntryDay(e).value) == today - 56 && millis == 0))
  {
    if EntryDay(e).Some? {
      var n := Serial(EntryDay(e).value);
      if n > today - 56 {
        assert n * DayMs >= (today - 56) * DayMs + DayMs;
      } else if n < today - 56 {
        assert n * DayMs <= (today - 56) * DayMs - DayMs;
      }
    }
  }

  /** The cutoff is exactly 56 days before the current day. */
  lemma CutoffDay(now: Date)
    requires Valid(now)
    ensures Serial(AddDays(now, -56)) == Serial(now) - 56
  {
  }

  /** Splitting a label the generator writes at `" '"` gives back the month name and the year digits. */
  lemma LabelParts(m: nat, n: nat)
    requires m < 12
    ensures MonthPart(MonthNames[m] + " '" + NatToString(n)) == MonthNames[m]
    ensures YearPart(MonthNames[m] + " '" + NatToString(n)) == NatToString(n)
  {
    var digits := NatToString(n);
    var s := MonthNames[m] + " '" + digits;
    assert |MonthNames[m]| == 3;
    assert forall i :: 0 <= i < 3 ==> s[i] != ' ';
    forall i | 0 <= i < 3 ensures !SliceAt(s, " '", i) {
      assert s[i..i + 2][0] == s[i];
    }
    assert SliceAt(s, " '", 3);
    assert Find(s, " '") == Some(3);
    assert s[..3] == MonthNames[m];
    assert s[5..] == digits;
    forall i | 0 <= i ensures !SliceAt(digits, " '", i) {
      if i < |digits| - 1 {
        assert IsDigit(digits[i]);
        assert digits[i..i + 2][0] == digits[i];
      }
    }
    assert Find(digits, " '") == None;
  }

  /** A label the generator writes names that day of that month of year 2000 + YY. */
  lemma EntryDayOfLabel(e: Entry, m: nat, n: nat)
    requires m < 12 && 1 <= e.date <= DaysInMonth(2000 + n, m)
    requires e.month == MonthNames[m] + " '" + NatToString(n)
    ensures EntryDay(e) == Some(Date(2000 + n, m, e.date))
  {
    LabelParts(m, n);
    ParseIntOfNatToString(n);
    assert IndexOf(MonthNames, MonthNames[m]) == Some(m) by {
      var k := IndexOf(MonthNames, MonthNames[m]).value;
      MonthNamesDistinct(k, m);
    }
    MakeDateInMonth(2000 + n, m, e.date);
  }

  /** An unknown month name is month -1: December of the year before. */
  lemma UnknownMonthIsDecember(e: Entry)
    requires MonthPart(e.month) !in MonthNames
    ensures MonthNumber(e.month) == -1
  {
  }

  // ---------------------------------------------------------------------
  // Hide paid

  /** The `paid` filter: paydays and unpaid bills stay. */
  predicate Unpaid(e: Entry) {
    e.IsPayday() || !e.kind.paid
  }

  /** A payday stays when the next element exists and is a bill; a bill always stays. */
  predicate KeepAt(u: seq<Entry>, i: nat)
    requires i < |u|
  {
    !u[i].IsPayday() || (i + 1 < |u| && !u[i + 1].IsPayday())
  }

  /** The elements of `u[..n]` that stay, in order. */
  function Kept(u: seq<Entry>, n: nat): (r: seq<Entry>)
    requires n <= |u|
    ensures |r| <= n
  {
    if n == 0 then [] else Kept(u, n - 1) + (if KeepAt(u, n - 1) then [u[n - 1]] else [])
  }

  /** Drops each payday of `u` not directly followed by a bill. */
  function Collapse(u: seq<Entry>): seq<Entry> {
    Kept(u, |u|)
  }

  /** The loop over the paid-filtered list, with its look-ahead loop that stops at once. */
  method CollapsePaydays(u: seq<Entry>) returns (result: seq<Entry>)
    ensures result == Collapse(u)
  {
    result := [];
    var i := 0;
    while i < |u|
      invariant 0 <= i <= |u|
      invariant result == Kept(u, i)
    {
      var current := u[i];
      if current.IsPayday() {
        var hasUnpaidBills := false;
        var j := i + 1;
        var stop := false;
        while j < |u| && !stop
          invariant j == i + 1
          invariant !stop ==> !hasUnpaidBills
          invariant stop ==> j < |u| && (hasUnpaidBills <==> !u[j].IsPayday())
          decreases if stop then 0 else 1
        {
          // both branches leave the loop, as the two `break`s do
          if u[j].IsPayday() {
            stop := true;
          } else {
            hasUnpaidBills := true;
            stop := true;
          }
        }
        assert hasUnpaidBills <==> KeepAt(u, i);
        if hasUnpaidBills {
          result := result + [current];
        }
      } else {
        result := result + [current];
      }
      i := i + 1;
    }
  }

  /** The hide-paid filter: paid bills go, then paydays left without a bill after them. */
  method HidePaid(visible: seq<Entry>) returns (result: seq<Entry>)
    ensures result == Collapse(Filter(Unpaid, visible))
  {
    var unpaid := Filter(Unpaid, visible);
    result := CollapsePaydays(unpaid);
  }

  /** What the dashboard shows. */
  method FinalVisible(data: seq<Entry>, hideOldData: bool, hidePaid: bool, today: int, millis: int)
    returns (result: seq<Entry>)
    ensures var visible := if hideOldData then HideOld(data, today, millis) else data;
      hidePaid ==> result == Collapse(Filter(Unpaid, visible))
    ensures !hideOldData && !hidePaid ==> result == data
    ensures !hidePaid ==> result == (if hideOldData then HideOld(data, today, millis) else data)
  {
    var visible := if hideOldData then HideOld(data, today, millis) else data;
    if hidePaid {
      result := HidePaid(visible);
    } else {
      result := visible;
    }
  }

  /** `Kept(u, n)` embeds into `u[..n]` at the positions that stay. */
  lemma {:induction false} KeptEmbeds(u: seq<Entry>, n: nat) returns (idx: seq<nat>)
    requires n <= |u|
    ensures Embeds(Kept(u, n), u, idx)
    ensures forall k :: 0 <= k < |idx| ==> idx[k] < n
  {
    if n == 0 {
      idx := [];
    } else {
      var prior := KeptEmbeds(u, n - 1);
      idx := KeptStep(u, n, prior);
    }
  }

  /** Extends the embedding of `Kept(u, n - 1)` by position `n - 1` when it stays. */
  lemma KeptStep(u: seq<Entry>, n: nat, prior: seq<nat>) returns (idx: seq<nat>)
    requires 0 < n <= |u|
    requires Embeds(Kept(u, n - 1), u, prior)
    requires forall k :: 0 <= k < |prior| ==> prior[k] < n - 1
    ensures Embeds(Kept(u, n), u, idx)
    ensures forall k :: 0 <= k < |idx| ==> idx[k] < n
  {
    var last: nat := n - 1;
    if KeepAt(u, last) {
      EmbedsSnoc(Kept(u, last), u, prior, last);
      idx := prior + [last];
    } else {
      idx := prior;
    }
  }

  lemma EmbedsSnoc(a: seq<Entry>, b: seq<Entry>, idx: seq<nat>, i: nat)
    requires Embeds(a, b, idx) && i < |b|
    requires forall k :: 0 <= k < |idx| ==> idx[k] < i
    ensures Embeds(a + [b[i]], b, idx + [i])
    ensures forall k :: 0 <= k < |idx + [i]| ==> (idx + [i])[k] <= i
  {
  }

  /** Collapsing keeps the order and leaves out only elements. */
  lemma CollapseSubsequence(u: seq<Entry>)
    ensures Subsequence(Collapse(u), u)
  {
    var idx := KeptEmbeds(u, |u|);
  }

  /**
   * In the collapsed list every payday is directly followed by a bill, and
   * the last element is not a payday: no period is shown without a bill.
   */
  lemma {:induction false} KeptPaydaysFollowed(u: seq<Entry>, n: nat)
    requires n <= |u|
    ensures var r := Kept(u, n);
      (forall k :: 0 <= k < |r| - 1 && r[k].IsPayday() ==> !r[k + 1].IsPayday())
      && (r != [] && r[|r| - 1].IsPayday() ==> n < |u| && !u[n].IsPayday())
  {
    if n > 0 {
      KeptPaydaysFollowed(u, n - 1);
    }
  }

  lemma CollapsePaydaysFollowed(u: seq<Entry>)
    ensures var r := Collapse(u);
      forall k :: 0 <= k < |r| && r[k].IsPayday() ==> k + 1 < |r| && !r[k + 1].IsPayday()
  {
    KeptPaydaysFollowed(u, |u|);
  }

  /** A bill is kept by the collapse, so the collapse drops paydays only. */
  lemma {:induction false} KeptBills(u: seq<Entry>, n: nat)
    requires n <= |u|
    ensures Filter(IsBillEntry, Kept(u, n)) == Filter(IsBillEntry, u[..n])
  {
    if n > 0 {
      KeptBills(u, n - 1);
      FilterAppend(IsBillEntry, Kept(u, n - 1), if KeepAt(u, n - 1) then [u[n - 1]] else []);
      FilterAppend(IsBillEntry, u[..n - 1], [u[n - 1]]);
      assert u[..n] == u[..n - 1] + [u[n - 1]];
    }
  }

  function IsBillEntry(e: Entry): bool {
    e.IsBill()
  }

  /** Filtering distributes over concatenation. */
  lemma {:induction false} FilterAppend(keep: Entry -> bool, a: seq<Entry>, b: seq<Entry>)
    ensures Filter(keep, a + b) == Filter(keep, a) + Filter(keep, b)
  {
    if a == [] {
      assert a + b == b;
    } else {
      var head := if keep(a[0]) then [a[0]] else [];
      FilterAppend(keep, a[1..], b);
      assert (a + b)[0] == a[0] && (a + b)[1..] == a[1..] + b;
      assert Filter(keep, a + b) == head + Filter(keep, a[1..] + b);
      assert Filter(keep, a) == head + Filter(keep, a[1..]);
      AppendAssoc(head, Filter(keep, a[1..]), Filter(keep, b));
    }
  }

  lemma AppendAssoc(x: seq<Entry>, y: seq<Entry>, z: seq<Entry>)
    ensures x + (y + z) == (x + y) + z
  {
  }

  /** The bills shown with hide-paid on are exactly the unpaid bills, in order. */
  lemma HidePaidBills(visible: seq<Entry>)
    ensures Filter(IsBillEntry, Collapse(Filter(Unpaid, visible))) == Filter(IsUnpaidBill, visible)
  {
    var u := Filter(Unpaid, visible);
    KeptBills(u, |u|);
    assert u[..|u|] == u;
    BillsOfUnpaid(visible);
  }

  function IsUnpaidBill(e: Entry): bool {
    e.IsBill() && !e.kind.paid
  }

  lemma {:induction false} BillsOfUnpaid(s: seq<Entry>)
    ensures Filter(IsBillEntry, Filter(Unpaid, s)) == Filter(IsUnpaidBill, s)
  {
    if s != [] {
      BillsOfUnpaid(s[1..]);
      FilterAppend(IsBillEntry, if Unpaid(s[0]) then [s[0]] else [], Filter(Unpaid, s[1..]));
    }
  }

  // ---------------------------------------------------------------------
  // Handlers

  /** `entries.find((e) => e.id === id)`: the position of the first entry with that id. */
  function FindIndex(entries: seq<Entry>, id: string): (r: Option<nat>)
    ensures r.Some? ==>
      r.value < |entries| && entries[r.value].id == id && forall j :: 0 <= j < r.value ==> entries[j].id != id
    ensures r.None? ==> forall j :: 0 <= j < |entries| ==> entries[j].id != id
  {
    if entries == [] then None
    else if entries[0].id == id then Some(0)
    else match FindIndex(entries[1..], id)
      case None => None
      case Some(k) => Some(k + 1)
  }

  function FindById(entries: seq<Entry>, id: string): Option<Entry> {
    match FindIndex(entries, id)
    case None => None
    case Some(k) => Some(entries[k])
  }

  /** A bill with its `paid` flag flipped; anything else as it is. */
  function Flip(e: Entry): Entry {
    match e.kind
    case Bill(paid, amounts) => e.(kind := Bill(!paid, amounts))
    case Payday(_) => e
  }

  /** `handleTogglePaid(id)`: the record sent to `updateEntry`, if any. */
  function TogglePaid(entries: seq<Entry>, id: string): Option<Entry> {
    match FindById(entries, id)
    case Some(e) => if e.IsBill() then Some(Flip(e)) else None
    case None => None
  }

  /**
   * A toggle is sent exactly when the first entry with the id is a bill; it
   * differs from that entry in the flag alone, and toggling it back restores
   * the entry.
   */
  lemma TogglePaidMeaning(entries: seq<Entry>, id: string)
    ensures TogglePaid(entries, id).Some? <==>
      exists i :: 0 <= i < |entries| && entries[i].id == id && entries[i].IsBill()
        && forall j :: 0 <= j < i ==> entries[j].id != id
    ensures TogglePaid(entries, id).Some? ==>
      var e := FindById(entries, id).value;
      var t := TogglePaid(entries, id).value;
      t.IsBill() && t.kind.paid == !e.kind.paid && t.kind.amounts == e.kind.amounts
      && t.(kind := e.kind) == e && Flip(t) == e
  {
    match FindIndex(entries, id)
    case None =>
    case Some(k) =>
      forall i | 0 <= i < |entries| && entries[i].id == id && (forall j :: 0 <= j < i ==> entries[j].id != id)
        ensures i == k
      {
      }
      if entries[k].IsBill() {
        assert 0 <= k < |entries| && entries[k].id == id && entries[k].IsBill();
      }
  }

  /** The fields a bill form submits: `Omit<Bill, 'id' | 'type' | 'paid'>`. */
  datatype BillData = BillData(name: string, date: int, month: string, amounts: Amounts)

  /** The fields a payday form submits: `Omit<Payday, 'id' | 'type'>`. */
  datatype PaydayData = PaydayData(name: string, date: int, month: string, balances: Amounts)

  /** The form fields of an entry, read back. */
  function BillDataOf(e: Entry): BillData
    requires e.IsBill()
  {
    BillData(e.name, e.date, e.month, e.kind.amounts)
  }

  function PaydayDataOf(e: Entry): PaydayData
    requires e.IsPayday()
  {
    PaydayData(e.name, e.date, e.month, e.kind.balances)
  }

  /** `handleAddBill`: a new unpaid bill under a fresh id. */
  function NewBill(d: BillData, id: string): (e: Entry)
    ensures e.IsBill()
  {
    Entry(id, None, Bill(false, d.amounts), d.date, d.month, d.name, None, None)
  }

  /** `handleAddPayday`: a new payday under a fresh id. */
  function NewPayday(d: PaydayData, id: string): (e: Entry)
    ensures e.IsPayday()
  {
    Entry(id, None, Payday(d.balances), d.date, d.month, d.name, None, None)
  }

  /** `{ ...entry, ...billData }`: the form fields replace the bill's own. */
  function MergeBill(e: Entry, d: BillData): (r: Entry)
    requires e.IsBill()
    ensures r.IsBill()
  {
    e.(name := d.name, date := d.date, month := d.month, kind := Bill(e.kind.paid, d.amounts))
  }

  /** `{ ...entry, ...paydayData }`. */
  function MergePayday(e: Entry, d: PaydayData): (r: Entry)
    requires e.IsPayday()
    ensures r.IsPayday()
  {
    e.(name := d.name, date := d.date, month := d.month, kind := Payday(d.balances))
  }

  /**
   * A new bill is unpaid, carries the id it was given and reads back as the
   * submitted form; a new payday likewise.
   */
  lemma NewEntriesReadBack(b: BillData, p: PaydayData, id: string)
    ensures !NewBill(b, id).kind.paid && NewBill(b, id).id == id && BillDataOf(NewBill(b, id)) == b
    ensures NewPayday(p, id).id == id && PaydayDataOf(NewPayday(p, id)) == p
  {
  }

  /** An edit reads back as the submitted form and keeps id, template link and `paid`. */
  lemma MergeReadsBack(e: Entry, b: BillData, f: Entry, p: PaydayData)
    requires e.IsBill() && f.IsPayday()
    ensures BillDataOf(MergeBill(e, b)) == b
    ensures MergeBill(e, b).id == e.id && MergeBill(e, b).templateId == e.templateId
      && MergeBill(e, b).kind.paid == e.kind.paid
    ensures MergeBill(e, BillDataOf(e)) == e
    ensures PaydayDataOf(MergePayday(f, p)) == p
    ensures MergePayday(f, p).id == f.id && MergePayday(f, p).templateId == f.templateId
    ensures MergePayday(f, PaydayDataOf(f)) == f
  {
  }

  /** The record `handleEditBill` sends, if any. */
  function EditedBill(entries: seq<Entry>, editingId: Option<string>, d: BillData): Option<Entry> {
    if !Truthy(editingId) then None
    else match FindById(entries, editingId.value)
      case Some(e) => if e.IsBill() then Some(MergeBill(e, d)) else None
      case None => None
  }

  /** The record `handleEditPayday` sends, if any. */
  function EditedPayday(entries: seq<Entry>, editingId: Option<string>, d: PaydayData): Option<Entry> {
    if !Truthy(editingId) then None
    else match FindById(entries, editingId.value)
      case Some(e) => if e.IsPayday() then Some(MergePayday(e, d)) else None
      case None => None
  }

  /**
   * An edit is sent only for an entry of the matching kind under the edited
   * id, and it is that entry with the form merged in.
   */
  lemma EditMeaning(entries: seq<Entry>, editingId: Option<string>, b: BillData, p: PaydayData)
    ensures EditedBill(entries, editingId, b).Some? ==>
      Truthy(editingId) && FindById(entries, editingId.value).Some?
      && FindById(entries, editingId.value).value.IsBill()
      && EditedBill(entries, editingId, b).value == MergeBill(FindById(entries, editingId.value).value, b)
      && EditedBill(entries, editingId, b).value.id == editingId.value
    ensures EditedPayday(entries, editingId, p).Some? ==>
      Truthy(editingId) && FindById(entries, editingId.value).Some?
      && FindById(entries, editingId.value).value.IsPayday()
      && EditedPayday(entries, editingId, p).value == MergePayday(FindById(entries, editingId.value).value, p)
      && EditedPayday(entries, editingId, p).value.id == editingId.value
  {
  }

  /** The dashboard's editing state: the entry being edited and which form is open. */
  class EditState {
    var editingId: Option<string>
    var billFormOpen: bool
    var paydayFormOpen: bool

    constructor()
      ensures editingId == None && !billFormOpen && !paydayFormOpen
    {
      editingId := None;
      billFormOpen := false;
      paydayFormOpen := false;
    }

    /** `handleEditBill`: on success the edit ends and the bill form closes; otherwise nothing changes. */
    method EditBill(entries: seq<Entry>, d: BillData) returns (update: Option<Entry>)
      modifies this
      ensures update == EditedBill(entries, old(editingId), d)
      ensures update.Some? ==> editingId == None && !billFormOpen && paydayFormOpen == old(paydayFormOpen)
      ensures update.None? ==>
        editingId == old(editingId) && billFormOpen == old(billFormOpen) && paydayFormOpen == old(paydayFormOpen)
    {
      update := EditedBill(entries, editingId, d);
      if update.Some? {
        editingId := None;
        billFormOpen := false;
      }
    }

    /** `handleEditPayday`: on success the edit ends and the payday form closes. */
    method EditPayday(entries: seq<Entry>, d: PaydayData) returns (update: Option<Entry>)
      modifies this
      ensures update == EditedPayday(entries, old(editingId), d)
      ensures update.Some? ==> editingId == None && !paydayFormOpen && billFormOpen == old(billFormOpen)
      ensures update.None? ==>
        editingId == old(editingId) && billFormOpen == old(billFormOpen) && paydayFormOpen == old(paydayFormOpen)
    {
      update := EditedPayday(entries, editingId, d);
      if update.Some? {
        editingId := None;
        paydayFormOpen := false;
      }
    }
  }
}

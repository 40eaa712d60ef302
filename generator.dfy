/**
 * The recurrence expander: it turns bill and payday templates into the
 * dated entries of one year. Each template yields a list of slots (a month
 * label and a day of month) according to its recurrence, restricted to the
 * template's month window, and every slot becomes one entry. The fresh ids
 * the source draws from `uuid()` are a caller-supplied function of the
 * entry's position in the output.
 */
module Generator {
  import opened Wrappers
  import opened Text
  import opened Calendar
  import opened BudgetTypes

  /** The month name and day of month an entry is created for. */
  datatype Slot = Slot(month: string, day: int)

  /**
   * The window bound a `startMonth`/`endMonth` name selects: a month name
   * gives its index, and a missing, empty or unknown name gives `fallback`.
   */
  function WindowIndex(name: Option<string>, fallback: nat): (r: nat)
    requires fallback < 12
    ensures r < 12
  {
    match name
    case None => fallback
    case Some(s) => if s == "" then fallback else MonthIndex(s).GetOr(fallback)
  }

  /** A month name selects its own index; anything else selects the fallback. */
  lemma WindowIndexMeaning(name: Option<string>, fallback: nat)
    requires fallback < 12
    ensures name.Some? && name.value in MonthNames ==> MonthNames[WindowIndex(name, fallback)] == name.value
    ensures name.None? || name.value !in MonthNames ==> WindowIndex(name, fallback) == fallback
  {
    if name.Some? {
      MonthIndexMeaning(name.value);
    }
  }

  function StartIndex(t: Template): nat {
    WindowIndex(t.startMonth, 0)
  }

  function EndIndex(t: Template): nat {
    WindowIndex(t.endMonth, 11)
  }

  /** `m` names a month whose index lies in `[lo, hi]`. */
  predicate InWindow(m: string, lo: int, hi: int) {
    MonthIndex(m).Some? && lo <= MonthIndex(m).value <= hi
  }

  /** The last two characters of the year's decimal form (`year.toString().slice(-2)`). */
  function YearSuffix(year: int): string {
    LastTwo(IntToString(year))
  }

  /** The month label of an entry: the month name, a space, an apostrophe and the year suffix. */
  function MonthLabel(month: string, suffix: string): string {
    month + " '" + suffix
  }

  /** `createEntry(month, day)` with the fresh id `id`. */
  function CreateEntry(t: Template, suffix: string, s: Slot, id: string): Entry {
    var kind := match t.body
      case BillBody(amounts, _, _) => Bill(false, amounts)
      case PaydayBody(balances) => Payday(balances);
    Entry(id, Some(t.id), kind, s.day, MonthLabel(s.month, suffix), t.name, None, None)
  }

  /** The entries for `slots`, the `i`-th taking the id for output position `base + i`. */
  function Emit(t: Template, suffix: string, slots: seq<Slot>, uuid: nat -> string, base: nat): (r: seq<Entry>)
    ensures |r| == |slots|
  {
    if slots == [] then []
    else
      Emit(t, suffix, slots[..|slots| - 1], uuid, base)
      + [CreateEntry(t, suffix, slots[|slots| - 1], uuid(base + |slots| - 1))]
  }

  /** Emitting one more slot appends one entry, with the id for the next position. */
  lemma EmitLast(t: Template, suffix: string, slots: seq<Slot>, s: Slot, uuid: nat -> string, base: nat)
    ensures Emit(t, suffix, slots + [s], uuid, base) == Emit(t, suffix, slots, uuid, base) + [CreateEntry(t, suffix, s, uuid(base + |slots|))]
  {
    var longer := slots + [s];
    assert longer[..|longer| - 1] == slots;
  }

  /** The loop step: pushing the entry for one more slot extends the emitted entries by that slot. */
  lemma EmitSnoc(entries: seq<Entry>, out: seq<Entry>, t: Template, suffix: string, slots: seq<Slot>, s: Slot, uuid: nat -> string)
    requires out == entries + Emit(t, suffix, slots, uuid, |entries|)
    ensures out + [CreateEntry(t, suffix, s, uuid(|out|))] == entries + Emit(t, suffix, slots + [s], uuid, |entries|)
  {
    var before := Emit(t, suffix, slots, uuid, |entries|);
    var x := CreateEntry(t, suffix, s, uuid(|entries| + |slots|));
    EmitLast(t, suffix, slots, s, uuid, |entries|);
    assert |out| == |entries| + |slots|;
    assert uuid(|out|) == uuid(|entries| + |slots|);
    assert CreateEntry(t, suffix, s, uuid(|out|)) == x;
    SnocStep(entries, out, before, x, Emit(t, suffix, slots + [s], uuid, |entries|));
  }

  /** Appending `x` to `entries + mid` appends it to `mid`. */
  lemma SnocStep<T>(entries: seq<T>, out: seq<T>, mid: seq<T>, x: T, whole: seq<T>)
    requires out == entries + mid && whole == mid + [x]
    ensures out + [x] == entries + whole
  {
  }

  lemma AppendAssoc<T>(a: seq<T>, b: seq<T>, c: seq<T>)
    ensures a + b + c == a + (b + c)
  {
  }

  /** The `i`-th emitted entry is created from the `i`-th slot with the id for position `base + i`. */
  lemma {:induction false} EmitAt(t: Template, suffix: string, slots: seq<Slot>, uuid: nat -> string, base: nat)
    ensures forall i :: 0 <= i < |slots| ==>
      Emit(t, suffix, slots, uuid, base)[i] == CreateEntry(t, suffix, slots[i], uuid(base + i))
  {
    if slots != [] {
      EmitAt(t, suffix, slots[..|slots| - 1], uuid, base);
    }
  }

  // ---------------------------------------------------------------------
  // Slots per recurrence
  // ---------------------------------------------------------------------

  /** One-time and yearly: `template.month`, or January when it is unset or empty. */
  function OneTimeSlots(t: Template, lo: nat, hi: nat): seq<Slot> {
    var target := if Truthy(t.month) then t.month.value else "Jan";
    if InWindow(target, lo, hi) then [Slot(target, t.day)] else []
  }

  /** Monthly: the in-window months among the first `n`, each on `day`. */
  function MonthlySlots(lo: nat, hi: nat, day: int, n: nat): seq<Slot>
    requires n <= 12
  {
    if n == 0 then []
    else
      MonthlySlots(lo, hi, day, n - 1)
      + (if lo <= n - 1 <= hi then [Slot(MonthNames[n - 1], day)] else [])
  }

  /** Semi-monthly: per in-window month among the first `n`, `day` and then `day2` when it is truthy. */
  function SemiMonthlySlots(lo: nat, hi: nat, day: int, day2: Option<int>, n: nat): seq<Slot>
    requires n <= 12
  {
    if n == 0 then []
    else
      SemiMonthlySlots(lo, hi, day, day2, n - 1)
      + (if lo <= n - 1 <= hi then
           [Slot(MonthNames[n - 1], day)] + (if DayTruthy(day2) then [Slot(MonthNames[n - 1], day2.value)] else [])
         else [])
  }

  /** Manual: the in-window dates among the first `n` of the list, in list order. */
  function ManualSlots(dates: seq<ManualDate>, lo: nat, hi: nat, n: nat): seq<Slot>
    requires n <= |dates|
  {
    if n == 0 then []
    else
      ManualSlots(dates, lo, hi, n - 1)
      + (if InWindow(dates[n - 1].month, lo, hi) then [Slot(dates[n - 1].month, dates[n - 1].day)] else [])
  }

  /**
   * The day step of the interval recurrences: 7 for weekly, otherwise 14,
   * except that a custom-interval template that has an `intervalDays` key
   * uses its value, or 30 when that value is 0 or undefined.
   */
  function Interval(t: Template): (r: int)
    ensures r != 0
  {
    if t.recurrence == Weekly then 7
    else if t.recurrence == CustomInterval && t.body.BillBody? && !t.body.intervalDays.Missing? then
      (if t.body.intervalDays.Present? && t.body.intervalDays.value != 0 then t.body.intervalDays.value else 30)
    else 14
  }

  /** How far the cursor still is from leaving `year` in the direction of `interval`. */
  function CursorDistance(cur: Date, year: int, interval: int): nat
    requires Valid(cur)
  {
    if cur.year != year then 0
    else
      SerialWithinYear(cur);
      if interval > 0 then DaysBeforeYear(year + 1) - Serial(cur)
      else Serial(cur) - DaysBeforeYear(year) + 1
  }

  /** Each step of the cursor brings it closer to leaving the year. */
  lemma CursorDistanceDecreases(cur: Date, year: int, interval: int)
    requires Valid(cur) && cur.year == year && interval != 0
    ensures CursorDistance(AddDays(cur, interval), year, interval) < CursorDistance(cur, year, interval)
  {
    var next := AddDays(cur, interval);
    SerialWithinYear(cur);
    if next.year == year {
      SerialWithinYear(next);
    }
  }

  /** The dates the cursor visits: from `cur`, `interval` days at a time, while in `year`. */
  function IntervalCursors(cur: Date, year: int, interval: int): seq<Date>
    requires Valid(cur) && interval != 0
    decreases CursorDistance(cur, year, interval)
  {
    if cur.year != year then []
    else
      CursorDistanceDecreases(cur, year, interval);
      [cur] + IntervalCursors(AddDays(cur, interval), year, interval)
  }

  /** The slots of the visited dates whose month is in `[lo, hi]`, in visiting order. */
  function IntervalSlots(cursors: seq<Date>, lo: nat, hi: nat): seq<Slot> {
    if cursors == [] then []
    else
      var c := cursors[|cursors| - 1];
      IntervalSlots(cursors[..|cursors| - 1], lo, hi)
      + (if lo <= c.month <= hi && c.month < 12 then [Slot(MonthNames[c.month], c.day)] else [])
  }

  /** The first date of an interval recurrence: `new Date(year, startMonthIndex, template.day)`. */
  function IntervalStart(t: Template, year: int): Date {
    MakeDate(year, StartIndex(t), t.day)
  }

  /** The slots `processTemplate` creates entries for. */
  function Slots(t: Template, year: int): seq<Slot> {
    var lo := StartIndex(t);
    var hi := EndIndex(t);
    if !t.autoGenerate || !t.isActive then []
    else
      match t.recurrence
      case OneTime => OneTimeSlots(t, lo, hi)
      case Yearly => OneTimeSlots(t, lo, hi)
      case Monthly => MonthlySlots(lo, hi, t.day, 12)
      case SemiMonthly => SemiMonthlySlots(lo, hi, t.day, t.day2, 12)
      case Manual =>
        if t.body.BillBody? && t.body.manualDates.Some? then
          ManualSlots(t.body.manualDates.value, lo, hi, |t.body.manualDates.value|)
        else []
      case _ =>
        IntervalSlots(IntervalCursors(IntervalStart(t, year), year, Interval(t)), lo, hi)
  }

  /** The slot lists of `ts`, one per template. */
  function SlotTable(ts: seq<Template>, year: int): (r: seq<seq<Slot>>)
    ensures |r| == |ts|
  {
    seq(|ts|, i requires 0 <= i < |ts| => Slots(ts[i], year))
  }

  /** The entries of `ts` whose slot lists are `table`, in template order and numbered from 0. */
  function Expand(ts: seq<Template>, table: seq<seq<Slot>>, suffix: string, uuid: nat -> string): seq<Entry>
    requires |table| == |ts|
  {
    if ts == [] then []
    else
      var prior := Expand(ts[..|ts| - 1], table[..|ts| - 1], suffix, uuid);
      prior + Emit(ts[|ts| - 1], suffix, table[|ts| - 1], uuid, |prior|)
  }

  /** The entries `generateEntries` produces from the templates `ts` for `year`. */
  function Generated(ts: seq<Template>, year: int, uuid: nat -> string): seq<Entry> {
    Expand(ts, SlotTable(ts, year), YearSuffix(year), uuid)
  }

  /** Expanding one more template appends its entries, numbered after the earlier ones. */
  lemma ExpandSnoc(ts: seq<Template>, table: seq<seq<Slot>>, t: Template, slots: seq<Slot>, suffix: string, uuid: nat -> string)
    requires |table| == |ts|
    ensures Expand(ts + [t], table + [slots], suffix, uuid)
      == Expand(ts, table, suffix, uuid) + Emit(t, suffix, slots, uuid, |Expand(ts, table, suffix, uuid)|)
  {
    var longer := ts + [t];
    var wider := table + [slots];
    assert longer[..|longer| - 1] == ts;
    assert wider[..|longer| - 1] == table;
  }

  // ---------------------------------------------------------------------
  // The imperative expander
  // ---------------------------------------------------------------------

  /** `processTemplate`: appends the template's entries to `entries`. */
  method ProcessTemplate(t: Template, year: int, uuid: nat -> string, entries: seq<Entry>)
    returns (out: seq<Entry>)
    ensures out == entries + Emit(t, YearSuffix(year), Slots(t, year), uuid, |entries|)
  {
    var suffix := YearSuffix(year);
    out := entries;
    if !t.autoGenerate || !t.isActive {
      return;
    }
    var lo := StartIndex(t);
    var hi := EndIndex(t);
    match t.recurrence {
      case OneTime =>
        out := PushOneTime(t, year, suffix, uuid, entries, lo, hi);
      case Yearly =>
        out := PushOneTime(t, year, suffix, uuid, entries, lo, hi);
      case Monthly =>
        out := PushMonthly(t, year, suffix, uuid, entries, lo, hi);
      case SemiMonthly =>
        out := PushSemiMonthly(t, year, suffix, uuid, entries, lo, hi);
      case Manual =>
        if t.body.BillBody? && t.body.manualDates.Some? {
          out := PushManual(t, t.body.manualDates.value, suffix, uuid, entries, lo, hi);
        }
      case _ =>
        out := PushInterval(t, year, suffix, uuid, entries, lo, hi);
    }
  }

  method PushOneTime(t: Template, year: int, suffix: string, uuid: nat -> string, entries: seq<Entry>, lo: nat, hi: nat)
    returns (out: seq<Entry>)
    ensures out == entries + Emit(t, suffix, OneTimeSlots(t, lo, hi), uuid, |entries|)
  {
    var target := if Truthy(t.month) then t.month.value else "Jan";
    out := entries;
    var k := MonthIndex(target);
    if k.Some? && k.value >= lo && k.value <= hi {
      EmitSnoc(entries, out, t, suffix, [], Slot(target, t.day), uuid);
      out := out + [CreateEntry(t, suffix, Slot(target, t.day), uuid(|out|))];
    }
  }

  /** The `forEach` over the months of the monthly branch. */
  method PushMonthly(t: Template, year: int, suffix: string, uuid: nat -> string, entries: seq<Entry>, lo: nat, hi: nat)
    returns (out: seq<Entry>)
    ensures out == entries + Emit(t, suffix, MonthlySlots(lo, hi, t.day, 12), uuid, |entries|)
  {
    out := entries;
    var idx := 0;
    while idx < 12
      invariant 0 <= idx <= 12
      invariant out == entries + Emit(t, suffix, MonthlySlots(lo, hi, t.day, idx), uuid, |entries|)
    {
      MonthlyStep(entries, out, t, suffix, uuid, lo, hi, idx);
      if lo <= idx <= hi {
        out := out + [CreateEntry(t, suffix, Slot(MonthNames[idx], t.day), uuid(|out|))];
      }
      idx := idx + 1;
    }
  }

  /** The `forEach` over the months of the semi-monthly branch. */
  method PushSemiMonthly(t: Template, year: int, suffix: string, uuid: nat -> string, entries: seq<Entry>, lo: nat, hi: nat)
    returns (out: seq<Entry>)
    ensures out == entries + Emit(t, suffix, SemiMonthlySlots(lo, hi, t.day, t.day2, 12), uuid, |entries|)
  {
    out := entries;
    var idx := 0;
    while idx < 12
      invariant 0 <= idx <= 12
      invariant out == entries + Emit(t, suffix, SemiMonthlySlots(lo, hi, t.day, t.day2, idx), uuid, |entries|)
    {
      SemiMonthlyStep(entries, out, t, suffix, uuid, lo, hi, idx);
      if lo <= idx <= hi {
        out := out + [CreateEntry(t, suffix, Slot(MonthNames[idx], t.day), uuid(|out|))];
        if DayTruthy(t.day2) {
          out := out + [CreateEntry(t, suffix, Slot(MonthNames[idx], t.day2.value), uuid(|out|))];
        }
      }
      idx := idx + 1;
    }
  }

  /** The `forEach` over `manualDates` of the manual branch. */
  method PushManual(t: Template, dates: seq<ManualDate>, suffix: string, uuid: nat -> string, entries: seq<Entry>, lo: nat, hi: nat)
    returns (out: seq<Entry>)
    ensures out == entries + Emit(t, suffix, ManualSlots(dates, lo, hi, |dates|), uuid, |entries|)
  {
    out := entries;
    var i := 0;
    while i < |dates|
      invariant 0 <= i <= |dates|
      invariant out == entries + Emit(t, suffix, ManualSlots(dates, lo, hi, i), uuid, |entries|)
    {
      ManualStep(entries, out, t, suffix, uuid, dates, lo, hi, i);
      if InWindow(dates[i].month, lo, hi) {
        out := out + [CreateEntry(t, suffix, Slot(dates[i].month, dates[i].day), uuid(|out|))];
      }
      i := i + 1;
    }
  }

  lemma MonthlyStep(entries: seq<Entry>, out: seq<Entry>, t: Template, suffix: string, uuid: nat -> string,
                    lo: nat, hi: nat, idx: nat)
    requires idx < 12
    requires out == entries + Emit(t, suffix, MonthlySlots(lo, hi, t.day, idx), uuid, |entries|)
    ensures lo <= idx <= hi ==>
      out + [CreateEntry(t, suffix, Slot(MonthNames[idx], t.day), uuid(|out|))]
      == entries + Emit(t, suffix, MonthlySlots(lo, hi, t.day, idx + 1), uuid, |entries|)
    ensures !(lo <= idx <= hi) ==>
      out == entries + Emit(t, suffix, MonthlySlots(lo, hi, t.day, idx + 1), uuid, |entries|)
  {
    var before := MonthlySlots(lo, hi, t.day, idx);
    if lo <= idx <= hi {
      assert MonthlySlots(lo, hi, t.day, idx + 1) == before + [Slot(MonthNames[idx], t.day)];
      EmitSnoc(entries, out, t, suffix, before, Slot(MonthNames[idx], t.day), uuid);
    } else {
      assert MonthlySlots(lo, hi, t.day, idx + 1) == before;
    }
  }

  lemma SemiMonthlyStep(entries: seq<Entry>, out: seq<Entry>, t: Template, suffix: string, uuid: nat -> string,
                        lo: nat, hi: nat, idx: nat)
    requires idx < 12
    requires out == entries + Emit(t, suffix, SemiMonthlySlots(lo, hi, t.day, t.day2, idx), uuid, |entries|)
    ensures lo <= idx <= hi && !DayTruthy(t.day2) ==>
      out + [CreateEntry(t, suffix, Slot(MonthNames[idx], t.day), uuid(|out|))]
      == entries + Emit(t, suffix, SemiMonthlySlots(lo, hi, t.day, t.day2, idx + 1), uuid, |entries|)
    ensures lo <= idx <= hi && DayTruthy(t.day2) ==>
      var out1 := out + [CreateEntry(t, suffix, Slot(MonthNames[idx], t.day), uuid(|out|))];
      out1 + [CreateEntry(t, suffix, Slot(MonthNames[idx], t.day2.value), uuid(|out1|))]
      == entries + Emit(t, suffix, SemiMonthlySlots(lo, hi, t.day, t.day2, idx + 1), uuid, |entries|)
    ensures !(lo <= idx <= hi) ==>
      out == entries + Emit(t, suffix, SemiMonthlySlots(lo, hi, t.day, t.day2, idx + 1), uuid, |entries|)
  {
    var before := SemiMonthlySlots(lo, hi, t.day, t.day2, idx);
    if lo <= idx <= hi {
      var first := Slot(MonthNames[idx], t.day);
      EmitSnoc(entries, out, t, suffix, before, first, uuid);
      if DayTruthy(t.day2) {
        var second := Slot(MonthNames[idx], t.day2.value);
        var out1 := out + [CreateEntry(t, suffix, first, uuid(|out|))];
        assert SemiMonthlySlots(lo, hi, t.day, t.day2, idx + 1) == before + [first] + [second];
        EmitSnoc(entries, out1, t, suffix, before + [first], second, uuid);
      } else {
        assert SemiMonthlySlots(lo, hi, t.day, t.day2, idx + 1) == before + [first];
      }
    } else {
      assert SemiMonthlySlots(lo, hi, t.day, t.day2, idx + 1) == before;
    }
  }

  lemma ManualStep(entries: seq<Entry>, out: seq<Entry>, t: Template, suffix: string, uuid: nat -> string,
                   dates: seq<ManualDate>, lo: nat, hi: nat, i: nat)
    requires i < |dates|
    requires out == entries + Emit(t, suffix, ManualSlots(dates, lo, hi, i), uuid, |entries|)
    ensures InWindow(dates[i].month, lo, hi) ==>
      out + [CreateEntry(t, suffix, Slot(dates[i].month, dates[i].day), uuid(|out|))]
      == entries + Emit(t, suffix, ManualSlots(dates, lo, hi, i + 1), uuid, |entries|)
    ensures !InWindow(dates[i].month, lo, hi) ==>
      out == entries + Emit(t, suffix, ManualSlots(dates, lo, hi, i + 1), uuid, |entries|)
  {
    var before := ManualSlots(dates, lo, hi, i);
    if InWindow(dates[i].month, lo, hi) {
      assert ManualSlots(dates, lo, hi, i + 1) == before + [Slot(dates[i].month, dates[i].day)];
      EmitSnoc(entries, out, t, suffix, before, Slot(dates[i].month, dates[i].day), uuid);
    } else {
      assert ManualSlots(dates, lo, hi, i + 1) == before;
    }
  }

  lemma IntervalStep(entries: seq<Entry>, out: seq<Entry>, t: Template, suffix: string, uuid: nat -> string,
                     visited: seq<Date>, cur: Date, lo: nat, hi: nat)
    requires Valid(cur)
    requires out == entries + Emit(t, suffix, IntervalSlots(visited, lo, hi), uuid, |entries|)
    ensures lo <= cur.month <= hi ==>
      out + [CreateEntry(t, suffix, Slot(MonthNames[cur.month], cur.day), uuid(|out|))]
      == entries + Emit(t, suffix, IntervalSlots(visited + [cur], lo, hi), uuid, |entries|)
    ensures !(lo <= cur.month <= hi) ==>
      out == entries + Emit(t, suffix, IntervalSlots(visited + [cur], lo, hi), uuid, |entries|)
  {
    var before := IntervalSlots(visited, lo, hi);
    assert (visited + [cur])[..|visited|] == visited;
    if lo <= cur.month <= hi {
      assert IntervalSlots(visited + [cur], lo, hi) == before + [Slot(MonthNames[cur.month], cur.day)];
      EmitSnoc(entries, out, t, suffix, before, Slot(MonthNames[cur.month], cur.day), uuid);
    } else {
      assert IntervalSlots(visited + [cur], lo, hi) == before;
    }
  }

  /** The `while` loop of the weekly, bi-weekly and custom-interval branch. */
  method PushInterval(t: Template, year: int, suffix: string, uuid: nat -> string, entries: seq<Entry>, lo: nat, hi: nat)
    returns (out: seq<Entry>)
    requires lo == StartIndex(t) && hi == EndIndex(t)
    requires t.recurrence in {Weekly, BiWeekly, CustomInterval}
    ensures out == entries + Emit(t, suffix, IntervalSlots(IntervalCursors(IntervalStart(t, year), year, Interval(t)), lo, hi), uuid, |entries|)
  {
    var interval := Interval(t);
    var start := MakeDate(year, lo, t.day);
    var cur := start;
    ghost var visited: seq<Date> := [];
    out := entries;
    while cur.year == year
      invariant Valid(cur)
      invariant visited + IntervalCursors(cur, year, interval) == IntervalCursors(start, year, interval)
      invariant out == entries + Emit(t, suffix, IntervalSlots(visited, lo, hi), uuid, |entries|)
      decreases CursorDistance(cur, year, interval)
    {
      IntervalStep(entries, out, t, suffix, uuid, visited, cur, lo, hi);
      if lo <= cur.month <= hi {
        out := out + [CreateEntry(t, suffix, Slot(MonthNames[cur.month], cur.day), uuid(|out|))];
      }
      CursorStep(visited, cur, start, year, interval);
      visited := visited + [cur];
      cur := AddDays(cur, interval);
    }
    CursorEnd(visited, cur, start, year, interval);
  }

  /** One step of the cursor: the visited dates grow by the current one, and the cursor moves towards the year's end. */
  lemma CursorStep(visited: seq<Date>, cur: Date, start: Date, year: int, interval: int)
    requires Valid(cur) && Valid(start) && interval != 0 && cur.year == year
    requires visited + IntervalCursors(cur, year, interval) == IntervalCursors(start, year, interval)
    ensures (visited + [cur]) + IntervalCursors(AddDays(cur, interval), year, interval) == IntervalCursors(start, year, interval)
    ensures CursorDistance(AddDays(cur, interval), year, interval) < CursorDistance(cur, year, interval)
  {
    CursorDistanceDecreases(cur, year, interval);
    AppendAssoc(visited, [cur], IntervalCursors(AddDays(cur, interval), year, interval));
  }

  /** Once the cursor has left the year, the visited dates are all the cursor dates. */
  lemma CursorEnd(visited: seq<Date>, cur: Date, start: Date, year: int, interval: int)
    requires Valid(cur) && Valid(start) && interval != 0 && cur.year != year
    requires visited + IntervalCursors(cur, year, interval) == IntervalCursors(start, year, interval)
    ensures visited == IntervalCursors(start, year, interval)
  {
    assert visited + [] == visited;
  }

  /** `generateEntries`: the bill templates' entries, then the payday templates'. */
  method GenerateEntries(templates: seq<Template>, paydayTemplates: seq<Template>, year: int, uuid: nat -> string)
    returns (entries: seq<Entry>)
    ensures entries == Generated(templates + paydayTemplates, year, uuid)
  {
    entries := ProcessEach(templates, year, uuid, []);
    entries := ProcessEach(paydayTemplates, year, uuid, entries);
    ProcessedBoth(templates, paydayTemplates, year, uuid);
  }

  /**
   * `ts.forEach(processTemplate)` starting from `entries`: each template's
   * entries appended in turn, numbered after those already there.
   */
  function Processed(ts: seq<Template>, year: int, uuid: nat -> string, entries: seq<Entry>): seq<Entry>
    decreases |ts|
  {
    if ts == [] then entries
    else Processed(ts[1..], year, uuid, entries + Emit(ts[0], YearSuffix(year), Slots(ts[0], year), uuid, |entries|))
  }

  /** `ts.forEach(processTemplate)` on the list `entries`. */
  method ProcessEach(ts: seq<Template>, year: int, uuid: nat -> string, entries: seq<Entry>)
    returns (out: seq<Entry>)
    ensures out == Processed(ts, year, uuid, entries)
  {
    out := entries;
    var i := 0;
    while i < |ts|
      invariant 0 <= i <= |ts|
      invariant Processed(ts[i..], year, uuid, out) == Processed(ts, year, uuid, entries)
    {
      var next := ProcessTemplate(ts[i], year, uuid, out);
      ProcessedStep(ts, i, year, uuid, out, next);
      out := next;
      i := i + 1;
    }
    assert ts[i..] == [];
  }

  /** Processing template `i` leaves the rest of the run to process. */
  lemma ProcessedStep(ts: seq<Template>, i: nat, year: int, uuid: nat -> string, out: seq<Entry>, next: seq<Entry>)
    requires i < |ts|
    requires next == out + Emit(ts[i], YearSuffix(year), Slots(ts[i], year), uuid, |out|)
    ensures Processed(ts[i..], year, uuid, out) == Processed(ts[i + 1..], year, uuid, next)
  {
    assert ts[i..][0] == ts[i];
    assert ts[i..][1..] == ts[i + 1..];
  }

  /** Generating for one more template appends its entries, numbered after the earlier ones. */
  lemma GeneratedSnoc(pre: seq<Template>, t: Template, year: int, uuid: nat -> string)
    ensures Generated(pre + [t], year, uuid)
      == Generated(pre, year, uuid) + Emit(t, YearSuffix(year), Slots(t, year), uuid, |Generated(pre, year, uuid)|)
  {
    assert SlotTable(pre + [t], year) == SlotTable(pre, year) + [Slots(t, year)];
    ExpandSnoc(pre, SlotTable(pre, year), t, Slots(t, year), YearSuffix(year), uuid);
  }

  /** Processing `ts` after the entries generated for `pre` gives the entries generated for `pre + ts`. */
  lemma {:induction false} ProcessedGenerated(pre: seq<Template>, ts: seq<Template>, year: int, uuid: nat -> string)
    ensures Processed(ts, year, uuid, Generated(pre, year, uuid)) == Generated(pre + ts, year, uuid)
    decreases |ts|
  {
    if ts == [] {
      assert pre + ts == pre;
    } else {
      var t, rest := ts[0], ts[1..];
      GeneratedSnoc(pre, t, year, uuid);
      ProcessedGenerated(pre + [t], rest, year, uuid);
      ConsSplit(pre, ts);
    }
  }

  lemma ConsSplit<T>(pre: seq<T>, ts: seq<T>)
    requires ts != []
    ensures pre + [ts[0]] + ts[1..] == pre + ts
  {
  }

  /** The two runs of `generateEntries` together give the entries generated for both lists. */
  lemma ProcessedBoth(templates: seq<Template>, paydayTemplates: seq<Template>, year: int, uuid: nat -> string)
    ensures Processed(paydayTemplates, year, uuid, Processed(templates, year, uuid, []))
      == Generated(templates + paydayTemplates, year, uuid)
  {
    assert Generated([], year, uuid) == [];
    ProcessedGenerated([], templates, year, uuid);
    assert [] + templates == templates;
    ProcessedGenerated(templates, paydayTemplates, year, uuid);
  }

  // ---------------------------------------------------------------------
  // Properties
  // ---------------------------------------------------------------------

  /** The cursor only visits valid dates of the target year, `interval` days apart, starting at `cur`. */
  lemma {:induction false} CursorsValid(cur: Date, year: int, interval: int)
    requires Valid(cur) && interval != 0
    ensures forall i :: 0 <= i < |IntervalCursors(cur, year, interval)| ==>
      var c := IntervalCursors(cur, year, interval)[i];
      Valid(c) && c.year == year && Serial(c) == Serial(cur) + i * interval
    decreases CursorDistance(cur, year, interval)
  {
    if cur.year == year {
      var next := AddDays(cur, interval);
      CursorDistanceDecreases(cur, year, interval);
      CursorsValid(next, year, interval);
      var cs := IntervalCursors(cur, year, interval);
      assert cs == [cur] + IntervalCursors(next, year, interval);
      forall i | 0 < i < |cs|
        ensures Serial(cs[i]) == Serial(cur) + i * interval
      {
        assert cs[i] == IntervalCursors(next, year, interval)[i - 1];
        assert (i - 1) * interval + interval == i * interval;
      }
    }
  }

  /**
   * The loop terminates within a year: with a positive step the dates it
   * visits span less than the year's length, so there are at most
   * ⌈366 / interval⌉ of them; a negative step is bounded likewise.
   */
  lemma CursorCountBound(cur: Date, year: int, interval: int)
    requires Valid(cur) && interval != 0
    requires |IntervalCursors(cur, year, interval)| > 0
    ensures (|IntervalCursors(cur, year, interval)| - 1) * (if interval > 0 then interval else -interval) < DaysInYear(year)
  {
    var cs := IntervalCursors(cur, year, interval);
    var n := |cs|;
    CursorsValid(cur, year, interval);
    var first := cs[0];
    var last := cs[n - 1];
    SpanWithinYear(first, last, year);
    StepsWithin(n - 1, interval, Serial(last) - Serial(first), DaysInYear(year));
  }

  /** `k` steps of size `step` that span less than `d` either way have total length below `d`. */
  lemma StepsWithin(k: int, step: int, span: int, d: int)
    requires k >= 0 && span == k * step && -d < span < d
    ensures k * (if step > 0 then step else -step) < d
  {
    if step < 0 {
      assert k * (-step) == -span;
    }
  }

  /** Two valid dates of the same year lie less than a year apart. */
  lemma SpanWithinYear(first: Date, last: Date, year: int)
    requires Valid(first) && Valid(last) && first.year == year && last.year == year
    ensures -DaysInYear(year) < Serial(last) - Serial(first) < DaysInYear(year)
  {
    SerialWithinYear(first);
    SerialWithinYear(last);
    YearStep(year);
  }

  /** The interval is 7 for weekly and 14 for bi-weekly; custom-interval uses `intervalDays`, 30 for 0 or undefined, 14 for a missing key. */
  lemma IntervalValue(t: Template)
    ensures t.recurrence == Weekly ==> Interval(t) == 7
    ensures t.recurrence == BiWeekly ==> Interval(t) == 14
    ensures t.recurrence == CustomInterval && t.body.BillBody? ==>
      Interval(t) == match t.body.intervalDays
        case Present(v) => if v == 0 then 30 else v
        case Undefined => 30
        case Missing => 14
    ensures t.recurrence == CustomInterval && t.body.PaydayBody? ==> Interval(t) == 14
  {
  }

  /** A template that is switched off contributes no entries. */
  lemma InactiveTemplateEmitsNothing(t: Template, year: int, uuid: nat -> string, base: nat)
    requires !t.autoGenerate || !t.isActive
    ensures Emit(t, YearSuffix(year), Slots(t, year), uuid, base) == []
  {
  }

  lemma {:induction false} MonthlySlotsInWindow(lo: nat, hi: nat, day: int, n: nat)
    requires n <= 12
    ensures forall i :: 0 <= i < |MonthlySlots(lo, hi, day, n)| ==> InWindow(MonthlySlots(lo, hi, day, n)[i].month, lo, hi)
  {
    if n > 0 {
      MonthlySlotsInWindow(lo, hi, day, n - 1);
      MonthIndexOfName(n - 1);
    }
  }

  lemma {:induction false} SemiMonthlySlotsInWindow(lo: nat, hi: nat, day: int, day2: Option<int>, n: nat)
    requires n <= 12
    ensures forall i :: 0 <= i < |SemiMonthlySlots(lo, hi, day, day2, n)| ==>
      InWindow(SemiMonthlySlots(lo, hi, day, day2, n)[i].month, lo, hi)
  {
    if n > 0 {
      SemiMonthlySlotsInWindow(lo, hi, day, day2, n - 1);
      MonthIndexOfName(n - 1);
    }
  }

  lemma {:induction false} ManualSlotsInWindow(dates: seq<ManualDate>, lo: nat, hi: nat, n: nat)
    requires n <= |dates|
    ensures forall i :: 0 <= i < |ManualSlots(dates, lo, hi, n)| ==> InWindow(ManualSlots(dates, lo, hi, n)[i].month, lo, hi)
  {
    if n > 0 {
      ManualSlotsInWindow(dates, lo, hi, n - 1);
    }
  }

  lemma {:induction false} IntervalSlotsInWindow(cursors: seq<Date>, lo: nat, hi: nat)
    ensures forall i :: 0 <= i < |IntervalSlots(cursors, lo, hi)| ==> InWindow(IntervalSlots(cursors, lo, hi)[i].month, lo, hi)
  {
    if cursors != [] {
      var c := cursors[|cursors| - 1];
      IntervalSlotsInWindow(cursors[..|cursors| - 1], lo, hi);
      if 0 <= c.month < 12 {
        MonthIndexOfName(c.month);
      }
    }
  }

  /** Every generated slot names a month inside the template's `[startMonth, endMonth]` window. */
  lemma SlotsInWindow(t: Template, year: int)
    ensures forall i :: 0 <= i < |Slots(t, year)| ==> InWindow(Slots(t, year)[i].month, StartIndex(t), EndIndex(t))
  {
    var lo := StartIndex(t);
    var hi := EndIndex(t);
    if t.autoGenerate && t.isActive {
      match t.recurrence
      case OneTime =>
      case Yearly =>
      case Monthly => MonthlySlotsInWindow(lo, hi, t.day, 12);
      case SemiMonthly => SemiMonthlySlotsInWindow(lo, hi, t.day, t.day2, 12);
      case Manual =>
        if t.body.BillBody? && t.body.manualDates.Some? {
          ManualSlotsInWindow(t.body.manualDates.value, lo, hi, |t.body.manualDates.value|);
        }
      case _ =>
        IntervalSlotsInWindow(IntervalCursors(IntervalStart(t, year), year, Interval(t)), lo, hi);
    }
  }

  /** How many of the first `n` months lie in `[lo, hi]`. */
  function WindowCount(lo: nat, hi: nat, n: nat): nat {
    if n <= lo || hi < lo then 0 else (if n <= hi + 1 then n else hi + 1) - lo
  }

  /** Monthly: one slot per in-window month, in calendar order, each on `day`. */
  lemma {:induction false} MonthlySlotsExact(lo: nat, hi: nat, day: int, n: nat)
    requires n <= 12
    ensures |MonthlySlots(lo, hi, day, n)| == WindowCount(lo, hi, n)
    ensures forall k :: 0 <= k < WindowCount(lo, hi, n) ==>
      lo + k < 12 && MonthlySlots(lo, hi, day, n)[k] == Slot(MonthNames[lo + k], day)
  {
    if n > 0 {
      MonthlySlotsExact(lo, hi, day, n - 1);
    }
  }

  /**
   * Semi-monthly: per in-window month, `day` then `day2` when `day2` is
   * truthy; when it is absent or 0 the slots are exactly the monthly ones.
   */
  lemma {:induction false} SemiMonthlySlotsExact(lo: nat, hi: nat, day: int, day2: Option<int>, n: nat)
    requires n <= 12
    ensures !DayTruthy(day2) ==> SemiMonthlySlots(lo, hi, day, day2, n) == MonthlySlots(lo, hi, day, n)
    ensures DayTruthy(day2) ==>
      var s := SemiMonthlySlots(lo, hi, day, day2, n);
      var m := MonthlySlots(lo, hi, day, n);
      |s| == 2 * |m| &&
      forall k :: 0 <= k < |m| ==> s[2 * k] == m[k] && s[2 * k + 1] == Slot(m[k].month, day2.value)
  {
    if n > 0 {
      SemiMonthlySlotsExact(lo, hi, day, day2, n - 1);
    }
  }

  /**
   * One-time and yearly: at most one slot, on `template.day` in
   * `template.month`, present exactly when that month lies in the window;
   * January when the month is unset or empty, and none for an unknown name.
   */
  lemma OneTimeSlotsExact(t: Template, lo: nat, hi: nat)
    ensures |OneTimeSlots(t, lo, hi)| <= 1
    ensures forall s :: s in OneTimeSlots(t, lo, hi) ==>
      s.day == t.day && s.month == if Truthy(t.month) then t.month.value else "Jan"
    ensures Truthy(t.month) ==> (OneTimeSlots(t, lo, hi) != [] <==> InWindow(t.month.value, lo, hi))
    ensures !Truthy(t.month) ==> (OneTimeSlots(t, lo, hi) != [] <==> lo == 0)
    ensures Truthy(t.month) && t.month.value !in MonthNames ==> OneTimeSlots(t, lo, hi) == []
  {
    if Truthy(t.month) {
      MonthIndexMeaning(t.month.value);
    } else {
      MonthIndexOfName(0);
    }
  }

  /** A manual template that has no `manualDates` list, and every payday template, emits nothing for manual recurrence. */
  lemma ManualWithoutDatesEmitsNothing(t: Template, year: int)
    requires t.recurrence == Manual
    requires t.body.PaydayBody? || t.body.manualDates.None?
    ensures Slots(t, year) == []
  {
  }

  /** The manual slots are in-window dates of the list, and the full list of dates in the window is kept. */
  lemma {:induction false} ManualSlotsFromDates(dates: seq<ManualDate>, lo: nat, hi: nat, n: nat)
    requires n <= |dates|
    ensures |ManualSlots(dates, lo, hi, n)| <= n
    ensures (forall j :: 0 <= j < n ==> InWindow(dates[j].month, lo, hi)) ==>
      ManualSlots(dates, lo, hi, n) == seq(n, j requires 0 <= j < n => Slot(dates[j].month, dates[j].day))
  {
    if n > 0 {
      ManualSlotsFromDates(dates, lo, hi, n - 1);
    }
  }

  /** The entry at output position `k` carries the id drawn for `k`. */
  lemma {:induction false} ExpandIds(ts: seq<Template>, table: seq<seq<Slot>>, suffix: string, uuid: nat -> string)
    requires |table| == |ts|
    ensures forall k :: 0 <= k < |Expand(ts, table, suffix, uuid)| ==> Expand(ts, table, suffix, uuid)[k].id == uuid(k)
  {
    if ts != [] {
      var n := |ts| - 1;
      ExpandIds(ts[..n], table[..n], suffix, uuid);
      var prior := Expand(ts[..n], table[..n], suffix, uuid);
      var em := Emit(ts[n], suffix, table[n], uuid, |prior|);
      var all := Expand(ts, table, suffix, uuid);
      assert all == prior + em;
      EmitIds(ts[n], suffix, table[n], uuid, |prior|);
      forall k | 0 <= k < |all|
        ensures all[k].id == uuid(k)
      {
        if k >= |prior| {
          assert all[k] == em[k - |prior|];
        }
      }
    }
  }

  /** The `i`-th emitted entry carries the id for position `base + i`. */
  lemma EmitIds(t: Template, suffix: string, slots: seq<Slot>, uuid: nat -> string, base: nat)
    ensures forall i :: 0 <= i < |slots| ==> Emit(t, suffix, slots, uuid, base)[i].id == uuid(base + i)
  {
    EmitAt(t, suffix, slots, uuid, base);
  }

  /** With an injective id source, the generated ids are pairwise distinct. */
  lemma GeneratedIdsDistinct(ts: seq<Template>, year: int, uuid: nat -> string)
    requires forall a: nat, b: nat :: a != b ==> uuid(a) != uuid(b)
    ensures forall i, j :: 0 <= i < j < |Generated(ts, year, uuid)| ==>
      Generated(ts, year, uuid)[i].id != Generated(ts, year, uuid)[j].id
  {
    ExpandIds(ts, SlotTable(ts, year), YearSuffix(year), uuid);
  }

  /**
   * `e` is an entry `createEntry` makes from `t` for one of `slots`: it names
   * the template, copies its name, carries the slot's month label and day,
   * has no projection yet, and is an unpaid bill with the template's amounts
   * when the template has amounts, otherwise a payday with its balances.
   */
  predicate Made(e: Entry, t: Template, slots: seq<Slot>, suffix: string) {
    e.templateId == Some(t.id) && e.name == t.name
    && (exists s :: s in slots && e.month == MonthLabel(s.month, suffix) && e.date == s.day)
    && e.calculatedBalances.None? && e.totalOwed.None?
    && match t.body
       case BillBody(amounts, _, _) => e.kind == Bill(false, amounts)
       case PaydayBody(balances) => e.kind == Payday(balances)
  }

  /** `e` was made from one of the templates `ts` for one of that template's slots in `year`. */
  predicate EntryFrom(e: Entry, ts: seq<Template>, year: int) {
    exists i :: 0 <= i < |ts| && Made(e, ts[i], Slots(ts[i], year), YearSuffix(year))
  }

  /** Every emitted entry is made from the template for one of the slots. */
  lemma EmitMade(t: Template, suffix: string, slots: seq<Slot>, uuid: nat -> string, base: nat)
    ensures forall j :: 0 <= j < |slots| ==> Made(Emit(t, suffix, slots, uuid, base)[j], t, slots, suffix)
  {
    EmitAt(t, suffix, slots, uuid, base);
    forall j | 0 <= j < |slots|
      ensures Made(Emit(t, suffix, slots, uuid, base)[j], t, slots, suffix)
    {
      assert slots[j] in slots;
    }
  }

  /** Expanding more templates only appends: the entries of `a` stay a prefix. */
  lemma {:induction false} ExpandPrefix(a: seq<Template>, ta: seq<seq<Slot>>, b: seq<Template>, tb: seq<seq<Slot>>,
                                         suffix: string, uuid: nat -> string)
    requires |ta| == |a| && |tb| == |b|
    ensures |Expand(a, ta, suffix, uuid)| <= |Expand(a + b, ta + tb, suffix, uuid)|
    ensures Expand(a + b, ta + tb, suffix, uuid)[..|Expand(a, ta, suffix, uuid)|] == Expand(a, ta, suffix, uuid)
    decreases |b|
  {
    if b == [] {
      assert a + b == a;
      assert ta + tb == ta;
    } else {
      var n := |b| - 1;
      assert a + b == (a + b[..n]) + [b[n]];
      assert ta + tb == (ta + tb[..n]) + [tb[n]];
      ExpandPrefix(a, ta, b[..n], tb[..n], suffix, uuid);
      ExpandSnoc(a + b[..n], ta + tb[..n], b[n], tb[n], suffix, uuid);
      var head := Expand(a, ta, suffix, uuid);
      var prior := Expand(a + b[..n], ta + tb[..n], suffix, uuid);
      var em := Emit(b[n], suffix, tb[n], uuid, |prior|);
      assert (prior + em)[..|head|] == prior[..|head|];
    }
  }

  /** The entries that expanding `b` after `a` appends are each made from a template of `b`. */
  lemma {:induction false} ExpandTail(a: seq<Template>, ta: seq<seq<Slot>>, b: seq<Template>, tb: seq<seq<Slot>>,
                                       suffix: string, uuid: nat -> string)
    requires |ta| == |a| && |tb| == |b|
    ensures forall k :: |Expand(a, ta, suffix, uuid)| <= k < |Expand(a + b, ta + tb, suffix, uuid)| ==>
      exists i :: 0 <= i < |b| && Made(Expand(a + b, ta + tb, suffix, uuid)[k], b[i], tb[i], suffix)
    decreases |b|
  {
    if b == [] {
      assert a + b == a;
      assert ta + tb == ta;
    } else {
      var n := |b| - 1;
      assert a + b == (a + b[..n]) + [b[n]];
      assert ta + tb == (ta + tb[..n]) + [tb[n]];
      ExpandTail(a, ta, b[..n], tb[..n], suffix, uuid);
      ExpandSnoc(a + b[..n], ta + tb[..n], b[n], tb[n], suffix, uuid);
      var prior := Expand(a + b[..n], ta + tb[..n], suffix, uuid);
      var em := Emit(b[n], suffix, tb[n], uuid, |prior|);
      var all := Expand(a + b, ta + tb, suffix, uuid);
      EmitMade(b[n], suffix, tb[n], uuid, |prior|);
      forall k | |Expand(a, ta, suffix, uuid)| <= k < |all|
        ensures exists i :: 0 <= i < |b| && Made(all[k], b[i], tb[i], suffix)
      {
        if k < |prior| {
          assert all[k] == prior[k];
          var i :| 0 <= i < n && Made(prior[k], b[..n][i], tb[..n][i], suffix);
          assert b[..n][i] == b[i] && tb[..n][i] == tb[i];
        } else {
          assert all[k] == em[k - |prior|];
          assert Made(all[k], b[n], tb[n], suffix);
        }
      }
    }
  }

  /** The slot table of `a + b` is that of `a` followed by that of `b`. */
  lemma SlotTableAppend(a: seq<Template>, b: seq<Template>, year: int)
    ensures SlotTable(a + b, year) == SlotTable(a, year) + SlotTable(b, year)
  {
    var l := SlotTable(a + b, year);
    var r := SlotTable(a, year) + SlotTable(b, year);
    forall i | 0 <= i < |l|
      ensures l[i] == r[i]
    {
      if i < |a| {
        assert (a + b)[i] == a[i];
      } else {
        assert (a + b)[i] == b[i - |a|];
      }
    }
  }

  /** The entries generated from `a + b` start with those generated from `a`; the rest are made from the templates of `b`. */
  lemma GeneratedSplit(a: seq<Template>, b: seq<Template>, year: int, uuid: nat -> string)
    ensures |Generated(a, year, uuid)| <= |Generated(a + b, year, uuid)|
    ensures Generated(a + b, year, uuid)[..|Generated(a, year, uuid)|] == Generated(a, year, uuid)
    ensures forall k :: |Generated(a, year, uuid)| <= k < |Generated(a + b, year, uuid)| ==>
      EntryFrom(Generated(a + b, year, uuid)[k], b, year)
  {
    var ta := SlotTable(a, year);
    var tb := SlotTable(b, year);
    var suffix := YearSuffix(year);
    SlotTableAppend(a, b, year);
    ExpandPrefix(a, ta, b, tb, suffix, uuid);
    ExpandTail(a, ta, b, tb, suffix, uuid);
    var all := Expand(a + b, ta + tb, suffix, uuid);
    forall k | |Expand(a, ta, suffix, uuid)| <= k < |all|
      ensures EntryFrom(all[k], b, year)
    {
      var i :| 0 <= i < |b| && Made(all[k], b[i], tb[i], suffix);
      assert tb[i] == Slots(b[i], year);
    }
  }

  /** Every entry of `generateEntries` comes from one of its templates, and those from bill templates come first. */
  lemma GenerateEntriesOrder(templates: seq<Template>, paydayTemplates: seq<Template>, year: int, uuid: nat -> string)
    ensures var g := Generated(templates + paydayTemplates, year, uuid);
      var n := |Generated(templates, year, uuid)|;
      n <= |g| &&
      (forall k :: 0 <= k < n ==> EntryFrom(g[k], templates, year)) &&
      (forall k :: n <= k < |g| ==> EntryFrom(g[k], paydayTemplates, year))
  {
    var g := Generated(templates + paydayTemplates, year, uuid);
    var h := Generated(templates, year, uuid);
    GeneratedFrom(templates, year, uuid);
    GeneratedSplit(templates, paydayTemplates, year, uuid);
    forall k | 0 <= k < |h|
      ensures EntryFrom(g[k], templates, year)
    {
      assert g[k] == g[..|h|][k];
    }
  }

  /** Every generated entry is made from one of the templates for one of its slots. */
  lemma GeneratedFrom(ts: seq<Template>, year: int, uuid: nat -> string)
    ensures forall k :: 0 <= k < |Generated(ts, year, uuid)| ==> EntryFrom(Generated(ts, year, uuid)[k], ts, year)
  {
    var table := SlotTable(ts, year);
    var suffix := YearSuffix(year);
    ExpandTail([], [], ts, table, suffix, uuid);
    assert [] + ts == ts;
    assert [] + table == table;
    var all := Expand(ts, table, suffix, uuid);
    forall k | 0 <= k < |all|
      ensures EntryFrom(all[k], ts, year)
    {
      var i :| 0 <= i < |ts| && Made(all[k], ts[i], table[i], suffix);
      assert table[i] == Slots(ts[i], year);
    }
  }
}

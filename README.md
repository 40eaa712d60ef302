# Linear-Budget, modelled in Dafny

Linear-Budget is a single-page budgeting app. A user keeps **accounts**,
**bill templates** and **payday templates**. Each template has a recurrence:
weekly, bi-weekly, semi-monthly, monthly, yearly, custom interval, manual
dates or one-time. From the templates the app generates a year of dated
**entries**: bills, with a `paid` flag and amounts per account, and
paydays, with balances per account. Entries are labelled with a month such
as `Mar '26` and a day of the month.

The dashboard sorts the entries and groups each payday with the bills that
follow it. For every pay period it computes what is owed per account and
what remains unpaid. Two filters can hide old entries and paid bills. An
analytics view compares each bill's current amount with the average it
was paid. The data lives in a per-user document store. The app also has
management pages for accounts, bill templates and payday templates, entry
forms, and a first-run setup wizard.

The project models these parts:

| file | models |
|---|---|
| `wrappers.dfy` | `Option` |
| `text.dfy` | the string operations the app relies on: `trim`, ASCII `toLowerCase`, `indexOf`, `split(sep)[k]`, `toString`, `slice(-2)`, `parseInt` |
| `calendar.dfy` | month names and `MONTH_INDEX`; JavaScript `new Date(y, m, d)` normalisation and `setDate(getDate() + k)`, as proleptic Gregorian day numbers |
| `budget_types.dfy` | accounts, entries, recurrences and templates |
| `generator.dfy` | `generateEntries`: one template at a time, each recurrence's slots, the interval loop over real dates |
| `calculations.dfy` | `useCalculations`: the comparator and the sort, grouping into pay periods, per-account owed, paid and remaining columns |
| `dashboard.dfy` | the hide-old and hide-paid filters, and the toggle, add and edit handlers |
| `analytics.dfy` | `calculateBillAnalytics` and `getChangedBills` |
| `store.dfy` | the data store: `withoutId`, `cleanForFirestore`, CRUD for entries, accounts and templates, and the template-to-entries sync |
| `accounts_page.dfy` | the account page: add with duplicate check, rename, move up or down |
| `bills_page.dfy` | the bill template page: open, edit, save, amounts, manual dates |
| `paydays_page.dfy` | the payday template page: open, edit, save |
| `forms.dfy` | the bill and payday entry forms: initial state, label parsing, submit, amount inputs |
| `setup_wizard.dfy` | the setup wizard as a class with the component's state |

Pure code is modelled as functions and lemmas. Code that changes state is
modelled as methods: the store and the wizard as classes, and loops as
`while` loops with invariants. Each method is proved against a
specification function, and the properties are proved about those
functions. Three kinds of input are parameters of the model rather than
effects: identifier sources (`uuid()`, document ids), the clock (today, the
current year, the time of day) and `parseFloat` results.

## Model

| member | source | states |
|---|---|---|
| Text.TrimStart | src/pages/ManageAccounts.tsx:15 | the result is a suffix of the input, everything dropped is white space, and it does not start with white space |
| Text.TrimEnd | src/pages/ManageAccounts.tsx:15 | the result is a prefix, everything dropped is white space, and it does not end with white space |
| Text.Trim | src/pages/ManageAccounts.tsx:15 | `trim()` gives the slice of the input that starts after its leading white space, with no white space at either end; it is empty exactly when the input is all white space |
| Text.ToLower | src/pages/ManageAccounts.tsx:19 | same length, each character lower-cased (ASCII letters only) |
| Text.Find | src/hooks/useCalculations.ts:23 | `indexOf`: the pattern occurs at the result and at no earlier position; `None` means it occurs nowhere |
| Text.Field | src/hooks/useCalculations.ts:23-27 | `split(sep)[k]`: field 0 always exists and is the prefix before the first separator, which contains no separator |
| Text.DigitChar | src/utils/generator.ts:22 | a digit character with the given value |
| Text.NatToString | src/utils/generator.ts:22 | `toString()` of a natural number is a non-empty digit string |
| Text.LastTwoSuffix | src/utils/generator.ts:22 | `slice(-2)` gives the last two characters, or the whole string when it is shorter |
| Text.DigitRun | src/hooks/useCalculations.ts:24 | the length of the longest leading run of digits in the radix |
| Text.ParseInt | src/hooks/useCalculations.ts:24 | `parseInt` gives a number only when the string contains a digit |
| Text.DigitsValueOfNatToString | src/utils/generator.ts:22 | reading the digits of `toString()` back gives the number |
| Text.ParseIntOfNatToString | src/hooks/useCalculations.ts:24 | round trip: `parseInt(n.toString()) == n` |
| Calendar.IndexOf | src/App.tsx:49-62 | `indexOf`: the first position holding the value; `None` exactly when it is absent |
| Calendar.MonthIndex | src/utils/generator.ts:5 | a `MONTH_INDEX` lookup gives a month number below 12 |
| Calendar.MonthIndexMeaning | src/utils/generator.ts:4-5 | the lookup gives the position of the name in `MONTHS`; it is absent exactly for names outside the list |
| Calendar.MonthIndexOfName | src/utils/generator.ts:4-5 | looking up the m-th month name gives m |
| Calendar.MonthNamesDistinct | src/utils/generator.ts:4 | the twelve month names are pairwise different |
| Calendar.DaysInMonth | src/utils/generator.ts:91 | every month has 28 to 31 days in the Gregorian calendar |
| Calendar.MonthStep | src/utils/generator.ts:91 | the days before each month add up month by month to the days of the year |
| Calendar.YearStep | src/utils/generator.ts:91 | the day numbers of consecutive years are consecutive |
| Calendar.SerialWithinYear | src/utils/generator.ts:93 | a valid date's day number lies within its year, so the year test of the loop reads the day number |
| Calendar.Normalize | src/utils/generator.ts:91 | an out-of-range day of month rolls over into a valid date with the same day number |
| Calendar.MakeDate | src/App.tsx:64 | `new Date(y, m, d)`: a valid date whose day number is that of the normalised year, month and day (years 0 to 99 read as 19xx) |
| Calendar.AddDays | src/utils/generator.ts:102 | `setDate(getDate() + k)` gives a valid date exactly k days later |
| Calendar.NormalizeValid | src/utils/generator.ts:91 | normalising a valid date changes nothing |
| Calendar.MakeDateInMonth | src/utils/generator.ts:91 | an in-range day of month is taken as it is |
| Calendar.MakeDateMonthBeforeJanuary | src/App.tsx:62-64 | month -1 is December of the previous year |
| Generator.WindowIndex | src/utils/generator.ts:18-19 | the start or end month index is always a month (below 12) |
| Generator.WindowIndexMeaning | src/utils/generator.ts:18-19 | a known month name gives its own index; a missing, empty or unknown name gives the fallback (0 for the start, 11 for the end) |
| Generator.Emit | src/utils/generator.ts:21-46 | one entry per slot |
| Generator.EmitAt | src/utils/generator.ts:21-46 | entry i is `createEntry` of slot i under the i-th fresh id |
| Generator.Interval | src/utils/generator.ts:85-89 | the step of the interval loop is never zero, so the loop ends |
| Generator.IntervalValue | src/utils/generator.ts:85-89 | weekly 7, bi-weekly 14; custom interval: `intervalDays`, 30 when it is 0 or undefined, 14 when the key is missing (all payday templates) |
| Generator.CursorDistanceDecreases | src/utils/generator.ts:93-103 | each step of the interval loop brings the cursor closer to leaving the year |
| Generator.SlotTable | src/utils/generator.ts:107-108 | one slot list per template |
| Generator.ProcessTemplate | src/utils/generator.ts:14-105 | `processTemplate` appends exactly the template's slots, as entries, to what was generated before |
| Generator.PushOneTime | src/utils/generator.ts:48-53 | the one-time and yearly branch appends its slot list |
| Generator.PushMonthly | src/utils/generator.ts:54-59 | the monthly loop appends one entry per month of the window, in month order |
| Generator.PushSemiMonthly | src/utils/generator.ts:60-68 | the semi-monthly loop appends `day` and, when `day2` is truthy, `day2` for each month of the window |
| Generator.PushManual | src/utils/generator.ts:69-79 | the manual loop appends the listed dates whose month is in the window, in list order |
| Generator.PushInterval | src/utils/generator.ts:80-104 | the interval loop appends one entry per date of the year reached from the start date in interval steps, when its month is in the window |
| Generator.CursorStep | src/utils/generator.ts:93-103 | the dates visited so far plus those still ahead are always the whole run from the start date |
| Generator.CursorEnd | src/utils/generator.ts:93 | once the cursor leaves the year, the visited dates are the whole run |
| Generator.GenerateEntries | src/utils/generator.ts:7-111 | `generateEntries` returns the bill templates' entries followed by the payday templates', template by template |
| Generator.ProcessEach | src/utils/generator.ts:107-108 | `forEach(processTemplate)` appends each template's entries in list order, numbered after what the list already held |
| Generator.ProcessedStep | src/utils/generator.ts:107-108 | after `processTemplate` on template `i`, what is left to do is the rest of the list on the longer entry list |
| Generator.GeneratedSnoc | src/utils/generator.ts:107-108 | generating for one more template appends its entries, with ids numbered after the earlier ones |
| Generator.ProcessedGenerated | src/utils/generator.ts:107-108 | processing a list after the entries generated for `pre` gives the entries generated for `pre` followed by that list |
| Generator.ProcessedBoth | src/utils/generator.ts:107-108 | the bill-template run followed by the payday-template run is the expansion of the two lists joined |
| Generator.CursorsValid | src/utils/generator.ts:91-103 | every date the interval loop visits is a valid date of the year, k steps after the start |
| Generator.CursorCountBound | src/utils/generator.ts:93-103 | the interval loop visits fewer dates than fit in a year at that step |
| Generator.SpanWithinYear | src/utils/generator.ts:93 | two dates of the same year are less than a year apart |
| Generator.InactiveTemplateEmitsNothing | src/utils/generator.ts:15 | a template that is inactive or not auto-generating produces no entries |
| Generator.MonthlySlotsInWindow | src/utils/generator.ts:56 | every monthly slot lies in the start-to-end window |
| Generator.SemiMonthlySlotsInWindow | src/utils/generator.ts:62 | every semi-monthly slot lies in the window |
| Generator.ManualSlotsInWindow | src/utils/generator.ts:76 | every manual slot lies in the window |
| Generator.IntervalSlotsInWindow | src/utils/generator.ts:98 | every interval slot lies in the window |
| Generator.SlotsInWindow | src/utils/generator.ts:48-104 | whatever the recurrence, no entry falls outside the window |
| Generator.MonthlySlotsExact | src/utils/generator.ts:54-59 | monthly gives exactly the months start to end, once each, in order, on `day` |
| Generator.SemiMonthlySlotsExact | src/utils/generator.ts:60-68 | semi-monthly is monthly when `day2` is falsy; otherwise twice as many slots, `day` then `day2` in each month |
| Generator.OneTimeSlotsExact | src/utils/generator.ts:48-53 | one-time and yearly give at most one slot, on the template's day in `month` (January when it is empty or missing); there is one exactly when that month is in the window, so January needs a window that starts in January; an unknown month name gives none |
| Generator.ManualWithoutDatesEmitsNothing | src/utils/generator.ts:69-73 | manual recurrence without a date list (and every payday template) produces nothing |
| Generator.ManualSlotsFromDates | src/utils/generator.ts:74-79 | there are at most as many manual slots as dates, and exactly the dates when all lie in the window |
| Generator.ExpandIds | src/utils/generator.ts:26 | the k-th generated entry has the k-th fresh id |
| Generator.EmitIds | src/utils/generator.ts:26 | each emitted entry carries its own fresh id |
| Generator.GeneratedIdsDistinct | src/utils/generator.ts:26 | when `uuid()` never repeats, the generated entries have pairwise different ids |
| Generator.EmitMade | src/utils/generator.ts:21-46 | each emitted entry is made from its template and one of its slots |
| Generator.ExpandPrefix | src/utils/generator.ts:107-108 | the entries of earlier templates form a prefix of the list |
| Generator.ExpandTail | src/utils/generator.ts:107-108 | the entries after that prefix all come from the later templates |
| Generator.SlotTableAppend | src/utils/generator.ts:107-108 | the slots of two template lists concatenate |
| Generator.GeneratedSplit | src/utils/generator.ts:107-108 | generating for `a + b` gives `a`'s entries, then entries made from `b` |
| Generator.GenerateEntriesOrder | src/utils/generator.ts:107-108 | all bill-template entries come before all payday-template entries |
| Generator.GeneratedFrom | src/utils/generator.ts:14-105 | every generated entry is made from one of the templates: its name, `templateId`, kind, amounts and an unpaid flag, with a label of the year |
| Calculations.LabelMonth | src/hooks/useCalculations.ts:26-29 | `getMonth` is a month number; unknown names count as January |
| Calculations.CompareByKey | src/hooks/useCalculations.ts:21-42 | the comparator orders entries lexicographically by (year, month, day, payday before bill), and ties everything with an entry whose year is `NaN` |
| Calculations.CompareAntisymmetric | src/hooks/useCalculations.ts:31-41 | swapping the arguments negates the comparator |
| Calculations.CompareTransitive | src/hooks/useCalculations.ts:21-42 | among entries whose years parse, "not after" is transitive |
| Calculations.LabelKeyOfGeneratedLabel | src/hooks/useCalculations.ts:22-29 | a generator label `Mon 'yy` reads back as year yy and that month |
| Calculations.Insert | src/hooks/useCalculations.ts:21 | insertion adds exactly one element |
| Calculations.SortBy | src/hooks/useCalculations.ts:21 | the sort keeps the length |
| Calculations.InsertPermutes | src/hooks/useCalculations.ts:21 | insertion adds the element to the multiset and nothing else |
| Calculations.InsertKeepsOrder | src/hooks/useCalculations.ts:21 | insertion into an ordered list keeps it ordered |
| Calculations.SortPermutes | src/hooks/useCalculations.ts:21 | the sort is a permutation |
| Calculations.SortAdjacent | src/hooks/useCalculations.ts:21 | the comparator never puts a neighbour before its predecessor in the sorted list |
| Calculations.AdjacentToSorted | src/hooks/useCalculations.ts:21 | for a transitive comparator, neighbour order is full order |
| Calculations.SortedEntries | src/hooks/useCalculations.ts:21-42 | `sortedData` is a permutation of the entries, ordered between neighbours |
| Calculations.SortOrders | src/hooks/useCalculations.ts:21-42 | when every year parses, `sortedData` is fully sorted by the comparator |
| Calculations.GroupLayout | src/hooks/useCalculations.ts:44-60 | orphans followed by the flattened periods is the sorted list; each period is a payday and the bills up to the next payday; after the orphans comes a payday |
| Calculations.Group | src/hooks/useCalculations.ts:44-60 | the grouping loop computes exactly that grouping |
| Calculations.WithBalances | src/hooks/useCalculations.ts:95 | each bill gets the remaining balances, one result per bill |
| Calculations.RepeatIsProduct | src/hooks/useCalculations.ts:68-83 | adding an amount once per account of the same name is multiplying by the count |
| Calculations.OwedIsTotal | src/hooks/useCalculations.ts:73-83 | the owed column of a name is its bills' total, counted once per account of that name |
| Calculations.PaidIsTotal | src/hooks/useCalculations.ts:73-83 | the paid column is the paid bills' total, counted likewise |
| Calculations.RemainingIsUnpaid | src/hooks/useCalculations.ts:85-87 | owed minus paid is the unpaid bills' total |
| Calculations.ProcessedKeys | src/hooks/useCalculations.ts:89-96 | a processed payday records `totalOwed` and `calculatedBalances`, keyed by exactly the account names |
| Calculations.ProcessedValues | src/hooks/useCalculations.ts:64-96 | owed is the sum of the name's bill amounts and remaining the sum over unpaid bills (per account of the name); with no bills both are 0 |
| Calculations.ProcessedKeepsEntries | src/hooks/useCalculations.ts:89-96 | processing changes only the two projection maps, and every bill shows its payday's remaining balances |
| Calculations.ZeroColumns | src/hooks/useCalculations.ts:68-71 | the owed and paid columns start at 0 for every account name |
| Calculations.AddBill | src/hooks/useCalculations.ts:74-82 | one bill adds its truthy amounts to owed, and to paid when it is paid |
| Calculations.Accumulate | src/hooks/useCalculations.ts:73-83 | after the loop the columns hold the owed and paid sums of all the period's bills |
| Calculations.RemainingColumns | src/hooks/useCalculations.ts:85-87 | remaining is owed minus paid for every account name |
| Calculations.ProcessPeriod | src/hooks/useCalculations.ts:62-97 | the period's processing equals its specification |
| Calculations.ProcessAll | src/hooks/useCalculations.ts:62 | one processed period per period |
| Calculations.Calculate | src/hooks/useCalculations.ts:20-104 | `useCalculations` equals sort, group, process and flatten |
| Calculations.FlattenProcessed | src/hooks/useCalculations.ts:99-102 | flattening the processed periods keeps every entry in place, up to the projection maps |
| Calculations.CalculationKeepsEntries | src/hooks/useCalculations.ts:99-102 | the result holds every input entry exactly once, in sorted position; only the projection maps differ |
| Calculations.OrphansFirst | src/hooks/useCalculations.ts:99-102 | the result starts with the unchanged orphan bills, followed by the first payday |
| Dashboard.Filter | src/App.tsx:46 | `filter` never lengthens the list |
| Dashboard.FilterMeaning | src/App.tsx:46 | the filtered list is a subsequence of the input whose elements pass the test |
| Dashboard.FilterMembers | src/App.tsx:74-76 | an entry survives the filter exactly when it is in the input and passes |
| Dashboard.RecentMeaning | src/App.tsx:64-68 | hide-old keeps an entry exactly when its date is after the cutoff day (56 days ago), or on it when the time of day is exactly midnight; an unparsable year hides it |
| Dashboard.CutoffDay | src/App.tsx:65-66 | the cutoff is 56 days before today |
| Dashboard.LabelParts | src/App.tsx:47 | `split(" '")` of a generated label gives its month name and year digits |
| Dashboard.EntryDayOfLabel | src/App.tsx:47-64 | a generated label with a day inside the month gives the date 20yy-month-day |
| Dashboard.UnknownMonthIsDecember | src/App.tsx:49-62 | an unknown month name gives index -1, which `new Date` reads as December of the year before |
| Dashboard.Kept | src/App.tsx:80-99 | the hide-paid loop keeps at most the elements it has seen |
| Dashboard.CollapsePaydays | src/App.tsx:78-101 | the loop with its look-ahead keeps every bill and each payday directly followed by a bill |
| Dashboard.HidePaid | src/App.tsx:72-102 | hide-paid drops paid bills, then paydays left without a bill after them |
| Dashboard.FinalVisible | src/App.tsx:45-103 | the shown list is the hide-old filter (when on) followed by hide-paid (when on); with both off, all entries |
| Dashboard.KeptEmbeds | src/App.tsx:80-99 | what the loop keeps is a subsequence of the input |
| Dashboard.CollapseSubsequence | src/App.tsx:78-101 | hide-paid only removes entries, never reorders them |
| Dashboard.KeptPaydaysFollowed | src/App.tsx:83-95 | no two kept paydays are adjacent |
| Dashboard.CollapsePaydaysFollowed | src/App.tsx:83-95 | every payday shown is directly followed by a bill |
| Dashboard.KeptBills | src/App.tsx:96-98 | every bill of the input is kept, in order |
| Dashboard.FilterAppend | src/App.tsx:74-76 | filtering distributes over concatenation |
| Dashboard.HidePaidBills | src/App.tsx:72-103 | the bills shown under hide-paid are exactly the unpaid bills, in order |
| Dashboard.BillsOfUnpaid | src/App.tsx:74-76 | the bills that pass the paid filter are the unpaid bills |
| Dashboard.FindIndex | src/App.tsx:144 | `find` by id: the first entry with the id, or `None` when no entry has it |
| Dashboard.TogglePaidMeaning | src/App.tsx:143-148 | a toggle is sent exactly when the first entry with the id is a bill; it flips `paid` and nothing else, and toggling again restores the entry |
| Dashboard.NewBill | src/App.tsx:150-159 | `handleAddBill` creates a bill |
| Dashboard.NewPayday | src/App.tsx:161-169 | `handleAddPayday` creates a payday |
| Dashboard.MergeBill | src/App.tsx:175 | merging form data into a bill gives a bill |
| Dashboard.MergePayday | src/App.tsx:185 | merging form data into a payday gives a payday |
| Dashboard.NewEntriesReadBack | src/App.tsx:150-169 | a new bill is unpaid, has the fresh id and reads back as the form data; likewise a new payday |
| Dashboard.MergeReadsBack | src/App.tsx:171-189 | an edit reads back as the form data and keeps id, template link and `paid`; merging an entry's own data changes nothing |
| Dashboard.EditMeaning | src/App.tsx:171-189 | an edit is sent only under a truthy editing id, for an entry of the matching kind, and is that entry merged with the form |
| Dashboard.EditState.EditBill | src/App.tsx:171-179 | on success the edit ends and the bill form closes; otherwise no state changes |
| Dashboard.EditState.EditPayday | src/App.tsx:181-189 | on success the edit ends and the payday form closes; otherwise no state changes |
| Analytics.SumValuesRemove | src/utils/billAnalytics.ts:44 | the sum of a map's values splits off any one key |
| Analytics.SumValuesSingle | src/utils/billAnalytics.ts:50 | a one-account map sums to its value |
| Analytics.Matched | src/utils/billAnalytics.ts:28-39 | an entry belongs to the template exactly when it is a bill labelled with the year and has the template's id, or has no template link and the template's name |
| Analytics.PaidOf | src/utils/billAnalytics.ts:41 | the paid entries are exactly the paid bills among them |
| Analytics.Average | src/utils/billAnalytics.ts:53 | the average times the count is the paid total; 0 when nothing was paid |
| Analytics.Percentage | src/utils/billAnalytics.ts:67 | the percentage times the average is 100 times the difference |
| Analytics.DriftOf | src/utils/billAnalytics.ts:55-70 | a change is reported exactly when something was paid, the average is positive and the difference exceeds 0.01; it is an increase exactly when the current amount is higher; otherwise all fields are neutral |
| Analytics.Row | src/utils/billAnalytics.ts:27-85 | the row's counts, totals, average and drift are those of the template's matched and paid bills, the planned total is the current amount once per planned bill, and the paid count never exceeds the planned count |
| Analytics.PlannedIsProduct | src/utils/billAnalytics.ts:51 | a row's planned total is its planned count times its current amount |
| Analytics.Rows | src/utils/billAnalytics.ts:18-87 | one row per template, in order: row i is the row of template i, with its id, name and planned count |
| Analytics.TotalOfConstant | src/utils/billAnalytics.ts:43-46 | bills of equal total sum to that total times their count |
| Analytics.SteadyPaymentsNoChange | src/utils/billAnalytics.ts:55-70 | when every paid bill paid the current amount, no change is reported |
| Analytics.AverageOfRepeat | src/utils/billAnalytics.ts:53 | the average of n equal payments is that payment |
| Analytics.PaidOfAllPaid | src/utils/billAnalytics.ts:41 | when every bill is paid, the paid filter keeps them all |
| Analytics.PaidInFullMeetsPlan | src/utils/billAnalytics.ts:43-51 | when every matched bill is paid at the current amount, year-to-date paid equals planned |
| Analytics.GeneratedBillMatched | src/utils/billAnalytics.ts:28-39 | every bill the generator makes from a template is counted for that template |
| Analytics.ChangedBills | src/utils/billAnalytics.ts:89-91 | `getChangedBills` keeps exactly the rows with a change |
| Analytics.ChangedBillsAppend | src/utils/billAnalytics.ts:89-91 | the filter distributes over concatenation |
| Analytics.ChangedBillsExtremes | src/utils/billAnalytics.ts:89-91 | no changed row gives an empty list; all changed gives the input |
| Store.WithoutId | src/context/DataContext.tsx:67-69 | `withoutId` drops the `id` key and keeps every other field |
| Store.ReadBackWithoutId | src/context/DataContext.tsx:67-69 | a record stored without its id and read back under the document id is the record with that id |
| Store.Cleaned | src/context/DataContext.tsx:72-80 | the cleaned record has only keys of the input |
| Store.CleanedMeaning | src/context/DataContext.tsx:72-80 | a key is kept exactly when its value is defined, and keeps that value |
| Store.CleanForFirestore | src/context/DataContext.tsx:72-80 | the loop computes the cleaned record |
| Store.Overlay | src/context/DataContext.tsx:277-286 | a partial update writes a defined field and keeps the stored one otherwise |
| Store.OverlayField | src/context/DataContext.tsx:277-286 | likewise for a field that may be missing |
| Store.MergeTemplate | src/context/DataContext.tsx:277-286 | a partial template update keeps the document id |
| Store.UpdatedEntries | src/context/DataContext.tsx:180-186 | `updateEntry` merges into the entries with the id and leaves the others |
| Store.UpdatedTemplates | src/context/DataContext.tsx:277-286 | `updateTemplate` merges into the templates with the id and leaves the others |
| Store.ClearedEndMonthStays | src/context/DataContext.tsx:155-162 | a cleared end month does not reach the stored template, which keeps its old end month (Finding 2) |
| Store.ReplacedTemplates | src/context/DataContext.tsx:277-286 | a full replacement writes the submitted template under its id |
| Store.ReplacedTemplateIsSubmitted | src/context/DataContext.tsx:277-286 | after a replacement the stored template is the submitted one, a cleared end month included |
| Store.FindAccount | src/context/DataContext.tsx:207 | `find` by id: the first account with the id, or none has it |
| Store.AddedAccount | src/context/DataContext.tsx:196-203 | `addAccount` appends the name with order equal to the count, unless an account already has exactly that name |
| Store.AddAccountIdempotent | src/context/DataContext.tsx:196-203 | adding the same name twice adds it once |
| Store.RenamedAccount | src/context/DataContext.tsx:205-213 | renaming keeps the number of accounts |
| Store.RenameMeaning | src/context/DataContext.tsx:205-213 | renaming keeps ids and orders, renames the found account only, and changes nothing when the id is unknown |
| Store.RemovedAccount | src/context/DataContext.tsx:215-220 | removal keeps exactly the accounts with another id |
| Store.SetOrder | src/context/DataContext.tsx:228 | one batch write sets the order of the accounts with the id |
| Store.Reordered | src/context/DataContext.tsx:222-233 | reordering keeps the number of accounts |
| Store.ReorderMeaning | src/context/DataContext.tsx:222-233 | each account keeps id and name and takes its position in the new order as its order; an account not in the new order keeps its order |
| Store.WithoutUnpaidOf | src/context/DataContext.tsx:238-242 | the deletion sync never adds entries |
| Store.DeletionMeaning | src/context/DataContext.tsx:238-242 | an entry survives exactly when it is not an unpaid entry of the template (so paid bills survive and the template's paydays go); order is kept |
| Store.NewOnes | src/context/DataContext.tsx:252-260 | the sync adds at most the generated entries |
| Store.NewOnesMembers | src/context/DataContext.tsx:252-257 | a generated entry is added exactly when the snapshot has no entry of the template with the same month and day |
| Store.Stored | src/context/DataContext.tsx:258 | each added entry is stored under the next document id |
| Store.SyncTwiceAddsNothing | src/context/DataContext.tsx:245-260 | a second sync over the result of the first adds nothing |
| Store.SyncStep | src/context/DataContext.tsx:252-260 | one step of the sync loop adds the entry exactly when it is new |
| Store.SameDayTwiceAddedTwice | src/context/DataContext.tsx:252-257 | the snapshot is not updated within the loop, so two generated entries on the same day are both added |
| Store.GeneratedForNamesTemplate | src/context/DataContext.tsx:245-250 | every generated entry links to the template and is unpaid |
| Store.AddedEntriesSurviveDelete | src/context/DataContext.tsx:266-296 | entries synced on `addTemplate` link to the caller's id, so deleting the stored template (under its document id) leaves them all (Finding 1) |
| Store.AddedEntriesGoWithDelete | src/context/DataContext.tsx:266-296 | entries synced under the document id are all deleted with the template |
| Store.DataStore.constructor | src/context/DataContext.tsx:85-88 | the store starts empty |
| Store.DataStore.NextId | src/context/DataContext.tsx:146-153 | each new document takes the next document id |
| Store.DataStore.AddEntry | src/context/DataContext.tsx:173-178 | the entry is appended under a fresh document id; nothing else changes |
| Store.DataStore.UpdateEntry | src/context/DataContext.tsx:180-186 | the entries become their update |
| Store.DataStore.DeleteEntry | src/context/DataContext.tsx:188-193 | exactly the entries with the id are removed |
| Store.DataStore.AddAccount | src/context/DataContext.tsx:196-203 | a new name is appended under a fresh id; an existing name changes nothing |
| Store.DataStore.UpdateAccount | src/context/DataContext.tsx:205-213 | the accounts become their rename |
| Store.DataStore.RemoveAccount | src/context/DataContext.tsx:215-220 | the accounts with the id are removed |
| Store.DataStore.ReorderAccounts | src/context/DataContext.tsx:222-233 | the batch sets every order, or fails as a whole when an account in it is not stored |
| Store.DataStore.SyncEntries | src/context/DataContext.tsx:245-260 | the new generated entries are appended under fresh ids; nothing else changes |
| Store.DataStore.SyncDeleted | src/context/DataContext.tsx:238-242 | the template's unpaid entries are deleted |
| Store.CleanedTemplate | src/context/DataContext.tsx:72-80 | a template record after `cleanForFirestore`: every field kept, except that an `intervalDays` that is undefined becomes missing |
| Store.DataStore.AddTemplate | src/context/DataContext.tsx:266-276 | the cleaned template is stored under a document id, and its entries are synced under the caller's id (Finding 1) |
| Store.DataStore.AddTemplateUnderDocId | src/context/DataContext.tsx:266-276 | corrected: the cleaned template is stored and the entries are synced under the stored document id |
| Store.DataStore.UpdateTemplate | src/context/DataContext.tsx:277-286 | when a stored template has the id, the cleaned fields are merged into it and then the entries are synced; when none has, `updateDoc` rejects and nothing changes, entries included |
| Store.DataStore.ReplaceTemplate | src/context/DataContext.tsx:277-286 | corrected: the stored template is replaced by the submitted one, then the entries are synced; nothing changes when no stored template has the id |
| Store.DataStore.DeleteTemplate | src/context/DataContext.tsx:287-296 | an unknown id changes nothing; otherwise the template goes, with its unpaid entries |
| Store.DataStore.AddPaydayTemplate | src/context/DataContext.tsx:299-309 | as for bill templates, in the payday collection: the cleaned template is stored under a document id, the entries synced under the caller's id |
| Store.DataStore.UpdatePaydayTemplate | src/context/DataContext.tsx:311-321 | as for bill templates, in the payday collection: merge and sync when a stored payday template has the id, nothing at all when none has |
| Store.DataStore.DeletePaydayTemplate | src/context/DataContext.tsx:323-332 | as for bill templates, in the payday collection |
| Store.Generate | src/context/DataContext.tsx:245-250 | the sync generates the template's entries for the year |
| Store.FindTemplate | src/context/DataContext.tsx:289 | `find` by id: a template with the id, or none has it |
| Store.RemovedTemplate | src/components/SetupWizard.tsx:86-88 | removal keeps exactly the templates with another id |
| AccountsPage.HandleAdd | src/pages/ManageAccounts.tsx:13-27 | a blank input is ignored; a name equal, ignoring case, to an existing one is rejected with "Account already exists"; otherwise the trimmed name is added |
| AccountsPage.AcceptedNameIsAdded | src/pages/ManageAccounts.tsx:19-24 | a name the page accepts is also new to the store, which appends it with the next order |
| AccountsPage.AddedThenDuplicate | src/pages/ManageAccounts.tsx:19-24 | after adding, the same input is a duplicate |
| AccountsPage.SaveEdit | src/pages/ManageAccounts.tsx:44-49 | a rename is sent exactly when an id is being edited and the trimmed name is not blank |
| AccountsPage.SaveEditRenamesOne | src/pages/ManageAccounts.tsx:44-49 | a saved rename changes only the edited account's name, to one without leading white space |
| AccountsPage.Swapped | src/pages/ManageAccounts.tsx:56 | the destructuring swap exchanges two slots and keeps the rest |
| AccountsPage.SwappedPermutes | src/pages/ManageAccounts.tsx:56 | the swap is a permutation |
| AccountsPage.MoveAccount | src/pages/ManageAccounts.tsx:51-58 | the list sent to `reorderAccounts` is the store-order list with the slot and its neighbour exchanged, or nothing past either end (Finding 3) |
| AccountsPage.Moved | src/pages/ManageAccounts.tsx:51-58 | a sent list is a permutation of the accounts |
| AccountsPage.MovedMeaning | src/pages/ManageAccounts.tsx:51-58 | a move is sent exactly when both slots exist; exactly those two exchange places |
| AccountsPage.MoveDownOnFirstRowMovesOtherAccount | src/pages/ManageAccounts.tsx:105-108 | the rows are sorted by name while the move uses store order, so "down" on the first row moves another account up (Finding 3) |
| AccountsPage.PositionOf | src/pages/ManageAccounts.tsx:51 | the store position of the clicked account |
| AccountsPage.MovedByIdMovesClicked | src/pages/ManageAccounts.tsx:148-157 | corrected: moving by id moves the clicked account one place in the chosen direction |
| BillsPage.OpenForm | src/pages/ManageBills.tsx:26-38 | a blank monthly form; the second day and the yearly month keep their last values |
| BillsPage.EditForm | src/pages/ManageBills.tsx:40-54 | the form takes the template's fields; falsy `day2`, `month`, `intervalDays` and absent `manualDates` keep the form's values; the start month defaults to January |
| BillsPage.SavedTemplate | src/pages/ManageBills.tsx:59-73 | each optional field is set exactly for the recurrences that use it: `day2` semi-monthly, `month` yearly, the window unless one-time or manual (end month only when chosen), `intervalDays` custom interval, `manualDates` manual |
| BillsPage.HandleSave | src/pages/ManageBills.tsx:75-85 | an update under the edited id, or an addition under a fresh id |
| BillsPage.EditAfterSave | src/pages/ManageBills.tsx:40-73 | round trip: editing a saved template gives back the form in every field its recurrence uses |
| BillsPage.HandleAmountChange | src/pages/ManageBills.tsx:90-98 | an empty or unparsable input deletes the account's amount, anything else (0 included) sets it; no other account changes; the payday page's `handleBalanceChange` (src/pages/ManagePaydays.tsx:78-86) is the same code and is modelled by this member |
| BillsPage.AddManualDate | src/pages/ManageBills.tsx:100-102 | one more row, 1 January, after the others |
| BillsPage.WithoutIndex | src/pages/ManageBills.tsx:106 | `filter((_, i) => i !== index)` drops one row when the index is in range and none otherwise |
| BillsPage.WithoutIndexMeaning | src/pages/ManageBills.tsx:106 | the rows before and after the index, in order |
| BillsPage.RemoveManualDate | src/pages/ManageBills.tsx:104-108 | the last remaining row is never removed; otherwise the row at the index goes |
| BillsPage.UpdateManualDate | src/pages/ManageBills.tsx:110-114 | only the given field of the given row changes |
| PaydaysPage.OpenForm | src/pages/ManagePaydays.tsx:26-34 | a bi-weekly "Payday" on day 1 with no balances; second day and month keep their last values |
| PaydaysPage.EditForm | src/pages/ManagePaydays.tsx:36-46 | the form takes the template's fields; falsy `day2` and `month` keep the form's values; start month defaults to January |
| PaydaysPage.SavedTemplate | src/pages/ManagePaydays.tsx:51-61 | `day2` only semi-monthly, `month` only yearly and one-time, start month all but one-time, never an end month; always active and generating |
| PaydaysPage.HandleSave | src/pages/ManagePaydays.tsx:63-73 | an update under the edited id, or an addition under a fresh id |
| PaydaysPage.EditAfterSave | src/pages/ManagePaydays.tsx:36-61 | round trip: editing a saved payday template gives back the form in every field its recurrence uses |
| Forms.StartLabel | src/components/BillForm.tsx:31 | the label the form starts from is the entry's, or `Jan '26`; never empty |
| Forms.MonthNameOf | src/components/BillForm.tsx:30-33 | the month name is the label's first word, without a space |
| Forms.YearOf | src/components/BillForm.tsx:34-38 | the year is the text after the first apostrophe |
| Forms.YearOfWithoutApostrophe | src/components/BillForm.tsx:37 | a label without an apostrophe gives year "26" |
| Text.FindFirst | src/components/BillForm.tsx:36 | `indexOf` finds the first occurrence of a separator |
| Text.FindNone | src/components/BillForm.tsx:36 | `indexOf` of an absent character finds nothing |
| Text.LabelFields | src/components/BillForm.tsx:36-37 | splitting `"<month> '<year>"` at the space and at the apostrophe gives back the month and the year, when neither holds a separator |
| Forms.ParseCompose | src/components/BillForm.tsx:30-39 | round trip: parsing `${monthName} '${year}` gives back month name and year, and recomposing gives the label |
| Forms.YearSuffixHasNoApostrophe | src/utils/generator.ts:22 | the generator's year digits contain no apostrophe |
| Forms.GeneratedLabelParses | src/components/BillForm.tsx:30-38 | a generated label parses into its month and year digits |
| Forms.DefaultLabelParses | src/components/BillForm.tsx:31-37 | the default label parses into January and "26" |
| Forms.StartDate | src/components/BillForm.tsx:29 | the entry's day, or today when there is no entry or its day is 0 |
| Forms.InitialSelection | src/components/BillForm.tsx:14-27 | an entry named after a template selects it; another name selects "Other" with that custom name; no entry selects the first template, or "Other" |
| Forms.OpenBillForm | src/components/BillForm.tsx:14-42 | the form's day and amounts start from the entry |
| Forms.BillName | src/components/BillForm.tsx:28 | the name is the custom name under "Other", the selection otherwise |
| Forms.SubmitBill | src/components/BillForm.tsx:39-48 | the submitted data are the name, day, composed label and amounts |
| Forms.UnchangedBillFormKeepsBill | src/components/BillForm.tsx:14-48 | submitting an untouched form for a named, dated bill with a well-formed label gives back its data, so the edit leaves it unchanged |
| Forms.BillNamedOtherLosesName | src/components/BillForm.tsx:14-28 | a bill named "Other", with a template of that name, is saved with an empty name |
| Forms.HandleAmountChange | src/components/BillForm.tsx:50-61 | an unparsable input or 0 deletes the account's amount; any other number sets it; no other account changes |
| Forms.OpenPaydayForm | src/components/PaydayForm.tsx:14-28 | name (default "Payday"), day and balances start from the entry |
| Forms.SubmitPayday | src/components/PaydayForm.tsx:25-34 | the submitted data are the name, day, composed label and balances |
| Forms.NewPaydayFormDefaults | src/components/PaydayForm.tsx:14-34 | a new payday form submits "Payday", today, `Jan '26` and no balances |
| Forms.UnchangedPaydayFormKeepsPayday | src/components/PaydayForm.tsx:14-34 | submitting an untouched form for a named, dated payday gives back its data |
| Forms.HandleBalanceChange | src/components/PaydayForm.tsx:36-47 | only an unparsable input deletes the balance; any number, 0 included, sets it |
| Setup.FirstOther | src/components/SetupWizard.tsx:68 | the first account with another id, or none exists |
| Setup.SelectionAfterRemoval | src/components/SetupWizard.tsx:67-69 | removing the selected account selects another one when more than one existed, otherwise nothing; any other removal keeps the selection |
| Setup.RemovalKeepsSelection | src/components/SetupWizard.tsx:65-70 | the selected bill account is always empty or an existing account |
| Setup.AdditionKeepsSelection | src/components/SetupWizard.tsx:49-63 | adding an account keeps the selection valid, and the first account added becomes the selection |
| Setup.SelectedAccount | src/components/SetupWizard.tsx:93-94 | the lookup of a valid, non-empty selection finds an account with that id, so the early return never fires |
| Setup.RemovalSelectsOther | src/components/SetupWizard.tsx:65-70 | removing the selected account, with others left, selects a remaining one |
| Setup.NewPaydayTemplate | src/components/SetupWizard.tsx:73-81 | a wizard payday template has no balances and is active and generating |
| Setup.NewBillTemplate | src/components/SetupWizard.tsx:96-104 | a wizard bill template owes the amount to the selected account only, and is active and generating |
| Setup.Wizard.constructor | src/components/SetupWizard.tsx:23-39 | the initial state |
| Setup.Wizard.CanProceed | src/components/SetupWizard.tsx:152-155 | the wizard is blocked exactly on the accounts step with no account |
| Setup.Wizard.Back | src/components/SetupWizard.tsx:125-129 | one step back, never before the first |
| Setup.Wizard.Next | src/components/SetupWizard.tsx:117-123 | one step forward, or finish on the last step |
| Setup.Wizard.Finish | src/components/SetupWizard.tsx:131-150 | while submitting, nothing is sent; otherwise accounts, templates and the year's generated entries are sent once, and a failure allows a retry |
| Setup.Wizard.AddAccount | src/components/SetupWizard.tsx:49-63 | a non-blank name is appended trimmed, with the next order; the first account becomes the bill account |
| Setup.Wizard.RemoveAccount | src/components/SetupWizard.tsx:65-70 | the account goes and the selection follows `SelectionAfterRemoval` |
| Setup.Wizard.SelectBillAccount | src/components/SetupWizard.tsx:460-466 | the bill account becomes the chosen one, an existing account or the blank "Select Account" choice, and the wizard stays valid |
| Setup.Wizard.AddPayday | src/components/SetupWizard.tsx:72-84 | a payday template is appended and the name resets to "Payday" |
| Setup.Wizard.RemovePayday | src/components/SetupWizard.tsx:86-88 | the payday templates with the id go |
| Setup.Wizard.AddBill | src/components/SetupWizard.tsx:90-109 | with name, amount and account set, a bill template for the selected account is appended and the inputs clear; otherwise nothing changes |
| Setup.Wizard.RemoveBill | src/components/SetupWizard.tsx:111-113 | the bill templates with the id go |

## Left out

- Firestore itself is not modelled: network I/O, `onSnapshot` listeners, promises and their ordering, authentication guards (`if (!user) return`) and the per-user collection paths. The store is a class with the four collections as fields. Each write takes effect at once, and document ids come from a `docIds` parameter. Batch atomicity is modelled as all-or-nothing. The one failure modelled for a single write is `updateDoc` on a document that does not exist: it rejects, so the template updates do nothing and the synchronisation chained after them does not run.
- Sorting accounts by `order` in the snapshot listener is not modelled; accounts keep their stored order.
- `importData`, `exportData` and `deleteAccountData` are left out. They copy collections wholesale and involve no logic of the core.
- The hide-old and hide-paid toggles are stored in `localStorage`. The model takes the two flags as inputs.
- `uuid()`, `new Date()`, `getFullYear()` and the time of day are parameters: an id function `uuid: nat -> string`, `today` as a day number, `year`, and `millis` since midnight.
- Numbers are modelled as `real`, without IEEE rounding, NaN or infinities. `parseFloat` is an `Option<real>` parameter, `None` standing for NaN. A NaN amount stored in a map is not modelled.
- Setup.Wizard.AddBill: `parseFloat(billAmount)` is the `amount` parameter, so a NaN amount cannot be stored.
- Calculations.SortBy: `Array.prototype.sort` is modelled as a stable insertion sort with the same comparator. Full sortedness is proved only when every label's year parses. A NaN year makes the comparator answer 0 for every pair, so it is not an order, and engines may then give any order.
- Calculations.AddBill: an account name that appears on several accounts adds its amount once per account. The model counts these occurrences (`Repeat`), as the code does; it does not merge duplicates.
- Text.ToLower: only ASCII letters are lower-cased; Unicode case mapping is not modelled.
- Calendar: time zones and daylight-saving shifts are not modelled. Every date is a local calendar day, and `setHours` and times of day only matter for the hide-old cutoff.
- BillsPage.UpdateManualDate requires an index in range. Writing past the end of a JavaScript array leaves holes, and the page never does it.
- Analytics.Row and Analytics.Rows are ghost functions and require bill templates, since `calculateBillAnalytics` is typed for them.
- `localeCompare` in the account list's display sort is not modelled. Finding 3 only needs a display order that differs from the store order.
- `handleScrollToToday`, `handleDelete` behind `confirm`, rendering, styling and the wizard's step titles are presentation only.
- Text.ParseInt covers decimal digits, a sign and leading white space. Its contract only says that a result needs a digit; `ParseIntOfNatToString` gives the round trip for the labels the app writes.
- BillsPage.SavedTemplate sets `month` only for yearly bills, as the code does. A one-time bill saved from the bill page therefore has no month, and the generator places it in January. No corrected version is modelled: the page may intend the one-time month to be chosen elsewhere.

## Findings

| source | as written | input that shows it | evidently intended | confidence | as-written member | corrected member |
|---|---|---|---|---|---|---|
| src/context/DataContext.tsx:266-276 | `addTemplate` stores the template without its id, so the store gives it a new document id, but then syncs the entries under the caller's `uuid()` as `templateId` | add a bill template with caller id `u`, stored as document `d` ≠ `u`; delete `d`: none of its generated unpaid entries is deleted, and an update of `d` generates them a second time | entries link to the stored document id | not executed | Store.AddedEntriesSurviveDelete | Store.AddedEntriesGoWithDelete |
| src/context/DataContext.tsx:155-162 | `updateTemplate` writes a partial update of the fields left after `cleanForFirestore`, which drops undefined fields, so a field the user cleared keeps its stored value | edit a template that has end month `Jun`, clear the end month (src/pages/ManageBills.tsx:422) and save: the stored template still ends in June | the saved template is the one submitted, an end month cleared included | not executed | Store.ClearedEndMonthStays | Store.ReplacedTemplateIsSubmitted |
| src/pages/ManageAccounts.tsx:51-58 | `moveAccount(index, …)` swaps positions `index` and its neighbour in store order, while `index` is the row's position in the list sorted by name (lines 105-108) | accounts B (stored first) and A; the page lists A first; "move down" on A's row swaps store positions 0 and 1 and sends `[A, B]`, moving A up | the clicked account moves one place in the chosen direction | not executed | AccountsPage.MoveDownOnFirstRowMovesOtherAccount | AccountsPage.MovedByIdMovesClicked |

/**
 * The data store: the user's entries, accounts, bill templates and payday
 * templates, with the writes the application issues against them. Each
 * collection is modelled as the sequence of its documents; a write is applied
 * to that sequence at once, as the snapshot listener later reports it. New
 * documents get their ids from the store's id source, one fresh id per
 * document added, in the order the documents are added.
 */
module Store {
  import opened Wrappers
  import opened BudgetTypes
  import Generator
  import Dashboard

  // ---------------------------------------------------------------------
  // Record transforms applied before a write

  /** `withoutId(rec)`: the record with its `id` key dropped and every other key kept as it was. */
  function WithoutId<V>(rec: map<string, V>): (r: map<string, V>)
    ensures r.Keys == rec.Keys - {"id"}
    ensures forall k :: k in r ==> r[k] == rec[k]
  {
    rec - {"id"}
  }

  /**
   * Reading a stored document back as `{ ...d.data(), id: d.id }` gives the
   * written record under the document's id.
   */
  lemma ReadBackWithoutId<V>(rec: map<string, V>, docId: V)
    ensures WithoutId(rec)["id" := docId] == rec["id" := docId]
  {
    assert WithoutId(rec)["id" := docId].Keys == rec["id" := docId].Keys;
  }

  /**
   * The record `cleanForFirestore` builds from the record's `Object.entries`
   * pairs, `None` standing for a value that is `undefined`.
   */
  function Cleaned<V>(pairs: seq<(string, Option<V>)>): (r: map<string, V>)
    ensures r.Keys <= set i | 0 <= i < |pairs| :: pairs[i].0
  {
    if pairs == [] then map[]
    else
      var last := pairs[|pairs| - 1];
      var m := Cleaned(pairs[..|pairs| - 1]);
      if last.1.Some? then m[last.0 := last.1.value] else m
  }

  /** The keys of a record's entries are distinct. */
  predicate DistinctKeys<V>(pairs: seq<(string, V)>) {
    forall i, j :: 0 <= i < j < |pairs| ==> pairs[i].0 != pairs[j].0
  }

  /** `cleanForFirestore` keeps exactly the keys whose value is defined, each with its value. */
  lemma {:induction false} CleanedMeaning<V>(pairs: seq<(string, Option<V>)>, i: nat)
    requires DistinctKeys(pairs) && i < |pairs|
    ensures pairs[i].0 in Cleaned(pairs) <==> pairs[i].1.Some?
    ensures pairs[i].1.Some? ==> Cleaned(pairs)[pairs[i].0] == pairs[i].1.value
  {
    var init := pairs[..|pairs| - 1];
    if i < |pairs| - 1 {
      CleanedMeaning(init, i);
    } else {
      forall j | 0 <= j < |init|
        ensures init[j].0 != pairs[i].0
      {
        assert init[j] == pairs[j];
      }
      assert pairs[i].0 !in Cleaned(init);
    }
  }

  /** `cleanForFirestore(data)`: copies the defined values into a fresh record. */
  method CleanForFirestore<V>(pairs: seq<(string, Option<V>)>) returns (result: map<string, V>)
    ensures result == Cleaned(pairs)
  {
    result := map[];
    for i := 0 to |pairs|
      invariant result == Cleaned(pairs[..i])
    {
      assert pairs[..i + 1][..i] == pairs[..i];
      if pairs[i].1.Some? {
        result := result[pairs[i].0 := pairs[i].1.value];
      }
    }
    assert pairs[..|pairs|] == pairs;
  }

  // ---------------------------------------------------------------------
  // Partial updates

  /** A field `updateDoc` receives only when it is defined: otherwise the stored value stays. */
  function Overlay<T>(stored: Option<T>, written: Option<T>): (r: Option<T>)
    ensures written.Some? ==> r == written
    ensures written.None? ==> r == stored
  {
    if written.Some? then written else stored
  }

  function OverlayField<T>(stored: Field<T>, written: Field<T>): (r: Field<T>)
    ensures written.Present? ==> r == written
    ensures !written.Present? ==> r == stored
  {
    if written.Present? then written else stored
  }

  /**
   * The stored entry after `updateDoc` with the cleaned fields of `e`: the
   * defined fields replace the stored ones, the undefined ones leave them.
   */
  function MergeEntry(stored: Entry, e: Entry): Entry {
    Entry(stored.id, Overlay(stored.templateId, e.templateId), e.kind, e.date, e.month, e.name,
      Overlay(stored.calculatedBalances, e.calculatedBalances), Overlay(stored.totalOwed, e.totalOwed))
  }

  /** The same for a template; a template body's own optional fields are merged the same way. */
  function MergeTemplate(stored: Template, t: Template): (r: Template)
    ensures r.id == stored.id
  {
    var body :=
      match (stored.body, t.body)
      case (BillBody(_, si, sm), BillBody(a, i, m)) => BillBody(a, OverlayField(si, i), Overlay(sm, m))
      case _ => t.body;
    Template(stored.id, t.name, t.day, Overlay(stored.day2, t.day2), Overlay(stored.month, t.month),
      Overlay(stored.startMonth, t.startMonth), Overlay(stored.endMonth, t.endMonth),
      t.recurrence, t.autoGenerate, t.isActive, body)
  }

  /** `updateEntry(e)`: the document with `e`'s id takes `e`'s defined fields; the others stay. */
  function UpdatedEntries(entries: seq<Entry>, e: Entry): (r: seq<Entry>)
    ensures |r| == |entries|
    ensures forall j :: 0 <= j < |r| ==>
      r[j] == if entries[j].id == e.id then MergeEntry(entries[j], e) else entries[j]
  {
    seq(|entries|, j requires 0 <= j < |entries| =>
      if entries[j].id == e.id then MergeEntry(entries[j], e) else entries[j])
  }

  /** `updateTemplate(t)` as written: the document with `t`'s id takes `t`'s defined fields. */
  function UpdatedTemplates(templates: seq<Template>, t: Template): (r: seq<Template>)
    ensures |r| == |templates|
    ensures forall j :: 0 <= j < |r| ==>
      r[j] == if templates[j].id == t.id then MergeTemplate(templates[j], t) else templates[j]
  {
    seq(|templates|, j requires 0 <= j < |templates| =>
      if templates[j].id == t.id then MergeTemplate(templates[j], t) else templates[j])
  }

  /**
   * `cleanForFirestore` applied to a template record: a key whose value is
   * `undefined` is not written, so the stored document has no such key.
   * Only `intervalDays` tells the two apart; an absent optional field is
   * `None` either way.
   */
  function CleanedTemplate(t: Template): (r: Template)
    ensures r.id == t.id && r.name == t.name && r.day == t.day && r.day2 == t.day2
    ensures r.month == t.month && r.startMonth == t.startMonth && r.endMonth == t.endMonth
    ensures r.recurrence == t.recurrence && r.autoGenerate == t.autoGenerate && r.isActive == t.isActive
    ensures r.IsBillTemplate() == t.IsBillTemplate() && TemplateAmounts(r) == TemplateAmounts(t)
    ensures r.body.BillBody? ==> !r.body.intervalDays.Undefined?
    ensures r.body.BillBody? && !t.body.intervalDays.Undefined? ==> r.body == t.body
    ensures t.body.BillBody? && t.body.intervalDays.Undefined? ==> r.body.intervalDays.Missing?
  {
    match t.body
    case BillBody(a, Undefined, m) => t.(body := BillBody(a, Missing, m))
    case _ => t
  }

  /** The template saved with an end month cleared keeps the end month it had. */
  lemma ClearedEndMonthStays(stored: Template, t: Template)
    requires stored.endMonth.Some? && t.endMonth.None?
    ensures MergeTemplate(stored, t).endMonth == stored.endMonth
  {
  }

  /** The update meant by the edit form: the document becomes the submitted template. */
  function ReplacedTemplates(templates: seq<Template>, t: Template): (r: seq<Template>)
    ensures |r| == |templates|
    ensures forall j :: 0 <= j < |r| ==> r[j] == if templates[j].id == t.id then t else templates[j]
  {
    seq(|templates|, j requires 0 <= j < |templates| => if templates[j].id == t.id then t else templates[j])
  }

  /**
   * With the whole record written, a template saved with no end month has
   * none afterwards, and the stored template is the one the generator was
   * given for the synchronisation.
   */
  lemma {:induction false} ReplacedTemplateIsSubmitted(templates: seq<Template>, t: Template, j: nat)
    requires j < |templates| && templates[j].id == t.id
    ensures ReplacedTemplates(templates, t)[j] == t
    ensures t.endMonth.None? ==> ReplacedTemplates(templates, t)[j].endMonth.None?
  {
  }

  // ---------------------------------------------------------------------
  // Accounts

  /** The first position of an account with id `id` (`accounts.find`). */
  function FindAccount(accounts: seq<Account>, id: string): (r: Option<nat>)
    ensures r.Some? ==> r.value < |accounts| && accounts[r.value].id == id
    ensures r.Some? ==> forall j :: 0 <= j < r.value ==> accounts[j].id != id
    ensures r.None? ==> forall j :: 0 <= j < |accounts| ==> accounts[j].id != id
  {
    if accounts == [] then None
    else if accounts[0].id == id then Some(0)
    else match FindAccount(accounts[1..], id)
      case None => None
      case Some(k) => Some(k + 1)
  }

  predicate HasAccountNamed(accounts: seq<Account>, name: string) {
    exists a :: a in accounts && a.name == name
  }

  /** `addAccount(name)`: a new account at the end, unless one has exactly this name. */
  function AddedAccount(accounts: seq<Account>, name: string, docId: string): (r: seq<Account>)
    ensures HasAccountNamed(accounts, name) ==> r == accounts
    ensures !HasAccountNamed(accounts, name) ==>
      |r| == |accounts| + 1 && r[..|accounts|] == accounts
      && r[|accounts|] == Account(docId, name, |accounts|)
  {
    if HasAccountNamed(accounts, name) then accounts else accounts + [Account(docId, name, |accounts|)]
  }

  /** Adding the same name twice adds one account: the second call finds the first. */
  lemma AddAccountIdempotent(accounts: seq<Account>, name: string, d1: string, d2: string)
    ensures HasAccountNamed(AddedAccount(accounts, name, d1), name)
    ensures AddedAccount(AddedAccount(accounts, name, d1), name, d2) == AddedAccount(accounts, name, d1)
  {
    var r := AddedAccount(accounts, name, d1);
    if !HasAccountNamed(accounts, name) {
      assert r[|accounts|] in r;
    }
  }

  /** `updateAccount(id, name)`: the account with that id is renamed and keeps its order. */
  function RenamedAccount(accounts: seq<Account>, id: string, name: string): (r: seq<Account>)
    ensures |r| == |accounts|
  {
    match FindAccount(accounts, id)
    case None => accounts
    case Some(k) => accounts[k := Account(id, name, accounts[k].order)]
  }

  /**
   * Renaming changes one name and nothing else: ids and orders stay at
   * every position, only the first account with the id takes the new name,
   * and an unknown id changes nothing.
   */
  lemma RenameMeaning(accounts: seq<Account>, id: string, name: string)
    ensures forall j :: 0 <= j < |accounts| ==>
      RenamedAccount(accounts, id, name)[j].id == accounts[j].id
      && RenamedAccount(accounts, id, name)[j].order == accounts[j].order
    ensures FindAccount(accounts, id).None? ==> RenamedAccount(accounts, id, name) == accounts
    ensures FindAccount(accounts, id).Some? ==>
      var k := FindAccount(accounts, id).value;
      RenamedAccount(accounts, id, name)[k].name == name
      && forall j :: 0 <= j < |accounts| && j != k ==> RenamedAccount(accounts, id, name)[j] == accounts[j]
  {
  }

  /** The accounts other than `id`. */
  function RemovedAccount(accounts: seq<Account>, id: string): (r: seq<Account>)
    ensures forall a :: a in r <==> a in accounts && a.id != id
  {
    if accounts == [] then []
    else
      var rest := RemovedAccount(accounts[1..], id);
      assert forall a :: a in accounts <==> a == accounts[0] || a in accounts[1..];
      if accounts[0].id == id then rest else [accounts[0]] + rest
  }

  /** One `batch.update(ref, { order: index })`: every account with id `id` takes order `k`. */
  function SetOrder(accounts: seq<Account>, id: string, k: int): (r: seq<Account>)
    ensures |r| == |accounts|
    ensures forall j :: 0 <= j < |r| ==>
      r[j] == if accounts[j].id == id then accounts[j].(order := k) else accounts[j]
  {
    seq(|accounts|, j requires 0 <= j < |accounts| =>
      if accounts[j].id == id then accounts[j].(order := k) else accounts[j])
  }

  /** All the updates of `reorderAccounts(newOrder)`, in list order. */
  function Reordered(accounts: seq<Account>, newOrder: seq<Account>): (r: seq<Account>)
    ensures |r| == |accounts|
  {
    if newOrder == [] then accounts
    else SetOrder(Reordered(accounts, newOrder[..|newOrder| - 1]), newOrder[|newOrder| - 1].id, |newOrder| - 1)
  }

  /** Every account of `newOrder` has a document: otherwise the batch fails as a whole. */
  predicate AllStored(accounts: seq<Account>, newOrder: seq<Account>) {
    forall i :: 0 <= i < |newOrder| ==> exists j :: 0 <= j < |accounts| && accounts[j].id == newOrder[i].id
  }

  /** The accounts of `newOrder` have distinct ids. */
  predicate DistinctIds(newOrder: seq<Account>) {
    forall i, j :: 0 <= i < j < |newOrder| ==> newOrder[i].id != newOrder[j].id
  }

  /**
   * After the reorder every account keeps its id and name; an account listed
   * at position `i` of `newOrder` has order `i`, and an unlisted one keeps
   * its order.
   */
  lemma {:induction false} ReorderMeaning(accounts: seq<Account>, newOrder: seq<Account>, j: nat)
    requires DistinctIds(newOrder) && j < |accounts|
    ensures Reordered(accounts, newOrder)[j].id == accounts[j].id
    ensures Reordered(accounts, newOrder)[j].name == accounts[j].name
    ensures forall i :: 0 <= i < |newOrder| && newOrder[i].id == accounts[j].id ==>
      Reordered(accounts, newOrder)[j].order == i
    ensures (forall i :: 0 <= i < |newOrder| ==> newOrder[i].id != accounts[j].id) ==>
      Reordered(accounts, newOrder)[j].order == accounts[j].order
  {
    if newOrder != [] {
      var init := newOrder[..|newOrder| - 1];
      assert DistinctIds(init);
      ReorderMeaning(accounts, init, j);
    }
  }

  // ---------------------------------------------------------------------
  // Synchronising entries with a template

  /** `!(e as Bill).paid`: a payday has no `paid` and counts as unpaid. */
  predicate Deletable(e: Entry, templateId: string) {
    e.templateId == Some(templateId) && !e.IsPaid()
  }

  /** Synchronising a deleted template: the entries it generated that are not paid go. */
  function WithoutUnpaidOf(entries: seq<Entry>, templateId: string): (r: seq<Entry>)
    ensures |r| <= |entries|
  {
    Dashboard.Filter((e: Entry) => !Deletable(e, templateId), entries)
  }

  /**
   * Exactly the unpaid entries of the template are removed, and the rest stay
   * in their order: paid bills of the template and every other entry remain,
   * and none of the template's paydays does.
   */
  lemma DeletionMeaning(entries: seq<Entry>, templateId: string, x: Entry) returns (idx: seq<nat>)
    ensures x in WithoutUnpaidOf(entries, templateId) <==> x in entries && !Deletable(x, templateId)
    ensures Dashboard.Embeds(WithoutUnpaidOf(entries, templateId), entries, idx)
    ensures x.IsPayday() && x.templateId == Some(templateId) ==> x !in WithoutUnpaidOf(entries, templateId)
  {
    Dashboard.FilterMembers((e: Entry) => !Deletable(e, templateId), entries, x);
    idx := Dashboard.FilterMeaning((e: Entry) => !Deletable(e, templateId), entries);
  }

  /** Some entry of the snapshot has the template's id, the month label and the day of `g`. */
  predicate AlreadyExists(snapshot: seq<Entry>, templateId: string, g: Entry) {
    exists e :: e in snapshot && e.templateId == Some(templateId) && e.month == g.month && e.date == g.date
  }

  /** The generated entries that are new against the snapshot, in generated order. */
  function NewOnes(snapshot: seq<Entry>, templateId: string, gen: seq<Entry>): (r: seq<Entry>)
    ensures |r| <= |gen|
  {
    if gen == [] then []
    else
      var init := gen[..|gen| - 1];
      var g := gen[|gen| - 1];
      NewOnes(snapshot, templateId, init) + (if AlreadyExists(snapshot, templateId, g) then [] else [g])
  }

  /** A generated entry is added exactly when it has no twin in the snapshot. */
  lemma {:induction false} NewOnesMembers(snapshot: seq<Entry>, templateId: string, gen: seq<Entry>, x: Entry)
    ensures x in NewOnes(snapshot, templateId, gen) <==> x in gen && !AlreadyExists(snapshot, templateId, x)
  {
    if gen != [] {
      var init := gen[..|gen| - 1];
      assert gen == init + [gen[|gen| - 1]];
      NewOnesMembers(snapshot, templateId, init, x);
    }
  }

  /** The documents the additions become: each under the next fresh id, from `base` on. */
  function Stored(adds: seq<Entry>, docIds: nat -> string, base: nat): (r: seq<Entry>)
    ensures |r| == |adds|
    ensures forall i :: 0 <= i < |r| ==> r[i] == adds[i].(id := docIds(base + i))
  {
    seq(|adds|, i requires 0 <= i < |adds| => adds[i].(id := docIds(base + i)))
  }

  /** The generated entries of `t` (`generateEntries` with `t` in the bill or the payday slot). */
  function GeneratedFor(t: Template, year: int, uuid: nat -> string): seq<Entry> {
    Generator.Generated([t], year, uuid)
  }

  /**
   * Synchronising twice adds nothing the second time: every generated entry
   * either already had a twin in the snapshot or was added by the first call
   * under the template's id.
   */
  lemma SyncTwiceAddsNothing(snapshot: seq<Entry>, t: Template, gen: seq<Entry>, docIds: nat -> string, base: nat)
    requires forall g :: g in gen ==> g.templateId == Some(t.id)
    ensures NewOnes(snapshot + Stored(NewOnes(snapshot, t.id, gen), docIds, base), t.id, gen) == []
  {
    var adds := NewOnes(snapshot, t.id, gen);
    var after := snapshot + Stored(adds, docIds, base);
    forall g | g in gen
      ensures AlreadyExists(after, t.id, g)
    {
      if !AlreadyExists(snapshot, t.id, g) {
        NewOnesMembers(snapshot, t.id, gen, g);
        var i :| 0 <= i < |adds| && adds[i] == g;
        assert after[|snapshot| + i] == g.(id := docIds(base + i));
      } else {
        var e :| e in snapshot && e.templateId == Some(t.id) && e.month == g.month && e.date == g.date;
        assert e in after;
      }
    }
    NothingNew(after, t.id, gen);
  }

  /** When every generated entry has a twin, nothing is new. */
  lemma {:induction false} NothingNew(snapshot: seq<Entry>, templateId: string, gen: seq<Entry>)
    requires forall g :: g in gen ==> AlreadyExists(snapshot, templateId, g)
    ensures NewOnes(snapshot, templateId, gen) == []
  {
    if gen != [] {
      var init := gen[..|gen| - 1];
      assert gen[|gen| - 1] in gen;
      assert forall g :: g in init ==> g in gen;
      NothingNew(snapshot, templateId, init);
    }
  }

  /** One more generated entry: it is added under the next id exactly when it has no twin. */
  lemma SyncStep(snapshot: seq<Entry>, templateId: string, gen: seq<Entry>, i: nat, docIds: nat -> string, base: nat)
    requires i < |gen|
    ensures var adds := NewOnes(snapshot, templateId, gen[..i]);
      var g := gen[i];
      NewOnes(snapshot, templateId, gen[..i + 1]) == adds + (if AlreadyExists(snapshot, templateId, g) then [] else [g])
      && Stored(adds + [g], docIds, base) == Stored(adds, docIds, base) + [g.(id := docIds(base + |adds|))]
  {
    assert gen[..i + 1][..i] == gen[..i];
    var adds := NewOnes(snapshot, templateId, gen[..i]);
    var g := gen[i];
    assert Stored(adds + [g], docIds, base) == Stored(adds, docIds, base) + [g.(id := docIds(base + |adds|))];
  }

  /**
   * Two generated entries with the same month and day that are both new are
   * both added: the check runs against the snapshot, not against the
   * entries added by the same call.
   */
  lemma SameDayTwiceAddedTwice(snapshot: seq<Entry>, templateId: string, g: Entry)
    requires !AlreadyExists(snapshot, templateId, g)
    ensures NewOnes(snapshot, templateId, [g, g]) == [g, g]
  {
    assert [g, g][..1] == [g];
    assert [g][..0] == [];
  }

  /** Every entry generated for `t` names `t` and is unpaid. */
  lemma GeneratedForNamesTemplate(t: Template, year: int, uuid: nat -> string)
    ensures forall g :: g in GeneratedFor(t, year, uuid) ==> g.templateId == Some(t.id) && !g.IsPaid()
  {
    var gen := GeneratedFor(t, year, uuid);
    Generator.GeneratedFrom([t], year, uuid);
    forall g | g in gen
      ensures g.templateId == Some(t.id) && !g.IsPaid()
    {
      var k :| 0 <= k < |gen| && gen[k] == g;
      assert Generator.EntryFrom(gen[k], [t], year);
    }
  }

  /**
   * Adding a template as written: the entries are synchronised under the id
   * the caller made up, while the document gets the store's id. Deleting
   * the template by its document id then leaves every one of those entries.
   */
  lemma AddedEntriesSurviveDelete(snapshot: seq<Entry>, t: Template, docId: string, year: int,
                                  uuid: nat -> string, docIds: nat -> string, base: nat)
    requires t.id != docId
    ensures var added := Stored(NewOnes(snapshot, t.id, GeneratedFor(t, year, uuid)), docIds, base);
      forall x :: x in added ==> x in WithoutUnpaidOf(snapshot + added, docId)
  {
    var added := Stored(NewOnes(snapshot, t.id, GeneratedFor(t, year, uuid)), docIds, base);
    GeneratedForNamesTemplate(t, year, uuid);
    forall x | x in added
      ensures x in WithoutUnpaidOf(snapshot + added, docId)
    {
      var i :| 0 <= i < |added| && added[i] == x;
      NewOnesMembers(snapshot, t.id, GeneratedFor(t, year, uuid), NewOnes(snapshot, t.id, GeneratedFor(t, year, uuid))[i]);
      assert x.templateId == Some(t.id);
      Dashboard.FilterMembers((e: Entry) => !Deletable(e, docId), snapshot + added, x);
    }
  }

  /**
   * Adding a template with its entries synchronised under the document id:
   * deleting the template then removes every entry the addition created
   * (none of them is paid yet).
   */
  lemma AddedEntriesGoWithDelete(snapshot: seq<Entry>, t: Template, docId: string, year: int,
                                 uuid: nat -> string, docIds: nat -> string, base: nat)
    ensures var added := Stored(NewOnes(snapshot, docId, GeneratedFor(t.(id := docId), year, uuid)), docIds, base);
      forall x :: x in added ==> x !in WithoutUnpaidOf(snapshot + added, docId)
  {
    var t' := t.(id := docId);
    var added := Stored(NewOnes(snapshot, docId, GeneratedFor(t', year, uuid)), docIds, base);
    GeneratedForNamesTemplate(t', year, uuid);
    forall x | x in added
      ensures x !in WithoutUnpaidOf(snapshot + added, docId)
    {
      var i :| 0 <= i < |added| && added[i] == x;
      NewOnesMembers(snapshot, docId, GeneratedFor(t', year, uuid), NewOnes(snapshot, docId, GeneratedFor(t', year, uuid))[i]);
      Dashboard.FilterMembers((e: Entry) => !Deletable(e, docId), snapshot + added, x);
    }
  }

  // ---------------------------------------------------------------------
  // The store

  class DataStore {
    var entries: seq<Entry>
    var accounts: seq<Account>
    var templates: seq<Template>
    var paydayTemplates: seq<Template>
    /** How many document ids the store has handed out. */
    var issued: nat
    /** The store's id source: the `n`-th document added gets `docIds(n)`. */
    const docIds: nat -> string

    constructor (docIds: nat -> string)
      ensures entries == [] && accounts == [] && templates == [] && paydayTemplates == []
      ensures issued == 0 && this.docIds == docIds
    {
      entries, accounts, templates, paydayTemplates := [], [], [], [];
      issued := 0;
      this.docIds := docIds;
    }

    /** The next document id, which the caller's document then takes. */
    method NextId() returns (id: string)
      modifies this
      ensures id == docIds(old(issued)) && issued == old(issued) + 1
      ensures entries == old(entries) && accounts == old(accounts)
      ensures templates == old(templates) && paydayTemplates == old(paydayTemplates)
    {
      id := docIds(issued);
      issued := issued + 1;
    }

    /** `addEntry(e)`: a new document with `e`'s fields under a fresh id. */
    method AddEntry(e: Entry)
      modifies this
      ensures entries == old(entries) + [e.(id := docIds(old(issued)))]
      ensures issued == old(issued) + 1
      ensures accounts == old(accounts) && templates == old(templates) && paydayTemplates == old(paydayTemplates)
    {
      var id := NextId();
      entries := entries + [e.(id := id)];
    }

    /** `updateEntry(e)`. */
    method UpdateEntry(e: Entry)
      modifies this`entries
      ensures entries == UpdatedEntries(old(entries), e)
    {
      entries := UpdatedEntries(entries, e);
    }

    /** `deleteEntry(id)`. */
    method DeleteEntry(id: string)
      modifies this`entries
      ensures entries == Dashboard.Filter((e: Entry) => e.id != id, old(entries))
    {
      entries := Dashboard.Filter((e: Entry) => e.id != id, entries);
    }

    /** `addAccount(name)`. */
    method AddAccount(name: string)
      modifies this
      ensures HasAccountNamed(old(accounts), name) ==> accounts == old(accounts) && issued == old(issued)
      ensures !HasAccountNamed(old(accounts), name) ==>
        accounts == AddedAccount(old(accounts), name, docIds(old(issued))) && issued == old(issued) + 1
      ensures entries == old(entries) && templates == old(templates) && paydayTemplates == old(paydayTemplates)
    {
      if !HasAccountNamed(accounts, name) {
        var id := NextId();
        accounts := accounts + [Account(id, name, |accounts|)];
      }
    }

    /** `updateAccount(id, name)`. */
    method UpdateAccount(id: string, name: string)
      modifies this`accounts
      ensures accounts == RenamedAccount(old(accounts), id, name)
    {
      var k := FindAccount(accounts, id);
      if k.Some? {
        accounts := accounts[k.value := Account(id, name, accounts[k.value].order)];
      }
    }

    /** `removeAccount(id)`. */
    method RemoveAccount(id: string)
      modifies this`accounts
      ensures accounts == RemovedAccount(old(accounts), id)
    {
      accounts := RemovedAccount(accounts, id);
    }

    /**
     * `reorderAccounts(newOrder)`: one batch that sets each listed account's
     * order to its position in the list; a batch that names an account with
     * no document fails and changes nothing.
     */
    method ReorderAccounts(newOrder: seq<Account>)
      modifies this`accounts
      ensures AllStored(old(accounts), newOrder) ==> accounts == Reordered(old(accounts), newOrder)
      ensures !AllStored(old(accounts), newOrder) ==> accounts == old(accounts)
    {
      if AllStored(accounts, newOrder) {
        var batch := accounts;
        for i := 0 to |newOrder|
          invariant batch == Reordered(accounts, newOrder[..i])
        {
          assert newOrder[..i + 1][..i] == newOrder[..i];
          batch := SetOrder(batch, newOrder[i].id, i);
        }
        assert newOrder[..|newOrder|] == newOrder;
        accounts := batch;
      }
    }

    /**
     * `syncEntriesWithTemplate(t)`: each generated entry with no twin in the
     * entries as they were when the call started is added under a fresh id.
     */
    method SyncEntries(t: Template, year: int, uuid: nat -> string)
      modifies this
      ensures var adds := NewOnes(old(entries), t.id, GeneratedFor(t, year, uuid));
        entries == old(entries) + Stored(adds, docIds, old(issued)) && issued == old(issued) + |adds|
      ensures accounts == old(accounts) && templates == old(templates) && paydayTemplates == old(paydayTemplates)
    {
      var gen := Generate(t, year, uuid);
      var snapshot := entries;
      var base := issued;
      for i := 0 to |gen|
        invariant entries == snapshot + Stored(NewOnes(snapshot, t.id, gen[..i]), docIds, base)
        invariant issued == base + |NewOnes(snapshot, t.id, gen[..i])|
        invariant accounts == old(accounts) && templates == old(templates) && paydayTemplates == old(paydayTemplates)
      {
        SyncOne(snapshot, t.id, gen, i, base);
      }
      assert gen[..|gen|] == gen;
    }

    /** One round of the synchronisation: `gen[i]` is added when the snapshot has no twin of it. */
    method SyncOne(snapshot: seq<Entry>, templateId: string, gen: seq<Entry>, i: nat, base: nat)
      requires i < |gen|
      requires entries == snapshot + Stored(NewOnes(snapshot, templateId, gen[..i]), docIds, base)
      requires issued == base + |NewOnes(snapshot, templateId, gen[..i])|
      modifies this
      ensures entries == snapshot + Stored(NewOnes(snapshot, templateId, gen[..i + 1]), docIds, base)
      ensures issued == base + |NewOnes(snapshot, templateId, gen[..i + 1])|
      ensures accounts == old(accounts) && templates == old(templates) && paydayTemplates == old(paydayTemplates)
    {
      ghost var adds := NewOnes(snapshot, templateId, gen[..i]);
      SyncStep(snapshot, templateId, gen, i, docIds, base);
      if !AlreadyExists(snapshot, templateId, gen[i]) {
        AddEntry(gen[i]);
        assert entries == snapshot + (Stored(adds, docIds, base) + [gen[i].(id := docIds(base + |adds|))]);
      }
    }

    /** Synchronising a deleted template. */
    method SyncDeleted(t: Template)
      modifies this`entries
      ensures entries == WithoutUnpaidOf(old(entries), t.id)
    {
      entries := WithoutUnpaidOf(entries, t.id);
    }

    /**
     * `addTemplate(t)` as written: the template document gets a fresh id,
     * and the entries are synchronised with `t` itself, under `t.id`.
     */
    method AddTemplate(t: Template, year: int, uuid: nat -> string)
      modifies this
      ensures templates == old(templates) + [CleanedTemplate(t).(id := docIds(old(issued)))]
      ensures var adds := NewOnes(old(entries), t.id, GeneratedFor(t, year, uuid));
        entries == old(entries) + Stored(adds, docIds, old(issued) + 1)
      ensures accounts == old(accounts) && paydayTemplates == old(paydayTemplates)
    {
      var id := NextId();
      templates := templates + [CleanedTemplate(t).(id := id)];
      SyncEntries(t, year, uuid);
    }

    /**
     * `addTemplate(t)` with the entries synchronised under the document id the
     * template is stored under, so that a later update or deletion finds them.
     */
    method AddTemplateUnderDocId(t: Template, year: int, uuid: nat -> string)
      modifies this
      ensures templates == old(templates) + [CleanedTemplate(t).(id := docIds(old(issued)))]
      ensures var adds := NewOnes(old(entries), docIds(old(issued)), GeneratedFor(t.(id := docIds(old(issued))), year, uuid));
        entries == old(entries) + Stored(adds, docIds, old(issued) + 1)
      ensures accounts == old(accounts) && paydayTemplates == old(paydayTemplates)
    {
      var id := NextId();
      templates := templates + [CleanedTemplate(t).(id := id)];
      SyncEntries(t.(id := id), year, uuid);
    }

    /**
     * `updateTemplate(t)` as written: a partial update, then a synchronisation
     * with `t`. `updateDoc` rejects when no document has `t.id`, and then the
     * synchronisation chained after it never runs.
     */
    method UpdateTemplate(t: Template, year: int, uuid: nat -> string)
      modifies this
      ensures (forall s :: s in old(templates) ==> s.id != t.id) ==>
        templates == old(templates) && entries == old(entries) && issued == old(issued)
      ensures (exists s :: s in old(templates) && s.id == t.id) ==>
        templates == UpdatedTemplates(old(templates), t)
        && entries == old(entries) + Stored(NewOnes(old(entries), t.id, GeneratedFor(t, year, uuid)), docIds, old(issued))
      ensures accounts == old(accounts) && paydayTemplates == old(paydayTemplates)
    {
      if FindTemplate(templates, t.id).Some? {
        templates := UpdatedTemplates(templates, t);
        SyncEntries(t, year, uuid);
      }
    }

    /** `updateTemplate(t)` writing the whole record, so that cleared fields are cleared. */
    method ReplaceTemplate(t: Template, year: int, uuid: nat -> string)
      modifies this
      ensures (forall s :: s in old(templates) ==> s.id != t.id) ==>
        templates == old(templates) && entries == old(entries) && issued == old(issued)
      ensures (exists s :: s in old(templates) && s.id == t.id) ==>
        templates == ReplacedTemplates(old(templates), t)
        && entries == old(entries) + Stored(NewOnes(old(entries), t.id, GeneratedFor(t, year, uuid)), docIds, old(issued))
      ensures accounts == old(accounts) && paydayTemplates == old(paydayTemplates)
    {
      if FindTemplate(templates, t.id).Some? {
        templates := ReplacedTemplates(templates, t);
        SyncEntries(t, year, uuid);
      }
    }

    /** `deleteTemplate(id)`: nothing happens for an unknown id. */
    method DeleteTemplate(id: string)
      modifies this
      ensures (forall t :: t in old(templates) ==> t.id != id) ==>
        templates == old(templates) && entries == old(entries)
      ensures (exists t :: t in old(templates) && t.id == id) ==>
        (forall t :: t in templates <==> t in old(templates) && t.id != id)
        && entries == WithoutUnpaidOf(old(entries), id)
      ensures accounts == old(accounts) && paydayTemplates == old(paydayTemplates) && issued == old(issued)
    {
      var found := FindTemplate(templates, id);
      if found.Some? {
        templates := RemovedTemplate(templates, id);
        SyncDeleted(found.value);
      }
    }

    /** `addPaydayTemplate(t)`, as `addTemplate`. */
    method AddPaydayTemplate(t: Template, year: int, uuid: nat -> string)
      modifies this
      ensures paydayTemplates == old(paydayTemplates) + [CleanedTemplate(t).(id := docIds(old(issued)))]
      ensures var adds := NewOnes(old(entries), t.id, GeneratedFor(t, year, uuid));
        entries == old(entries) + Stored(adds, docIds, old(issued) + 1)
      ensures accounts == old(accounts) && templates == old(templates)
    {
      var id := NextId();
      paydayTemplates := paydayTemplates + [CleanedTemplate(t).(id := id)];
      SyncEntries(t, year, uuid);
    }

    /** `updatePaydayTemplate(t)`, as `updateTemplate`: nothing happens when no document has `t.id`. */
    method UpdatePaydayTemplate(t: Template, year: int, uuid: nat -> string)
      modifies this
      ensures (forall s :: s in old(paydayTemplates) ==> s.id != t.id) ==>
        paydayTemplates == old(paydayTemplates) && entries == old(entries) && issued == old(issued)
      ensures (exists s :: s in old(paydayTemplates) && s.id == t.id) ==>
        paydayTemplates == UpdatedTemplates(old(paydayTemplates), t)
        && entries == old(entries) + Stored(NewOnes(old(entries), t.id, GeneratedFor(t, year, uuid)), docIds, old(issued))
      ensures accounts == old(accounts) && templates == old(templates)
    {
      if FindTemplate(paydayTemplates, t.id).Some? {
        paydayTemplates := UpdatedTemplates(paydayTemplates, t);
        SyncEntries(t, year, uuid);
      }
    }

    /** `deletePaydayTemplate(id)`: nothing happens for an unknown id. */
    method DeletePaydayTemplate(id: string)
      modifies this
      ensures (forall t :: t in old(paydayTemplates) ==> t.id != id) ==>
        paydayTemplates == old(paydayTemplates) && entries == old(entries)
      ensures (exists t :: t in old(paydayTemplates) && t.id == id) ==>
        (forall t :: t in paydayTemplates <==> t in old(paydayTemplates) && t.id != id)
        && entries == WithoutUnpaidOf(old(entries), id)
      ensures accounts == old(accounts) && templates == old(templates) && issued == old(issued)
    {
      var found := FindTemplate(paydayTemplates, id);
      if found.Some? {
        paydayTemplates := RemovedTemplate(paydayTemplates, id);
        SyncDeleted(found.value);
      }
    }
  }

  /** `generateEntries` with a bill template in the bill slot and a payday template in the payday slot. */
  method Generate(t: Template, year: int, uuid: nat -> string) returns (gen: seq<Entry>)
    ensures gen == GeneratedFor(t, year, uuid)
  {
    if t.IsBillTemplate() {
      gen := Generator.GenerateEntries([t], [], year, uuid);
      assert [t] + [] == [t];
    } else {
      gen := Generator.GenerateEntries([], [t], year, uuid);
      assert [] + [t] == [t];
    }
  }

  /** `templates.find(t => t.id === id)`. */
  function FindTemplate(templates: seq<Template>, id: string): (r: Option<Template>)
    ensures r.Some? ==> r.value in templates && r.value.id == id
    ensures r.None? ==> forall t :: t in templates ==> t.id != id
  {
    if templates == [] then None
    else if templates[0].id == id then Some(templates[0])
    else FindTemplate(templates[1..], id)
  }

  /** The templates other than `id`. */
  function RemovedTemplate(templates: seq<Template>, id: string): (r: seq<Template>)
    ensures forall t :: t in r <==> t in templates && t.id != id
  {
    if templates == [] then []
    else
      var rest := RemovedTemplate(templates[1..], id);
      assert forall t :: t in templates <==> t == templates[0] || t in templates[1..];
      if templates[0].id == id then rest else [templates[0]] + rest
  }
}

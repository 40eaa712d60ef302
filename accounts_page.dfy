/**
 * The account management page: adding an account with a duplicate check,
 * renaming one, and moving one up or down, which sends the whole list, with
 * two neighbours swapped, to `reorderAccounts`.
 */
module AccountsPage {
  import opened Wrappers
  import opened Text
  import opened BudgetTypes
  import Store

  // ---------------------------------------------------------------------
  // Adding an account

  /** What submitting the add form does. */
  datatype AddResult =
    | Ignored              // blank input: nothing happens
    | Rejected(error: string) // the error message shown, nothing added
    | Added(name: string)   // `addAccount(name)`, then the input and the error are cleared

  const DuplicateError: string := "Account already exists"

  /** Some account has the name `name`, ignoring the case of ASCII letters. */
  predicate NameTaken(accounts: seq<Account>, name: string) {
    exists a :: a in accounts && ToLower(a.name) == ToLower(name)
  }

  /** `handleAdd` for the input text `input`. */
  function HandleAdd(accounts: seq<Account>, input: string): (r: AddResult)
    ensures r == Ignored <==> Trim(input) == []
    ensures r.Rejected? <==> Trim(input) != [] && NameTaken(accounts, Trim(input))
    ensures r.Rejected? ==> r.error == DuplicateError
    ensures r.Added? ==> r.name == Trim(input) && r.name != [] && !NameTaken(accounts, r.name)
  {
    var trimmed := Trim(input);
    if trimmed == [] then Ignored
    else if NameTaken(accounts, trimmed) then Rejected(DuplicateError)
    else Added(trimmed)
  }

  /**
   * A name the page accepts is new to the store as well, so `addAccount`
   * appends it with the next order: the page's check is the stricter one.
   */
  lemma AcceptedNameIsAdded(accounts: seq<Account>, input: string, docId: string)
    requires HandleAdd(accounts, input).Added?
    ensures var n := HandleAdd(accounts, input).name;
      Store.AddedAccount(accounts, n, docId) == accounts + [Account(docId, n, |accounts|)]
  {
    var n := HandleAdd(accounts, input).name;
    assert !NameTaken(accounts, n);
    assert forall a :: a in accounts ==> a.name != n;
  }

  /** Adding the name the page accepted makes the same input a duplicate. */
  lemma AddedThenDuplicate(accounts: seq<Account>, input: string, docId: string)
    requires HandleAdd(accounts, input).Added?
    ensures HandleAdd(accounts + [Account(docId, Trim(input), |accounts|)], input) == Rejected(DuplicateError)
  {
    var grown := accounts + [Account(docId, Trim(input), |accounts|)];
    assert grown[|accounts|] in grown;
  }

  // ---------------------------------------------------------------------
  // Renaming

  /** `editingId` is set and not empty. */
  predicate Editing(editingId: Option<string>) {
    Truthy(editingId)
  }

  /** `saveEdit`: the `updateAccount(id, name)` call it makes, if any. */
  function SaveEdit(editingId: Option<string>, editName: string): (r: Option<(string, string)>)
    ensures r.Some? <==> Editing(editingId) && Trim(editName) != []
    ensures r.Some? ==> r.value == (editingId.value, Trim(editName))
  {
    if Editing(editingId) && Trim(editName) != [] then Some((editingId.value, Trim(editName))) else None
  }

  /**
   * A saved rename keeps the account's id and order, gives it a name without
   * surrounding white space, and leaves the other accounts as they were.
   */
  lemma SaveEditRenamesOne(accounts: seq<Account>, editingId: Option<string>, editName: string, k: nat)
    requires SaveEdit(editingId, editName).Some?
    requires Store.FindAccount(accounts, editingId.value) == Some(k)
    ensures var r := Store.RenamedAccount(accounts, editingId.value, Trim(editName));
      r[k] == Account(accounts[k].id, Trim(editName), accounts[k].order)
      && (forall j :: 0 <= j < |accounts| && j != k ==> r[j] == accounts[j])
      && (r[k].name != [] ==> !IsSpace(r[k].name[0]))
  {
    Store.RenameMeaning(accounts, editingId.value, Trim(editName));
  }

  // ---------------------------------------------------------------------
  // Moving

  datatype Direction = Up | Down

  /** The neighbour position `moveAccount` swaps with. */
  function SwapIndex(index: int, dir: Direction): int {
    if dir == Up then index - 1 else index + 1
  }

  /** `s` with the elements at `i` and `j` exchanged. */
  function Swapped(s: seq<Account>, i: nat, j: nat): (r: seq<Account>)
    requires i < |s| && j < |s|
    ensures |r| == |s| && r[i] == s[j] && r[j] == s[i]
    ensures forall k :: 0 <= k < |s| && k != i && k != j ==> r[k] == s[k]
  {
    s[i := s[j]][j := s[i]]
  }

  /** Exchanging two elements is a permutation. */
  lemma SwappedPermutes(s: seq<Account>, i: nat, j: nat)
    requires i < |s| && j < |s|
    ensures multiset(Swapped(s, i, j)) == multiset(s)
  {
    var t := s[i := s[j]];
    assert multiset(t) == multiset(s) - multiset{s[i]} + multiset{s[j]};
    assert multiset(t[j := s[i]]) == multiset(t) - multiset{t[j]} + multiset{s[i]};
  }

  /**
   * `moveAccount(index, dir)` as written: the list it passes to
   * `reorderAccounts`, or `None` when the neighbour is out of range. `index`
   * is the row's position in the page's name-sorted listing, while
   * `accounts` is in store order.
   */
  method MoveAccount(accounts: seq<Account>, index: int, dir: Direction) returns (sent: Option<seq<Account>>)
    ensures sent == Moved(accounts, index, dir)
  {
    var swap := SwapIndex(index, dir);
    if swap >= 0 && swap < |accounts| && 0 <= index < |accounts| {
      var copy := new Account[|accounts|](i requires 0 <= i < |accounts| => accounts[i]);
      assert copy[..] == accounts;
      copy[index], copy[swap] := copy[swap], copy[index];
      assert copy[..] == Swapped(accounts, index, swap);
      sent := Some(copy[..]);
    } else {
      sent := None;
    }
  }

  /** The list the move sends: `accounts` with the two slots exchanged. */
  function Moved(accounts: seq<Account>, index: int, dir: Direction): (r: Option<seq<Account>>)
    ensures r.Some? ==> multiset(r.value) == multiset(accounts)
  {
    var j := SwapIndex(index, dir);
    if 0 <= j < |accounts| && 0 <= index < |accounts| then
      SwappedPermutes(accounts, index, j);
      Some(Swapped(accounts, index, j))
    else None
  }

  /**
   * A move sends a permutation of the accounts in which exactly the slot and
   * its neighbour changed places; a move past either end sends nothing.
   */
  lemma MovedMeaning(accounts: seq<Account>, index: int, dir: Direction)
    ensures var j := SwapIndex(index, dir);
      (0 <= index < |accounts| && 0 <= j < |accounts|) <==> Moved(accounts, index, dir).Some?
    ensures Moved(accounts, index, dir).Some? ==>
      var r := Moved(accounts, index, dir).value;
      var j := SwapIndex(index, dir);
      multiset(r) == multiset(accounts) && r[index] == accounts[j] && r[j] == accounts[index]
      && forall k :: 0 <= k < |accounts| && k != index && k != j ==> r[k] == accounts[k]
  {
  }

  /**
   * The moved account is the one at the row's position in store order, not
   * the one shown on that row: with B stored before A and the rows listed
   * by name (A first), "move down" on A's row (row 0) sends A before B,
   * so A moves up.
   */
  lemma MoveDownOnFirstRowMovesOtherAccount()
    ensures var b := Account("b", "B", 0);
      var a := Account("a", "A", 1);
      Moved([b, a], 0, Down) == Some([a, b])
  {
    var b := Account("b", "B", 0);
    var a := Account("a", "A", 1);
    assert Swapped([b, a], 0, 1) == [a, b];
  }

  /** The first position of the account with id `id`. */
  function PositionOf(accounts: seq<Account>, id: string): (r: Option<nat>)
    ensures r.Some? ==> r.value < |accounts| && accounts[r.value].id == id
  {
    Store.FindAccount(accounts, id)
  }

  /** The move meant by the row's buttons: the clicked account changes places with its neighbour in store order. */
  function MovedById(accounts: seq<Account>, id: string, dir: Direction): (r: Option<seq<Account>>)
  {
    match PositionOf(accounts, id)
    case None => None
    case Some(k) => Moved(accounts, k, dir)
  }

  /**
   * Moving by id moves the clicked account: down puts it one place later,
   * up one place earlier, and the account it passes takes its old place.
   */
  lemma MovedByIdMovesClicked(accounts: seq<Account>, id: string, dir: Direction)
    requires MovedById(accounts, id, dir).Some?
    ensures var k := PositionOf(accounts, id).value;
      var j := SwapIndex(k, dir);
      var r := MovedById(accounts, id, dir).value;
      0 <= j < |accounts| && r[j].id == id && r[k] == accounts[j]
      && multiset(r) == multiset(accounts)
  {
    var k := PositionOf(accounts, id).value;
    MovedMeaning(accounts, k, dir);
  }
}

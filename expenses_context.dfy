/** The in-memory expense store: the reducer `expensesReducer` and the provider
    that owns its state (store/expenses-context.js). */
module ExpensesContext {

  import opened Options

  /** A JavaScript `Date`, given by its time value in milliseconds since the epoch. */
  datatype Date = Date(time: int)

  /** An expense record `{ id, description, amount, date }`; `amount` is a JavaScript number. */
  datatype Expense = Expense(id: string, description: string, amount: real, date: Date)

  /** The fields an UPDATE overlays on a record (`action.payload.data`); `None` means
      that the object has no such property. */
  datatype ExpenseData = ExpenseData(
    id: Option<string>,
    description: Option<string>,
    amount: Option<real>,
    date: Option<Date>)

  /** The actions the reducer understands, and any other action type: `Other(tag)`
      stands for an action whose `type` is none of "ADD", "UPDATE", "DELETE", "SET". */
  datatype Action =
    | Add(expense: Expense)
    | Update(id: string, data: ExpenseData)
    | Delete(id: string)
    | Set(expenses: seq<Expense>)
    | Other(tag: string)

  predicate HasId(s: seq<Expense>, id: string) {
    exists k :: 0 <= k < |s| && s[k].id == id
  }

  /** `state.findIndex(e => e.id === id)`: the first index whose id matches, or -1. */
  function FindIndex(s: seq<Expense>, id: string): (i: int)
    ensures -1 <= i < |s|
    ensures i == -1 <==> !HasId(s, id)
    ensures 0 <= i ==> s[i].id == id && forall k :: 0 <= k < i ==> s[k].id != id
  {
    if s == [] then -1
    else if s[0].id == id then 0
    else
      var j := FindIndex(s[1..], id);
      assert forall k :: 0 <= k < |s[1..]| ==> s[1..][k] == s[k + 1];
      if j == -1 then -1 else j + 1
  }

  /** `{ ...e, ...data }`: every property present in `data` overrides the record's. */
  function Overlay(e: Expense, data: ExpenseData): (r: Expense)
    ensures data.id == None ==> r.id == e.id
    ensures data == ExpenseData(None, None, None, None) ==> r == e
    ensures data.id.Some? && data.description.Some? && data.amount.Some? && data.date.Some? ==>
      r == Expense(data.id.value, data.description.value, data.amount.value, data.date.value)
  {
    Expense(
      if data.id.Some? then data.id.value else e.id,
      if data.description.Some? then data.description.value else e.description,
      if data.amount.Some? then data.amount.value else e.amount,
      if data.date.Some? then data.date.value else e.date)
  }

  /** `state.filter(e => e.id !== id)`. */
  function WithoutId(s: seq<Expense>, id: string): (r: seq<Expense>)
    ensures |r| <= |s|
    ensures forall x :: x in r <==> x in s && x.id != id
  {
    if s == [] then []
    else if s[0].id != id then [s[0]] + WithoutId(s[1..], id)
    else WithoutId(s[1..], id)
  }

  /** The sequence in the opposite order, as `Array.prototype.reverse` leaves it. */
  function Reversed(s: seq<Expense>): (r: seq<Expense>)
    ensures |r| == |s| && multiset(r) == multiset(s)
  {
    if s == [] then []
    else
      assert s == [s[0]] + s[1..];
      Reversed(s[1..]) + [s[0]]
  }

  /** `expensesReducer(state, action)`, as its element sequence. */
  function Reduce(state: seq<Expense>, action: Action): (r: seq<Expense>)
    ensures action.Add? ==> |r| == |state| + 1 && r[0] == action.expense
    ensures action.Update? ==> |r| == |state| && (forall k :: 0 <= k < |r| ==> r[k] == state[k] || k == FindIndex(state, action.id))
    ensures action.Delete? ==> |r| <= |state| && forall k :: 0 <= k < |r| ==> r[k].id != action.id
    ensures action.Set? ==> multiset(r) == multiset(action.expenses)
    ensures action.Other? ==> r == state
  {
    match action
    case Add(e) => [e] + state
    case Update(id, data) =>
      var i := FindIndex(state, id);
      // With i == -1 the source assigns to the property "-1" of the copy,
      // which is not an element: the elements are those of `state`.
      if i == -1 then state else state[i := Overlay(state[i], data)]
    case Delete(id) => WithoutId(state, id)
    case Set(list) => Reversed(list)
    case Other(_) => state
  }

  /** The state after dispatching `actions` in order, starting from `state`. */
  function Replay(state: seq<Expense>, actions: seq<Action>): (r: seq<Expense>)
    ensures (forall k :: 0 <= k < |actions| ==> actions[k].Other?) ==> r == state
    ensures (forall k :: 0 <= k < |actions| ==> actions[k].Add?) ==> |r| == |state| + |actions|
  {
    if actions == [] then state
    else Reduce(Replay(state, actions[..|actions| - 1]), actions[|actions| - 1])
  }

  predicate DistinctIds(s: seq<Expense>) {
    forall j, k :: 0 <= j < k < |s| ==> s[j].id != s[k].id
  }

  // ---------------------------------------------------------------------------
  // ADD

  lemma AddPrepends(state: seq<Expense>, e: Expense)
    ensures var r := Reduce(state, Add(e));
      |r| == |state| + 1 && r[0] == e && r[1..] == state
  {
  }

  /** With distinct ids before, ADD keeps them distinct exactly when the new id is fresh. */
  lemma AddKeepsDistinctIffFresh(state: seq<Expense>, e: Expense)
    requires DistinctIds(state)
    ensures DistinctIds(Reduce(state, Add(e))) <==> !HasId(state, e.id)
  {
    var r := Reduce(state, Add(e));
    if HasId(state, e.id) {
      var k :| 0 <= k < |state| && state[k].id == e.id;
      assert r[0].id == r[k + 1].id;
    }
  }

  // ---------------------------------------------------------------------------
  // DELETE

  /** DELETE keeps exactly the records with another id, each as often as before. */
  lemma DeleteKeepsExactlyTheOthers(state: seq<Expense>, id: string)
    ensures var r := Reduce(state, Delete(id));
      (forall x :: x in r <==> x in state && x.id != id) &&
      (forall x :: multiset(r)[x] == if x.id == id then 0 else multiset(state)[x])
  {
    WithoutIdCounts(state, id);
  }

  lemma {:induction false} WithoutIdCounts(s: seq<Expense>, id: string)
    ensures forall x :: multiset(WithoutId(s, id))[x] == if x.id == id then 0 else multiset(s)[x]
  {
    if s != [] {
      WithoutIdCounts(s[1..], id);
      assert s == [s[0]] + s[1..];
    }
  }

  /** DELETE keeps relative order: filtering a concatenation filters each part. */
  lemma DeleteKeepsOrder(a: seq<Expense>, b: seq<Expense>, id: string)
    ensures Reduce(a + b, Delete(id)) == Reduce(a, Delete(id)) + Reduce(b, Delete(id))
  {
    WithoutIdOfConcat(a, b, id);
  }

  lemma {:induction false} WithoutIdOfConcat(a: seq<Expense>, b: seq<Expense>, id: string)
    ensures WithoutId(a + b, id) == WithoutId(a, id) + WithoutId(b, id)
  {
    if a == [] {
      assert a + b == b;
    } else {
      assert (a + b)[1..] == a[1..] + b;
      WithoutIdOfConcat(a[1..], b, id);
    }
  }

  /** DELETE of an id that no record has leaves the sequence as it was. */
  lemma {:induction false} DeleteAbsentIsIdentity(state: seq<Expense>, id: string)
    requires !HasId(state, id)
    ensures Reduce(state, Delete(id)) == state
  {
    if state != [] {
      assert !HasId(state[1..], id) by {
        forall k | 0 <= k < |state[1..]| ensures state[1..][k].id != id {
          assert state[1..][k] == state[k + 1];
        }
      }
      DeleteAbsentIsIdentity(state[1..], id);
      assert state == [state[0]] + state[1..];
    }
  }

  lemma DeleteIsIdempotent(state: seq<Expense>, id: string)
    ensures var once := Reduce(state, Delete(id));
      Reduce(once, Delete(id)) == once
  {
    var once := Reduce(state, Delete(id));
    assert !HasId(once, id) by {
      forall k | 0 <= k < |once| ensures once[k].id != id {
        assert once[k] in once;
      }
    }
    DeleteAbsentIsIdentity(once, id);
  }

  lemma DeleteKeepsDistinct(state: seq<Expense>, id: string)
    requires DistinctIds(state)
    ensures DistinctIds(Reduce(state, Delete(id)))
  {
    WithoutIdKeepsDistinct(state, id);
  }

  lemma HeadIdNotInTail(s: seq<Expense>)
    requires DistinctIds(s) && s != []
    ensures forall x :: x in s[1..] ==> x.id != s[0].id
  {
    forall x | x in s[1..] ensures x.id != s[0].id {
      var k :| 0 <= k < |s[1..]| && s[1..][k] == x;
      assert s[k + 1] == x;
    }
  }

  lemma {:induction false} WithoutIdKeepsDistinct(s: seq<Expense>, id: string)
    requires DistinctIds(s)
    ensures DistinctIds(WithoutId(s, id))
  {
    if s != [] {
      var tail := s[1..];
      assert DistinctIds(tail) by {
        forall j, k | 0 <= j < k < |tail| ensures tail[j].id != tail[k].id {
          assert tail[j] == s[j + 1] && tail[k] == s[k + 1];
        }
      }
      WithoutIdKeepsDistinct(tail, id);
      var rest := WithoutId(tail, id);
      if s[0].id != id {
        HeadIdNotInTail(s);
        var r := [s[0]] + rest;
        forall j, k | 0 <= j < k < |r| ensures r[j].id != r[k].id {
          if j == 0 {
            assert r[k] == rest[k - 1] && r[k] in rest;
          } else {
            assert r[j] == rest[j - 1] && r[k] == rest[k - 1];
          }
        }
      }
    }
  }

  // ---------------------------------------------------------------------------
  // UPDATE

  /** UPDATE of a present id changes only the first record with that id, which
      becomes the old record overlaid with the data, at the same position. */
  lemma UpdatePresent(state: seq<Expense>, id: string, data: ExpenseData)
    requires HasId(state, id)
    ensures var r := Reduce(state, Update(id, data));
      var i := FindIndex(state, id);
      0 <= i < |state| && |r| == |state| &&
      state[i].id == id && (forall k :: 0 <= k < i ==> state[k].id != id) &&
      r[i] == Overlay(state[i], data) &&
      (forall k :: 0 <= k < |state| && k != i ==> r[k] == state[k])
  {
  }

  /** UPDATE of an id that no record has leaves the element sequence as it was. */
  lemma UpdateAbsentIsIdentity(state: seq<Expense>, id: string, data: ExpenseData)
    requires !HasId(state, id)
    ensures Reduce(state, Update(id, data)) == state
  {
  }

  /** UPDATE whose data carries no `id` keeps the ids distinct. */
  lemma UpdateWithoutIdKeepsDistinct(state: seq<Expense>, id: string, data: ExpenseData)
    requires DistinctIds(state) && data.id == None
    ensures DistinctIds(Reduce(state, Update(id, data)))
  {
  }

  // ---------------------------------------------------------------------------
  // SET

  lemma {:induction false} ReversedAt(s: seq<Expense>, k: int)
    requires 0 <= k < |s|
    ensures |Reversed(s)| == |s| && Reversed(s)[k] == s[|s| - 1 - k]
  {
    if k < |s| - 1 {
      ReversedAt(s[1..], k);
    }
  }

  /** SET stores the incoming list in reverse order: same length, same records. */
  lemma SetReverses(state: seq<Expense>, list: seq<Expense>)
    ensures var r := Reduce(state, Set(list));
      |r| == |list| &&
      (forall k :: 0 <= k < |list| ==> r[k] == list[|list| - 1 - k]) &&
      multiset(r) == multiset(list)
  {
    forall k | 0 <= k < |list| ensures Reversed(list)[k] == list[|list| - 1 - k] {
      ReversedAt(list, k);
    }
  }

  lemma SetKeepsDistinct(state: seq<Expense>, list: seq<Expense>)
    requires DistinctIds(list)
    ensures DistinctIds(Reduce(state, Set(list)))
  {
    var r := Reduce(state, Set(list));
    SetReverses(state, list);
    forall j, k | 0 <= j < k < |r| ensures r[j].id != r[k].id {
      assert r[j] == list[|list| - 1 - j] && r[k] == list[|list| - 1 - k];
    }
  }

  // ---------------------------------------------------------------------------
  // Any other action type

  lemma OtherIsIdentity(state: seq<Expense>, tag: string)
    requires tag !in {"ADD", "UPDATE", "DELETE", "SET"}
    ensures Reduce(state, Other(tag)) == state
  {
  }

  // ---------------------------------------------------------------------------
  // Unique ids over a whole history

  /** An action that cannot introduce a duplicate id into `state`: a fresh id for
      ADD, no `id` in the data of UPDATE, a list with distinct ids for SET. */
  predicate Disciplined(state: seq<Expense>, action: Action) {
    match action
    case Add(e) => !HasId(state, e.id)
    case Update(_, data) => data.id == None
    case Set(list) => DistinctIds(list)
    case Delete(_) => true
    case Other(_) => true
  }

  predicate DisciplinedHistory(actions: seq<Action>) {
    forall k :: 0 <= k < |actions| ==> Disciplined(Replay([], actions[..k]), actions[k])
  }

  lemma DisciplinedStepKeepsDistinct(state: seq<Expense>, action: Action)
    requires DistinctIds(state) && Disciplined(state, action)
    ensures DistinctIds(Reduce(state, action))
  {
    match action
    case Add(e) => AddKeepsDistinctIffFresh(state, e);
    case Update(id, data) => UpdateWithoutIdKeepsDistinct(state, id, data);
    case Delete(id) => DeleteKeepsDistinct(state, id);
    case Set(list) => SetKeepsDistinct(state, list);
    case Other(_) =>
  }

  /** Starting from the provider's empty state, a disciplined history of
      dispatches never leaves two records with the same id. */
  lemma {:induction false} ReplayKeepsIdsDistinct(actions: seq<Action>)
    requires DisciplinedHistory(actions)
    ensures DistinctIds(Replay([], actions))
  {
    if actions != [] {
      var n := |actions| - 1;
      var prefix := actions[..n];
      assert DisciplinedHistory(prefix) by {
        forall k | 0 <= k < |prefix|
          ensures Disciplined(Replay([], prefix[..k]), prefix[k])
        {
          assert prefix[..k] == actions[..k];
        }
      }
      ReplayKeepsIdsDistinct(prefix);
      assert Disciplined(Replay([], actions[..n]), actions[n]);
      DisciplinedStepKeepsDistinct(Replay([], prefix), actions[n]);
    }
  }

  // ---------------------------------------------------------------------------
  // The provider

  /** `ExpenseContextProvider`: the state held by `useReducer(expensesReducer, [])`
      and the four helpers, each of which dispatches one action. */
  class ExpenseContextProvider {
    var expenses: seq<Expense>
    /** Every action dispatched so far, oldest first. */
    ghost var dispatched: seq<Action>

    ghost predicate Valid()
      reads this
    {
      expenses == Replay([], dispatched)
    }

    constructor ()
      ensures Valid() && expenses == [] && dispatched == []
    {
      expenses := [];
      dispatched := [];
    }

    method Dispatch(action: Action)
      requires Valid()
      modifies this
      ensures Valid()
      ensures dispatched == old(dispatched) + [action]
      ensures expenses == Reduce(old(expenses), action)
    {
      expenses := Reduce(expenses, action);
      dispatched := dispatched + [action];
      assert dispatched[..|dispatched| - 1] == old(dispatched);
    }

    method AddExpense(expenseData: Expense)
      requires Valid()
      modifies this
      ensures Valid()
      ensures dispatched == old(dispatched) + [Add(expenseData)]
      ensures expenses == [expenseData] + old(expenses)
    {
      Dispatch(Add(expenseData));
    }

    method DeleteExpense(id: string)
      requires Valid()
      modifies this
      ensures Valid()
      ensures dispatched == old(dispatched) + [Delete(id)]
      ensures expenses == WithoutId(old(expenses), id)
      ensures forall x :: x in expenses <==> x in old(expenses) && x.id != id
      ensures !HasId(old(expenses), id) ==> expenses == old(expenses)
    {
      ghost var before := expenses;
      Dispatch(Delete(id));
      DeleteKeepsExactlyTheOthers(before, id);
      if !HasId(before, id) {
        DeleteAbsentIsIdentity(before, id);
      }
    }

    method UpdateExpense(id: string, expenseData: ExpenseData)
      requires Valid()
      modifies this
      ensures Valid()
      ensures dispatched == old(dispatched) + [Update(id, expenseData)]
      ensures |expenses| == |old(expenses)|
      ensures var i := FindIndex(old(expenses), id);
        forall k :: 0 <= k < |expenses| ==>
          expenses[k] == if k == i then Overlay(old(expenses)[k], expenseData) else old(expenses)[k]
    {
      Dispatch(Update(id, expenseData));
    }

    method SetExpenses(list: seq<Expense>)
      requires Valid()
      modifies this
      ensures Valid()
      ensures dispatched == old(dispatched) + [Set(list)]
      ensures |expenses| == |list|
      ensures forall k :: 0 <= k < |list| ==> expenses[k] == list[|list| - 1 - k]
    {
      Dispatch(Set(list));
      SetReverses(old(expenses), list);
    }

    /** With a disciplined history, the store never holds two records with one id. */
    lemma IdsStayDistinct()
      requires Valid() && DisciplinedHistory(dispatched)
      ensures DistinctIds(expenses)
    {
      ReplayKeepsIdsDistinct(dispatched);
    }
  }
}

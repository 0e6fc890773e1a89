/** The `jsTPS` transaction processing system (index.js): a backing array of
    transactions and two counters. `size` is the number of live slots and
    `topIndex` splits them into the undoable slots `[0, topIndex)` and the
    redoable slots `[topIndex, size)`. Slots at or beyond `size` may still
    hold stale transactions after a branch is discarded. */
module TransactionStack {
  import opened Persons
  import Tx = PersonTransactions

  /** The only error the stack raises, `TRANSACTION_STACK_EXCEPTION`. */
  datatype StackError = TransactionStackException

  /** What `peekTransaction` returns: a transaction or `null`. */
  datatype Option<T> = None | Some(value: T)

  datatype Tps = Tps(transactions: seq<Tx.Transaction>, size: int, topIndex: int)
  {
    /** The class invariant every public operation keeps. */
    predicate Valid()
    {
      0 <= topIndex <= size <= |transactions|
    }
  }

  /** The stack together with the one person its transactions manipulate. */
  datatype World = World(tps: Tps, person: Person)

  /** How a call ends: it returns normally, or it throws, and in both cases
      leaves a state behind. */
  datatype Completion =
    | Normal(post: World)
    | Abrupt(error: StackError, post: World)

  // ---------------------------------------------------------------------
  // Reference model: the done list and the redo list.
  // ---------------------------------------------------------------------

  /** `done` in the order the transactions were applied; `undone` in the
      order they would be redone. */
  datatype History = History(done: seq<Tx.Transaction>, undone: seq<Tx.Transaction>)

  function Abs(tps: Tps): History
    requires tps.Valid()
  {
    History(tps.transactions[..tps.topIndex], tps.transactions[tps.topIndex..tps.size])
  }

  /** The logical stack: the live slots only. */
  function Live(tps: Tps): seq<Tx.Transaction>
    requires tps.Valid()
  {
    tps.transactions[..tps.size]
  }

  function HistoryRedo(h: History): History
    requires |h.undone| > 0
  {
    History(h.done + [h.undone[0]], h.undone[1..])
  }

  function HistoryUndo(h: History): History
    requires |h.done| > 0
  {
    History(h.done[..|h.done| - 1], [h.done[|h.done| - 1]] + h.undone)
  }

  function HistoryPush(h: History, t: Tx.Transaction): History
  {
    History(h.done, [t])
  }

  function HistoryProcess(h: History, t: Tx.Transaction): History
  {
    History(h.done + [t], [])
  }

  // ---------------------------------------------------------------------
  // The operations of jsTPS.
  // ---------------------------------------------------------------------

  /** `new jsTPS()`: an empty stack. */
  function NewTps(): (r: Tps)
    ensures r.Valid()
    ensures !HasTransactionToDo(r) && !HasTransactionToUndo(r)
    ensures Live(r) == []
  {
    Tps([], 0, 0)
  }

  function GetSize(tps: Tps): int
  {
    tps.size
  }

  function GetUndoSize(tps: Tps): int
  {
    tps.topIndex
  }

  function GetDoSize(tps: Tps): int
  {
    GetSize(tps) - GetUndoSize(tps)
  }

  predicate HasTransactionToDo(tps: Tps)
  {
    GetDoSize(tps) > 0
  }

  predicate HasTransactionToUndo(tps: Tps)
  {
    GetUndoSize(tps) > 0
  }

  /** `this.transactions[i] = x` on a JavaScript array with `i <= length`:
      overwrites slot `i`, or appends when `i` is the length. */
  function Store<T>(a: seq<T>, i: int, x: T): (r: seq<T>)
    requires 0 <= i <= |a|
    ensures |r| == if i < |a| then |a| else |a| + 1
    ensures r[i] == x
    ensures forall j :: 0 <= j < |a| && j != i ==> r[j] == a[j]
  {
    if i < |a| then a[i := x] else a + [x]
  }

  /** `clearAllTransactions`: a fresh empty array and both counters at zero.
      Nothing is undone, so the person keeps every change already applied. */
  function ClearAllTransactions(w: World): (r: World)
    ensures r.tps.Valid()
    ensures GetSize(r.tps) == 0 && GetUndoSize(r.tps) == 0 && GetDoSize(r.tps) == 0
    ensures |r.tps.transactions| == 0
    ensures r.person == w.person
  {
    World(NewTps(), w.person)
  }

  /** `doTransaction` (redo): applies the transaction at `topIndex` and
      advances `topIndex`; throws and changes nothing when there is none. */
  function DoTransaction(w: World): (r: Completion)
    requires w.tps.Valid()
    ensures r.post.tps.Valid()
    ensures r.Normal? <==> w.tps.topIndex < w.tps.size
    ensures r.Normal? ==>
      && r.post.tps.transactions == w.tps.transactions
      && r.post.tps.size == w.tps.size
      && r.post.tps.topIndex == w.tps.topIndex + 1
      && r.post.person == Tx.DoTransaction(w.tps.transactions[w.tps.topIndex], w.person)
    ensures r.Abrupt? ==> r.error == TransactionStackException && r.post == w
  {
    if HasTransactionToDo(w.tps) then
      var transaction := w.tps.transactions[w.tps.topIndex];
      Normal(World(w.tps.(topIndex := w.tps.topIndex + 1), Tx.DoTransaction(transaction, w.person)))
    else
      Abrupt(TransactionStackException, w)
  }

  /** `undoTransaction`: reverts the transaction at `topIndex - 1` and moves
      `topIndex` down; throws and changes nothing when there is none. */
  function UndoTransaction(w: World): (r: Completion)
    requires w.tps.Valid()
    ensures r.post.tps.Valid()
    ensures r.Normal? <==> w.tps.topIndex > 0
    ensures r.Normal? ==>
      && r.post.tps.transactions == w.tps.transactions
      && r.post.tps.size == w.tps.size
      && r.post.tps.topIndex == w.tps.topIndex - 1
      && r.post.person == Tx.UndoTransaction(w.tps.transactions[w.tps.topIndex - 1], w.person)
    ensures r.Abrupt? ==> r.error == TransactionStackException && r.post == w
  {
    if HasTransactionToUndo(w.tps) then
      var transaction := w.tps.transactions[w.tps.topIndex - 1];
      Normal(World(w.tps.(topIndex := w.tps.topIndex - 1), Tx.UndoTransaction(transaction, w.person)))
    else
      Abrupt(TransactionStackException, w)
  }

  /** `pushTransaction`: stores `t` at `topIndex` and cuts the live stack
      just above it, without applying `t`; `t` becomes the only redoable
      transaction. */
  function PushTransaction(w: World, t: Tx.Transaction): (r: World)
    requires w.tps.Valid()
    ensures r.tps.Valid()
    ensures r.tps.topIndex == w.tps.topIndex
    ensures r.tps.size == w.tps.topIndex + 1
    ensures r.tps.transactions[w.tps.topIndex] == t
    ensures forall i :: 0 <= i < w.tps.topIndex ==> r.tps.transactions[i] == w.tps.transactions[i]
    ensures GetDoSize(r.tps) == 1
    ensures r.person == w.person
  {
    var transactions := Store(w.tps.transactions, w.tps.topIndex, t);
    World(Tps(transactions, w.tps.topIndex + 1, w.tps.topIndex), w.person)
  }

  /** `processTransaction`: stores `t` at `topIndex`, cuts the live stack just
      above it and then does it, so nothing is left to redo. The inner do
      cannot throw, because the store has just made `size` exceed `topIndex`. */
  function ProcessTransaction(w: World, t: Tx.Transaction): (r: World)
    requires w.tps.Valid()
    ensures r.tps.Valid()
    ensures r.tps.size == w.tps.topIndex + 1 && r.tps.topIndex == r.tps.size
    ensures r.tps.transactions[w.tps.topIndex] == t
    ensures forall i :: 0 <= i < w.tps.topIndex ==> r.tps.transactions[i] == w.tps.transactions[i]
    ensures GetDoSize(r.tps) == 0
    ensures GetUndoSize(r.tps) == GetSize(r.tps) == w.tps.topIndex + 1
    ensures r.person == Tx.DoTransaction(t, w.person)
  {
    var pushed := PushTransaction(w, t);
    var executed := DoTransaction(pushed);
    executed.post
  }

  /** `peekTransaction`: the transaction at `index` when it is a live slot,
      otherwise `null`; stale slots are never returned. */
  function PeekTransaction(tps: Tps, index: int): (r: Option<Tx.Transaction>)
    requires tps.Valid()
    ensures r.Some? <==> 0 <= index < GetSize(tps)
    ensures r.Some? ==> r.value == Live(tps)[index]
  {
    if 0 <= index < GetSize(tps) then Some(tps.transactions[index]) else None
  }

  // ---------------------------------------------------------------------
  // Properties.
  // ---------------------------------------------------------------------

  /** The size queries agree with the reference model: the undo count is the
      length of the done list, the do count the length of the redo list, and
      together they make up the size. */
  lemma SizeQueries(tps: Tps)
    requires tps.Valid()
    ensures GetUndoSize(tps) == |Abs(tps).done| == tps.topIndex
    ensures GetDoSize(tps) == |Abs(tps).undone| == tps.size - tps.topIndex
    ensures GetUndoSize(tps) + GetDoSize(tps) == GetSize(tps) == |Live(tps)|
    ensures Abs(tps).done + Abs(tps).undone == Live(tps)
    ensures HasTransactionToDo(tps) <==> tps.topIndex < tps.size
    ensures HasTransactionToUndo(tps) <==> tps.topIndex > 0
  {
    assert tps.transactions[..tps.size] == tps.transactions[..tps.topIndex] + tps.transactions[tps.topIndex..tps.size];
  }

  /** Redo moves the head of the redo list to the end of the done list. */
  lemma DoRefines(w: World)
    requires w.tps.Valid() && HasTransactionToDo(w.tps)
    ensures DoTransaction(w).Normal?
    ensures Abs(DoTransaction(w).post.tps) == HistoryRedo(Abs(w.tps))
    ensures DoTransaction(w).post.person == Tx.DoTransaction(Abs(w.tps).undone[0], w.person)
  {
    var a := w.tps.transactions;
    var k := w.tps.topIndex;
    assert a[..k + 1] == a[..k] + [a[k]];
  }

  /** Undo moves the last of the done list to the front of the redo list. */
  lemma UndoRefines(w: World)
    requires w.tps.Valid() && HasTransactionToUndo(w.tps)
    ensures UndoTransaction(w).Normal?
    ensures Abs(UndoTransaction(w).post.tps) == HistoryUndo(Abs(w.tps))
    ensures UndoTransaction(w).post.person
         == Tx.UndoTransaction(Abs(w.tps).done[|Abs(w.tps).done| - 1], w.person)
  {
    var a := w.tps.transactions;
    var k := w.tps.topIndex;
    assert a[k - 1..w.tps.size] == [a[k - 1]] + a[k..w.tps.size];
  }

  /** Push replaces the redo list by the pushed transaction alone. */
  lemma PushRefines(w: World, t: Tx.Transaction)
    requires w.tps.Valid()
    ensures Abs(PushTransaction(w, t).tps) == HistoryPush(Abs(w.tps), t)
  {
    var r := PushTransaction(w, t).tps;
    assert r.transactions[r.topIndex..r.size] == [t];
  }

  /** Process appends the transaction to the done list and empties the redo
      list: the branch that had been undone is discarded. */
  lemma ProcessRefines(w: World, t: Tx.Transaction)
    requires w.tps.Valid()
    ensures Abs(ProcessTransaction(w, t).tps) == HistoryProcess(Abs(w.tps), t)
  {
    var r := ProcessTransaction(w, t).tps;
    var k := w.tps.topIndex;
    assert r.transactions[..k + 1] == r.transactions[..k] + [t];
  }

  /** Clear empties both lists. */
  lemma ClearRefines(w: World)
    ensures Abs(ClearAllTransactions(w).tps) == History([], [])
  {
  }

  /** After a push or a process, exactly the slots `[0, old topIndex]` can be
      peeked: the old redoable slots are gone even where the array still holds
      them, and the slots below `topIndex` are the ones that were there. */
  lemma BranchTruncation(w: World, t: Tx.Transaction, i: int)
    requires w.tps.Valid()
    ensures PeekTransaction(PushTransaction(w, t).tps, i).Some? <==> 0 <= i <= w.tps.topIndex
    ensures PeekTransaction(ProcessTransaction(w, t).tps, i).Some? <==> 0 <= i <= w.tps.topIndex
    ensures 0 <= i < w.tps.topIndex ==>
      && PeekTransaction(PushTransaction(w, t).tps, i) == PeekTransaction(w.tps, i)
      && PeekTransaction(ProcessTransaction(w, t).tps, i) == PeekTransaction(w.tps, i)
    ensures PeekTransaction(PushTransaction(w, t).tps, w.tps.topIndex) == Some(t)
    ensures PeekTransaction(ProcessTransaction(w, t).tps, w.tps.topIndex) == Some(t)
  {
    var k := w.tps.topIndex;
    if 0 <= i < k {
      var a := PushTransaction(w, t).tps.transactions;
      var b := ProcessTransaction(w, t).tps.transactions;
      assert a[i] == a[..k][i] == w.tps.transactions[..k][i];
      assert b[i] == b[..k][i] == w.tps.transactions[..k][i];
    }
  }

  /** Two stacks with the same reference view cannot be told apart: whatever
      they hold in their stale slots, every query answers the same and every
      operation leads to stacks that again have the same view and the same
      person. */
  lemma StaleSlotsUnobservable(a: World, b: World, t: Tx.Transaction, i: int)
    requires a.tps.Valid() && b.tps.Valid()
    requires Abs(a.tps) == Abs(b.tps) && a.person == b.person
    ensures GetSize(a.tps) == GetSize(b.tps)
    ensures GetUndoSize(a.tps) == GetUndoSize(b.tps) && GetDoSize(a.tps) == GetDoSize(b.tps)
    ensures PeekTransaction(a.tps, i) == PeekTransaction(b.tps, i)
    ensures DoTransaction(a).Normal? == DoTransaction(b).Normal?
    ensures Abs(DoTransaction(a).post.tps) == Abs(DoTransaction(b).post.tps)
    ensures DoTransaction(a).post.person == DoTransaction(b).post.person
    ensures UndoTransaction(a).Normal? == UndoTransaction(b).Normal?
    ensures Abs(UndoTransaction(a).post.tps) == Abs(UndoTransaction(b).post.tps)
    ensures UndoTransaction(a).post.person == UndoTransaction(b).post.person
    ensures Abs(PushTransaction(a, t).tps) == Abs(PushTransaction(b, t).tps)
    ensures Abs(ProcessTransaction(a, t).tps) == Abs(ProcessTransaction(b, t).tps)
    ensures ProcessTransaction(a, t).person == ProcessTransaction(b, t).person
  {
    StaleSlotsUnobservableByQueries(a.tps, b.tps, i);
    StaleSlotsUnobservableByDoUndo(a, b);
    StaleSlotsUnobservableByPush(a, b, t);
  }

  /** The queries only see the view. */
  lemma StaleSlotsUnobservableByQueries(a: Tps, b: Tps, i: int)
    requires a.Valid() && b.Valid() && Abs(a) == Abs(b)
    ensures GetSize(a) == GetSize(b)
    ensures GetUndoSize(a) == GetUndoSize(b) && GetDoSize(a) == GetDoSize(b)
    ensures PeekTransaction(a, i) == PeekTransaction(b, i)
  {
    SizeQueries(a);
    SizeQueries(b);
    if 0 <= i < GetSize(a) {
      assert Live(a)[i] == (Abs(a).done + Abs(a).undone)[i];
    }
  }

  /** Redo and undo only see the view and the person. */
  lemma StaleSlotsUnobservableByDoUndo(a: World, b: World)
    requires a.tps.Valid() && b.tps.Valid()
    requires Abs(a.tps) == Abs(b.tps) && a.person == b.person
    ensures DoTransaction(a).Normal? == DoTransaction(b).Normal?
    ensures Abs(DoTransaction(a).post.tps) == Abs(DoTransaction(b).post.tps)
    ensures DoTransaction(a).post.person == DoTransaction(b).post.person
    ensures UndoTransaction(a).Normal? == UndoTransaction(b).Normal?
    ensures Abs(UndoTransaction(a).post.tps) == Abs(UndoTransaction(b).post.tps)
    ensures UndoTransaction(a).post.person == UndoTransaction(b).post.person
  {
    SizeQueries(a.tps);
    SizeQueries(b.tps);
    if HasTransactionToDo(a.tps) {
      DoRefines(a);
      DoRefines(b);
    }
    if HasTransactionToUndo(a.tps) {
      UndoRefines(a);
      UndoRefines(b);
    }
  }

  /** Pushing and processing only see the view and the person. */
  lemma StaleSlotsUnobservableByPush(a: World, b: World, t: Tx.Transaction)
    requires a.tps.Valid() && b.tps.Valid()
    requires Abs(a.tps) == Abs(b.tps) && a.person == b.person
    ensures Abs(PushTransaction(a, t).tps) == Abs(PushTransaction(b, t).tps)
    ensures Abs(ProcessTransaction(a, t).tps) == Abs(ProcessTransaction(b, t).tps)
    ensures ProcessTransaction(a, t).person == ProcessTransaction(b, t).person
  {
    PushRefines(a, t);
    PushRefines(b, t);
    ProcessRefines(a, t);
    ProcessRefines(b, t);
  }

  /** Redo right after undo gives back the same stack, and gives back the
      same person exactly when the transaction's forward operation inverts
      its undo there. */
  lemma UndoThenRedo(w: World)
    requires w.tps.Valid() && HasTransactionToUndo(w.tps)
    ensures DoTransaction(UndoTransaction(w).post).Normal?
    ensures DoTransaction(UndoTransaction(w).post).post.tps == w.tps
    ensures DoTransaction(UndoTransaction(w).post) == Normal(w)
        <==> Tx.RedoRestores(w.tps.transactions[w.tps.topIndex - 1], w.person)
  {
  }

  /** Undo right after redo gives back the same stack, and gives back the
      same person exactly when the transaction's undo inverts its forward
      operation there. */
  lemma RedoThenUndo(w: World)
    requires w.tps.Valid() && HasTransactionToDo(w.tps)
    ensures UndoTransaction(DoTransaction(w).post).Normal?
    ensures UndoTransaction(DoTransaction(w).post).post.tps == w.tps
    ensures UndoTransaction(DoTransaction(w).post) == Normal(w)
        <==> Tx.UndoRestores(w.tps.transactions[w.tps.topIndex], w.person)
  {
  }

  /** Processing a transaction built against the current person and then
      undoing it restores the person and leaves exactly that transaction to
      redo. */
  lemma {:induction false} ProcessThenUndo(w: World, t: Tx.Transaction)
    requires w.tps.Valid()
    requires Tx.UndoRestores(t, w.person)
    ensures UndoTransaction(ProcessTransaction(w, t)).Normal?
    ensures UndoTransaction(ProcessTransaction(w, t)).post.person == w.person
    ensures Abs(UndoTransaction(ProcessTransaction(w, t)).post.tps) == History(Abs(w.tps).done, [t])
  {
    var p := ProcessTransaction(w, t);
    ProcessRefines(w, t);
    UndoRefines(p);
    assert (Abs(w.tps).done + [t])[..|Abs(w.tps).done|] == Abs(w.tps).done;
  }
}

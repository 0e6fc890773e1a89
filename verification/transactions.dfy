/** The two concrete transactions used with the stack
    (test/person/IncrementAge_Transaction.js and
    test/person/ChangeName_Transaction.js). Each one is built against the
    person it will manipulate; in this model the person is passed to the
    forward and inverse operations instead of being held by reference. */
module PersonTransactions {
  import opened Persons

  /** `IncrementAge(inc)` adds `inc` to the age. `ChangeName(oldName, newName)`
      renames the person; `oldName` is the name the person had when the
      transaction was built. */
  datatype Transaction =
    | IncrementAge(inc: int)
    | ChangeName(oldName: string, newName: string)

  /** `new IncrementAge_Transaction(initPerson, initInc)`: keeps only the
      increment; the person is not touched. */
  function MakeIncrementAge(initPerson: Person, initInc: int): (t: Transaction)
    ensures t.IncrementAge? && t.inc == initInc
  {
    IncrementAge(initInc)
  }

  /** `new ChangeName_Transaction(initPerson, newName)`: captures the
      person's current name as the name to restore on undo. */
  function MakeChangeName(initPerson: Person, newName: string): (t: Transaction)
    ensures t.ChangeName? && t.oldName == GetName(initPerson) && t.newName == newName
  {
    ChangeName(initPerson.name, newName)
  }

  /** The forward operation the stack calls (`doTransaction`). */
  function DoTransaction(t: Transaction, p: Person): (q: Person)
    ensures t.IncrementAge? ==> GetAge(q) == GetAge(p) + t.inc && GetName(q) == GetName(p)
    ensures t.ChangeName? ==> GetName(q) == t.newName && GetAge(q) == GetAge(p)
  {
    match t
    case IncrementAge(inc) => p.(age := p.age + inc)
    case ChangeName(_, newName) => p.(name := newName)
  }

  /** The inverse operation the stack calls (`undoTransaction`). The rename
      goes back to the name captured at construction, not to the name the
      person had just before the forward operation. */
  function UndoTransaction(t: Transaction, p: Person): (q: Person)
    ensures t.IncrementAge? ==> GetAge(q) == GetAge(p) - t.inc && GetName(q) == GetName(p)
    ensures t.ChangeName? ==> GetName(q) == t.oldName && GetAge(q) == GetAge(p)
  {
    match t
    case IncrementAge(inc) => p.(age := p.age - inc)
    case ChangeName(oldName, _) => p.(name := oldName)
  }

  /** Undoing right after doing gives `p` back. */
  predicate UndoRestores(t: Transaction, p: Person)
  {
    UndoTransaction(t, DoTransaction(t, p)) == p
  }

  /** Doing right after undoing gives `p` back. */
  predicate RedoRestores(t: Transaction, p: Person)
  {
    DoTransaction(t, UndoTransaction(t, p)) == p
  }

  /** An age increment is an exact inverse pair in both orders, from any person. */
  lemma IncrementAgeIsInvertible(inc: int, p: Person)
    ensures UndoRestores(IncrementAge(inc), p)
    ensures RedoRestores(IncrementAge(inc), p)
  {
  }

  /** A rename undone right after being done restores the person exactly when
      the person's name at do time is the name captured at construction. */
  lemma ChangeNameUndoRestoresIff(t: Transaction, p: Person)
    requires t.ChangeName?
    ensures GetName(UndoTransaction(t, DoTransaction(t, p))) == t.oldName
    ensures UndoRestores(t, p) <==> GetName(p) == t.oldName
  {
  }

  /** A rename done right after being undone restores the person exactly when
      the person currently carries the new name. */
  lemma ChangeNameRedoRestoresIff(t: Transaction, p: Person)
    requires t.ChangeName?
    ensures RedoRestores(t, p) <==> GetName(p) == t.newName
  {
  }

  /** Both operations of a rename are idempotent. */
  lemma ChangeNameIsIdempotent(t: Transaction, p: Person)
    requires t.ChangeName?
    ensures DoTransaction(t, DoTransaction(t, p)) == DoTransaction(t, p)
    ensures UndoTransaction(t, UndoTransaction(t, p)) == UndoTransaction(t, p)
  {
  }

  /** A transaction built against the person it is then applied to is undone
      exactly, whatever its kind; this is how the tests use them. */
  lemma {:induction false} FreshTransactionUndoRestores(p: Person, newName: string, inc: int)
    ensures UndoRestores(MakeChangeName(p, newName), p)
    ensures UndoRestores(MakeIncrementAge(p, inc), p)
  {
    ChangeNameUndoRestoresIff(MakeChangeName(p, newName), p);
    IncrementAgeIsInvertible(inc, p);
  }

  /** Undo-after-do characterised for every transaction: it restores the
      person iff the transaction is an increment or the person still has the
      name captured at construction. */
  lemma {:induction false} UndoRestoresIff(t: Transaction, p: Person)
    ensures UndoRestores(t, p) <==> t.IncrementAge? || GetName(p) == t.oldName
  {
    match t
    case IncrementAge(inc) => IncrementAgeIsInvertible(inc, p);
    case ChangeName(_, _) => ChangeNameUndoRestoresIff(t, p);
  }
}

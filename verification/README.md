# jsTPS in Dafny

A model of jsTPS, a JavaScript transaction processing system that provides
undo and redo. The model also covers the two concrete transactions that
jsTPS's tests use: increment a person's age and change a person's name.

The stack (`module TransactionStack`, stack.dfy) has the same three fields as
the `jsTPS` class:
- `transactions`, the backing array;
- `size`, the number of live slots;
- `topIndex`, which splits the live slots into the undoable `[0, topIndex)`
  and the redoable `[topIndex, size)`.

Each operation is a pure function from a `World` to a new `World`. A world
pairs the stack with the one person its transactions manipulate. A JavaScript
`throw` becomes `Completion.Abrupt(TransactionStackException, w)`, so "a
failed undo or redo changes nothing" can be stated as a contract.

Every operation also has a reference model, `History(done, undone)`:
- `done` lists the applied transactions;
- `undone` lists the transactions that can be redone.

The abstraction `Abs` maps a valid stack to its history. A refinement lemma
proves that each operation moves the two lists the way an undo/redo list
should. A second lemma proves that no modelled operation can observe the stale slots
beyond `size`.

`module PersonTransactions` (transactions.dfy) defines the two transactions
and their forward and inverse operations. It proves exactly when undoing
restores the person. `module Persons` (persons.dfy) is the person record.

`module Scenarios` (scenarios.dfy) replays the scripts of test/index.test.js
through the stack:
- each new transaction is built against the current person, as test/testUtils.js does;
- a script stops at the first call that throws.

Each test's expected counters, person and peeked transactions are proved.

The stack calls `doTransaction()` and `undoTransaction()` on each stored
transaction (index.js:92 and 238). The base class `jsTPS_Transaction`
(index.js:14-23) instead names its hooks `executeDo` and `executeUndo`. The
model follows the calls the stack actually makes.

Several test titles in test/index.test.js do not match their bodies. For
example, Test #4 says "redo two" but redoes once, and Test #8 says "process
two" but redoes twice. The scenarios model the bodies.

A comment in `processTransaction` and `pushTransaction` (index.js:180-182,
202-204) says the size becomes "two more than topIndex". The code sets it to
`topIndex + 1`, and the model follows the code.

## Model

| member | source | states |
|---|---|---|
| Persons.NewPerson | test/person/Person.js:2-5 | the new person reads back the given name and age |
| Persons.SetName | test/person/Person.js:15-17 | the name becomes the argument; the age is kept |
| Persons.SetAge | test/person/Person.js:19-21 | the age becomes the argument; the name is kept |
| Persons.Equals | test/person/Person.js:23-26 | field-wise equality holds exactly when the two persons are the same record |
| Persons.GetterSetterLaws | test/person/Person.js:7-21 | the two getters determine a person; setting what was read changes nothing; a second set overrides the first; name and age setters commute |
| Persons.EqualsIsEquivalence | test/person/Person.js:23-26 | `equals` is reflexive, symmetric and transitive |
| PersonTransactions.MakeIncrementAge | test/person/IncrementAge_Transaction.js:21-27 | the transaction keeps the increment it was built with |
| PersonTransactions.MakeChangeName | test/person/ChangeName_Transaction.js:21-28 | the transaction captures the person's name at construction as the name to restore, and keeps the new name |
| PersonTransactions.DoTransaction | test/person/IncrementAge_Transaction.js:32-34 | an increment adds `inc` to the age; a rename (ChangeName_Transaction.js:33-35) sets the name to `newName`; the other field is kept |
| PersonTransactions.UndoTransaction | test/person/IncrementAge_Transaction.js:39-41 | an increment subtracts `inc` from the age; a rename (ChangeName_Transaction.js:40-42) sets the name back to `oldName`, not to the name just before the forward operation; the other field is kept |
| PersonTransactions.IncrementAgeIsInvertible | test/person/IncrementAge_Transaction.js:32-41 | do-then-undo and undo-then-do of an increment both give the person back, from any person |
| PersonTransactions.ChangeNameUndoRestoresIff | test/person/ChangeName_Transaction.js:21-42 | undo after do always leaves the captured name, and gives the person back iff the person had that name at do time |
| PersonTransactions.ChangeNameRedoRestoresIff | test/person/ChangeName_Transaction.js:33-42 | do after undo gives the person back iff the person carries the new name |
| PersonTransactions.ChangeNameIsIdempotent | test/person/ChangeName_Transaction.js:33-42 | doing twice is doing once; undoing twice is undoing once |
| PersonTransactions.FreshTransactionUndoRestores | test/testUtils.js:6-12 | a transaction built against the person it is then applied to is undone exactly, of either kind |
| PersonTransactions.UndoRestoresIff | test/person/ChangeName_Transaction.js:21-42 | for every transaction, undo after do restores the person iff it is an increment or the person still has the captured name |
| TransactionStack.NewTps | index.js:47-65 | a new stack is valid, has nothing to do or undo, and no live transactions |
| TransactionStack.Store | index.js:178 | an assignment at `topIndex` overwrites that slot, or appends when `topIndex` is the array length, and leaves every other slot alone |
| TransactionStack.ClearAllTransactions | index.js:71-78 | the array is emptied, both counters are zero, and the person keeps every applied change |
| TransactionStack.DoTransaction | index.js:89-98 | redo succeeds iff `topIndex < size`; it applies the transaction at `topIndex` to the person and advances `topIndex`, keeping the array and size; otherwise it throws and the state is unchanged |
| TransactionStack.UndoTransaction | index.js:235-244 | undo succeeds iff `topIndex > 0`; it reverts the transaction at `topIndex - 1` and lowers `topIndex`, keeping the array and size; otherwise it throws and the state is unchanged |
| TransactionStack.PushTransaction | index.js:198-206 | `t` lands at `topIndex`, the live stack ends just above it, the lower slots and the person are kept, and exactly one transaction is redoable |
| TransactionStack.ProcessTransaction | index.js:176-187 | `t` lands at `topIndex`, becomes the last live slot and is applied to the person; nothing is left to redo and everything live is undoable |
| TransactionStack.PeekTransaction | index.js:163-168 | a transaction is returned iff `0 <= index < size`, and it is the live slot at `index`; otherwise null |
| TransactionStack.SizeQueries | index.js:105-150 | the undo count is the length of the done list, the do count is the length of the redo list, both add up to the size, and the two `has` predicates test them for being positive |
| TransactionStack.DoRefines | index.js:89-98 | redo moves the head of the redo list to the end of the done list and applies it to the person |
| TransactionStack.UndoRefines | index.js:235-244 | undo moves the last done transaction to the front of the redo list and reverts it on the person |
| TransactionStack.PushRefines | index.js:198-206 | push keeps the done list and replaces the redo list with the pushed transaction alone |
| TransactionStack.ProcessRefines | index.js:176-187 | process appends to the done list and discards the whole redo list |
| TransactionStack.ClearRefines | index.js:71-78 | clear empties both lists |
| TransactionStack.BranchTruncation | index.js:163-206 | after a push or process, exactly the slots `0..old topIndex` can be peeked; the lower ones are unchanged and the top one is the new transaction |
| TransactionStack.StaleSlotsUnobservable | index.js:52-57 | two stacks with the same done and redo lists answer every query alike and stay alike under every operation, whatever their stale slots hold |
| TransactionStack.StaleSlotsUnobservableByQueries | index.js:105-168 | the size queries and peek depend only on the done and redo lists |
| TransactionStack.StaleSlotsUnobservableByDoUndo | index.js:89-98 | redo and undo depend only on the done and redo lists and the person |
| TransactionStack.StaleSlotsUnobservableByPush | index.js:176-206 | push and process depend only on the done and redo lists and the person |
| TransactionStack.UndoThenRedo | index.js:89-98 | redo right after undo always succeeds and gives back the same stack; it gives back the same person exactly when the transaction's forward operation inverts its undo there |
| TransactionStack.RedoThenUndo | index.js:235-244 | undo right after redo always succeeds and gives back the same stack; it gives back the same person exactly when the transaction's undo inverts its forward operation there |
| TransactionStack.ProcessThenUndo | index.js:170-187 | processing a transaction whose undo inverts its do at the current person (as one built against that person does), then undoing, restores the person and leaves exactly that transaction to redo |
| Scenarios.Build | test/testUtils.js:6-12 | a rename captures the current person's name as the name to restore and keeps the new name, an increment keeps its amount, and either one is undone exactly right after being done on that person |
| Scenarios.Start | test/testUtils.js:14-23 | a test starts from an empty stack, with nothing to do or undo, and the given person |
| Scenarios.StartIsFresh | test/testUtils.js:14-23 | resetting with ("Vito", 65) gives the start state every scenario assumes |
| Scenarios.Exec | index.js:89-244 | every call on the stack keeps the class invariant |
| Scenarios.ExecThrows | index.js:89-98 | only undo and redo throw: undo exactly when nothing is undoable, redo exactly when nothing is redoable; a throwing call leaves the state unchanged |
| Scenarios.RunFrom | index.js:89-244 | every state a script reaches keeps the class invariant, and a script that throws stops in a state with nothing to undo or nothing to redo |
| Scenarios.RunAppend | test/index.test.js:96-127 | running `a + b` runs `a`, then `b` from where `a` ended, unless `a` threw |
| Scenarios.ThreeProcessed | test/index.test.js:70-91 | Test #2, all three checks: after one call (1,0,1) with Sonny aged 65, after two (2,0,2) with Sonny aged 30, after three (3,0,3) with Fredo aged 30 |
| Scenarios.ThreeUndone | test/index.test.js:96-107 | three processed then three undone: nothing to undo, three to redo, and Vito is back at 65 |
| Scenarios.UndoAllThenProcess | test/index.test.js:96-127 | Test #3, all three checks after the branch: (1,0,1) with Vito aged 60, (2,0,2) with Michael aged 60, (3,0,3) with Luca aged 60; the redo branch is discarded |
| Scenarios.RedoOneThenProcess | test/index.test.js:132-152 | Test #4: ends at size 2, nothing to redo, Sonny aged 20 |
| Scenarios.RedoAllThenProcess | test/index.test.js:157-179 | Test #5: ends at size 4, nothing to redo, Fredo aged 25 |
| Scenarios.RedoOneThenProcessTwo | test/index.test.js:184-206 | Test #6: ends at size 3, nothing to redo, Michael aged 20 |
| Scenarios.FiveUndoneRedoneThenProcess | test/index.test.js:211-237 | Test #7: ends at size 2, nothing to redo, Hyman aged 65 |
| Scenarios.FiveUndoThreeRedoTwoUndoThree | test/index.test.js:242-268 | Test #8: ends at size 5 with four to redo and one to undo, Sonny aged 65 |
| Scenarios.FiveUndoFourRedoTwoUndoThree | test/index.test.js:273-300 | Test #9: everything is undone, size 5, Vito aged 65 |
| Scenarios.UndoOnEmptyThrows | test/index.test.js:305-314 | Test #10: undo on an empty stack throws and changes nothing |
| Scenarios.UndoExhaustedThrows | test/index.test.js:319-348 | Test #11: undo with nothing left to undo throws; the stack stays at size 5, all redoable, Vito aged 65 |
| Scenarios.RedoOnEmptyThrows | test/index.test.js:353-362 | Test #12: redo on an empty stack throws and changes nothing |
| Scenarios.RedoExhaustedThrows | test/index.test.js:367-391 | Test #13: redo with nothing left to redo throws; the stack stays at size 5, all undoable, Michael aged 25 |
| Scenarios.PeekAfterBranch | test/index.test.js:396-420 | Test #14: the one live slot after the branch holds the new increment of -5 |
| Scenarios.PeekTopAfterRedo | test/index.test.js:425-450 | Test #15: the top slot holds the increment of -5, with Fredo aged 25 |
| Scenarios.PeekMiddleAfterRedo | test/index.test.js:455-506 | Tests #16 and #17: slot 2 holds the Sonny-to-Fredo rename and slot 0 the Vito-to-Sonny rename |

## Left out

- `toString` of the stack, of both transactions and of the person (index.js:214-223, Person.js:28-30) is not modelled, because it only formats text. The stack's version prints slots `0..topIndex` inclusive (index.js:218-220). Slot `topIndex` is past the live stack when nothing is redoable. So it prints a stale transaction from a discarded branch, or throws a TypeError when that slot is `undefined`, as on an empty stack. The rename's version (test/person/ChangeName_Transaction.js:51-52) reads `newAge` and `oldAge`, fields it never sets.
- JavaScript numbers are modelled as mathematical integers. Floating-point ages, `NaN` and non-number increments are outside the model.
- The shared mutable person is modelled as a single value threaded through the world. The model does not cover transactions bound to different person objects, or aliasing between them.
- The constant string `TRANSACTION_STACK_EXCEPTION` is modelled as the only `StackError` value, not as a string.
- Every stack operation requires `Valid()` (`0 <= topIndex <= size <= |transactions|`). The constructor establishes this class invariant, and every operation keeps it as long as no transaction's `doTransaction` or `undoTransaction` calls back into the stack. A re-entrant transaction can break it. Say its `doTransaction` calls `clearAllTransactions` while `processTransaction` runs on a fresh stack: the clear sets `topIndex = size = 0` (index.js:73-77), and `topIndex++` (index.js:93) then leaves `topIndex == 1 > size == 0`. The same callback inside `undoTransaction` leaves `topIndex == -1` (index.js:238-239). The two person transactions never call back.
- Persons.GetName, Persons.GetAge, TransactionStack.GetSize, TransactionStack.GetUndoSize, TransactionStack.GetDoSize, TransactionStack.HasTransactionToDo and TransactionStack.HasTransactionToUndo carry no contract of their own. Their meaning is stated by TransactionStack.SizeQueries and Persons.GetterSetterLaws.
- The demo front-ends (bin/demo.js, src/test/demo/jsTPS_Tester.js), the older test bed (src/test/test_beds/jsTPS_Tests.js, test/test.js) and Test #1 (an instance check) are not modelled.
- The stack is modelled only over the two person transactions, whose forward and inverse operations never throw. The stack itself accepts any object with `doTransaction` and `undoTransaction` methods. If a transaction's `doTransaction` throws inside `processTransaction`, the stack is left half-updated. The slot write (index.js:178) and `size = topIndex + 1` (index.js:183) have already happened, and the throw at index.js:92 comes before `topIndex++` (index.js:93). So the failed transaction stays redoable and the old redo branch is already gone. The same happens to a transaction that implements only the base class's `executeDo` (index.js:14-23), since it has no `doTransaction` method. TransactionStack.ProcessTransaction cannot express this partial update, because PersonTransactions.DoTransaction is total. Re-entrant transactions, which can break `Valid()` (see the line above), are outside the model for the same reason.
- Stored transactions are immutable values. In the source they are shared mutable objects. `peekTransaction` returns the stored reference (index.js:165), and the tests keep their own references to the transactions they build. A caller that changes `inc`, `oldName` or `newName` through such a reference changes what a later undo or redo does (IncrementAge_Transaction.js:33, 40; ChangeName_Transaction.js:34, 41). The model does not cover mutating a transaction after it is built.
- Scenarios.RunFrom: does not bound how much a script can grow the stack; it states validity and where a throwing script stops.

/** The test scripts of test/index.test.js, driven through the stack the way
    test/testUtils.js does: each new transaction is built against the person
    at the moment it is processed, and a script stops at the first call that
    throws, as an uncaught JavaScript exception would stop it. */
module Scenarios {
  import opened Persons
  import Tx = PersonTransactions
  import opened TransactionStack

  /** How a test builds a transaction: `makeNameTransaction` or
      `makeIncrementAgeTransaction`, both against the current person. */
  datatype Maker = NameTo(newName: string) | AgeBy(inc: int)

  /** One call a test makes on the stack. */
  datatype Command = Process(make: Maker) | Push(make: Maker) | Undo | Redo | Clear

  function Build(m: Maker, p: Person): (t: Tx.Transaction)
    ensures m.NameTo? ==> t.ChangeName? && t.oldName == GetName(p) && t.newName == m.newName
    ensures m.AgeBy? ==> t == Tx.IncrementAge(m.inc)
    ensures Tx.UndoRestores(t, p)
  {
    match m
    case NameTo(n) =>
      Tx.FreshTransactionUndoRestores(p, n, 0);
      Tx.MakeChangeName(p, n)
    case AgeBy(inc) =>
      Tx.FreshTransactionUndoRestores(p, "", inc);
      Tx.MakeIncrementAge(p, inc)
  }

  /** `resetPersonTest`: a fresh person and an empty stack. */
  function Start(initName: string, initAge: int): (w: World)
    ensures w.tps.Valid() && GetSize(w.tps) == 0
    ensures !HasTransactionToDo(w.tps) && !HasTransactionToUndo(w.tps)
    ensures GetName(w.person) == initName && GetAge(w.person) == initAge
  {
    World(NewTps(), NewPerson(initName, initAge))
  }

  /** `resetPersonTest(tps, "Vito", 65)` on a cleared stack is the state
      every scenario below starts from. */
  lemma StartIsFresh()
    ensures Fresh(Start("Vito", 65))
  {
  }

  /** One call. */
  function Exec(w: World, c: Command): (r: Completion)
    requires w.tps.Valid()
    ensures r.post.tps.Valid()
  {
    match c
    case Process(m) => Normal(ProcessTransaction(w, Build(m, w.person)))
    case Push(m) => Normal(PushTransaction(w, Build(m, w.person)))
    case Undo => UndoTransaction(w)
    case Redo => DoTransaction(w)
    case Clear => Normal(ClearAllTransactions(w))
  }

  /** Only undo and redo throw: undo exactly on a stack with nothing to
      undo, redo exactly on one with nothing to redo. A call that throws
      leaves the state as it was. */
  lemma ExecThrows(w: World, c: Command)
    requires w.tps.Valid()
    ensures Exec(w, c).Abrupt? <==> (c.Undo? && w.tps.topIndex == 0) || (c.Redo? && w.tps.topIndex == w.tps.size)
    ensures Exec(w, c).Abrupt? ==> Exec(w, c).post == w
  {
  }

  /** The calls `cs[i..]`, one after the other. Every state reached satisfies
      the stack invariant, and a script that throws stops in a state with
      nothing to undo or nothing to redo. */
  function RunFrom(w: World, cs: seq<Command>, i: nat): (r: Completion)
    requires w.tps.Valid()
    requires i <= |cs|
    ensures r.post.tps.Valid()
    ensures r.Abrupt? ==> r.post.tps.topIndex == 0 || r.post.tps.topIndex == r.post.tps.size
    decreases |cs| - i
  {
    if i == |cs| then Normal(w)
    else
      ExecThrows(w, cs[i]);
      match Exec(w, cs[i])
      case Abrupt(e, post) => Abrupt(e, post)
      case Normal(post) => RunFrom(post, cs, i + 1)
  }

  /** A whole script. */
  function Run(w: World, cs: seq<Command>): (r: Completion)
    requires w.tps.Valid()
    ensures r.post.tps.Valid()
  {
    RunFrom(w, cs, 0)
  }

  /** Running `a + b` is running `a` and then, if it returned, `b`. */
  lemma {:induction false} RunFromShift(w: World, a: seq<Command>, b: seq<Command>, j: nat)
    requires w.tps.Valid() && j <= |b|
    ensures RunFrom(w, a + b, |a| + j) == RunFrom(w, b, j)
    decreases |b| - j
  {
    if j < |b| {
      assert (a + b)[|a| + j] == b[j];
      match Exec(w, b[j])
      case Abrupt(_, _) =>
      case Normal(v) => RunFromShift(v, a, b, j + 1);
    }
  }

  lemma {:induction false} RunFromAppend(w: World, a: seq<Command>, b: seq<Command>, i: nat)
    requires w.tps.Valid() && i <= |a|
    ensures RunFrom(w, a + b, i)
         == if RunFrom(w, a, i).Normal? then RunFrom(RunFrom(w, a, i).post, b, 0) else RunFrom(w, a, i)
    decreases |a| - i
  {
    if i == |a| {
      RunFromShift(w, a, b, 0);
    } else {
      assert (a + b)[i] == a[i];
      var r := Exec(w, a[i]);
      if r.Normal? {
        RunFromAppend(r.post, a, b, i + 1);
      }
    }
  }

  /** A script is the composition of its parts: running `a + b` runs `a`,
      stops there if `a` threw, and otherwise runs `b` from where `a` ended. */
  lemma RunAppend(w: World, a: seq<Command>, b: seq<Command>)
    requires w.tps.Valid()
    ensures Run(w, a + b) == if Run(w, a).Normal? then Run(Run(w, a).post, b) else Run(w, a)
  {
    RunFromAppend(w, a, b, 0);
  }

  /** True when the state has the counters and person `testStack` and
      `testActualPerson` check for. */
  predicate Observed(w: World, size: int, doSize: int, undoSize: int, name: string, age: int)
  {
    && GetSize(w.tps) == size && GetDoSize(w.tps) == doSize && GetUndoSize(w.tps) == undoSize
    && HasTransactionToDo(w.tps) == (doSize > 0) && HasTransactionToUndo(w.tps) == (undoSize > 0)
    && w.person == Person(name, age)
  }

  /** The whole state, up to stale slots: the live transactions, the top
      index and the person. */
  predicate Snapshot(w: World, live: seq<Tx.Transaction>, top: int, name: string, age: int)
  {
    && w.tps.Valid() && w.tps.size == |live| && w.tps.topIndex == top
    && (forall i :: 0 <= i < |live| ==> w.tps.transactions[i] == live[i])
    && w.person == Person(name, age)
  }

  /** The state a test starts from: the person ("Vito", 65) and a stack with
      no live transactions. Stale slots are allowed, so the
      scenarios hold after `clearAllTransactions` too; `Start("Vito", 65)`
      itself is one such state (StartIsFresh). */
  predicate Fresh(w0: World)
  {
    w0.tps.Valid() && GetSize(w0.tps) == 0 && w0.person == Person("Vito", 65)
  }

  /** The first call of most test scripts. */
  const ProcessOne: seq<Command> := [Process(NameTo("Sonny"))]

  /** Test #2, first check: one processed rename. */
  lemma OneProcessed(w0: World)
    requires Fresh(w0)
    ensures Run(w0, ProcessOne).Normal?
    ensures Observed(Run(w0, ProcessOne).post, 1, 0, 1, "Sonny", 65)
    ensures Snapshot(Run(w0, ProcessOne).post, [Tx.ChangeName("Vito", "Sonny")], 1, "Sonny", 65)
  {
    var cs := [Process(NameTo("Sonny"))];
    var u0 := w0;
    var u1 := Exec(u0, cs[0]).post;
    assert Exec(u0, cs[0]) == Normal(u1);
    assert u1.tps.size == 1 && u1.tps.topIndex == 1 && u1.person == Person("Sonny", 65);
    assert RunFrom(u1, cs, 1) == Normal(u1);
    assert RunFrom(u0, cs, 0) == RunFrom(u1, cs, 1);
  }

  const ProcessTwo: seq<Command> := ProcessOne + [Process(AgeBy(-35))]

  /** Test #2, second check: a rename and an increment processed. */
  lemma TwoProcessed(w0: World)
    requires Fresh(w0)
    ensures Run(w0, ProcessTwo).Normal?
    ensures Observed(Run(w0, ProcessTwo).post, 2, 0, 2, "Sonny", 30)
    ensures Snapshot(Run(w0, ProcessTwo).post, [Tx.ChangeName("Vito", "Sonny"), Tx.IncrementAge(-35)], 2, "Sonny", 30)
  {
    OneProcessed(w0);
    RunAppend(w0, ProcessOne, [Process(AgeBy(-35))]);
    var cs := [Process(AgeBy(-35))];
    var u0 := Run(w0, ProcessOne).post;
    var u1 := Exec(u0, cs[0]).post;
    assert Exec(u0, cs[0]) == Normal(u1);
    assert u1.tps.size == 2 && u1.tps.topIndex == 2 && u1.person == Person("Sonny", 30);
    assert RunFrom(u1, cs, 1) == Normal(u1);
    assert RunFrom(u0, cs, 0) == RunFrom(u1, cs, 1);
  }

  /** The three transactions most test scripts start with. */
  const ProcessThree: seq<Command> := ProcessTwo + [Process(NameTo("Fredo"))]

  /** Test #2: each processed transaction is applied at once and leaves
        nothing to redo; the three checks of the test in order. */
  lemma ThreeProcessed(w0: World)
    requires Fresh(w0)
    ensures Run(w0, ProcessThree).Normal?
    ensures Observed(Run(w0, ProcessOne).post, 1, 0, 1, "Sonny", 65)
    ensures Observed(Run(w0, ProcessTwo).post, 2, 0, 2, "Sonny", 30)
    ensures Observed(Run(w0, ProcessThree).post, 3, 0, 3, "Fredo", 30)
    ensures Snapshot(Run(w0, ProcessThree).post, [Tx.ChangeName("Vito", "Sonny"), Tx.IncrementAge(-35), Tx.ChangeName("Sonny", "Fredo")], 3, "Fredo", 30)
  {
    OneProcessed(w0);
    TwoProcessed(w0);
    RunAppend(w0, ProcessTwo, [Process(NameTo("Fredo"))]);
    var cs := [Process(NameTo("Fredo"))];
    var u0 := Run(w0, ProcessTwo).post;
    var u1 := Exec(u0, cs[0]).post;
    assert Exec(u0, cs[0]) == Normal(u1);
    assert u1.tps.size == 3 && u1.tps.topIndex == 3 && u1.person == Person("Fredo", 30);
    assert RunFrom(u1, cs, 1) == Normal(u1);
    assert RunFrom(u0, cs, 0) == RunFrom(u1, cs, 1);
  }

  const ProcessFour: seq<Command> := ProcessThree + [Process(AgeBy(-5))]

  /** The state after the first four transactions of the longer scripts. */
  lemma FourProcessed(w0: World)
    requires Fresh(w0)
    ensures Run(w0, ProcessFour).Normal?
    ensures Snapshot(Run(w0, ProcessFour).post, [Tx.ChangeName("Vito", "Sonny"), Tx.IncrementAge(-35), Tx.ChangeName("Sonny", "Fredo"), Tx.IncrementAge(-5)], 4, "Fredo", 25)
  {
    ThreeProcessed(w0);
    RunAppend(w0, ProcessThree, [Process(AgeBy(-5))]);
    var cs := [Process(AgeBy(-5))];
    var u0 := Run(w0, ProcessThree).post;
    var u1 := Exec(u0, cs[0]).post;
    assert Exec(u0, cs[0]) == Normal(u1);
    assert u1.tps.size == 4 && u1.tps.topIndex == 4 && u1.person == Person("Fredo", 25);
    assert RunFrom(u1, cs, 1) == Normal(u1);
    assert RunFrom(u0, cs, 0) == RunFrom(u1, cs, 1);
  }

  const ProcessFive: seq<Command> := ProcessFour + [Process(NameTo("Michael"))]

  /** The state after all five transactions of the longer scripts. */
  lemma FiveProcessed(w0: World)
    requires Fresh(w0)
    ensures Run(w0, ProcessFive).Normal?
    ensures Snapshot(Run(w0, ProcessFive).post, [Tx.ChangeName("Vito", "Sonny"), Tx.IncrementAge(-35), Tx.ChangeName("Sonny", "Fredo"), Tx.IncrementAge(-5), Tx.ChangeName("Fredo", "Michael")], 5, "Michael", 25)
  {
    FourProcessed(w0);
    RunAppend(w0, ProcessFour, [Process(NameTo("Michael"))]);
    var cs := [Process(NameTo("Michael"))];
    var u0 := Run(w0, ProcessFour).post;
    var u1 := Exec(u0, cs[0]).post;
    assert Exec(u0, cs[0]) == Normal(u1);
    assert u1.tps.size == 5 && u1.tps.topIndex == 5 && u1.person == Person("Michael", 25);
    assert RunFrom(u1, cs, 1) == Normal(u1);
    assert RunFrom(u0, cs, 0) == RunFrom(u1, cs, 1);
  }

  const ThreeUndoneCalls: seq<Command> := ProcessThree + [Undo, Undo, Undo]

  /** Three transactions processed and then all undone: the person is back to
        the start and all three can be redone. */
  lemma ThreeUndone(w0: World)
    requires Fresh(w0)
    ensures Run(w0, ThreeUndoneCalls).Normal?
    ensures Observed(Run(w0, ThreeUndoneCalls).post, 3, 3, 0, "Vito", 65)
    ensures Snapshot(Run(w0, ThreeUndoneCalls).post, [Tx.ChangeName("Vito", "Sonny"), Tx.IncrementAge(-35), Tx.ChangeName("Sonny", "Fredo")], 0, "Vito", 65)
  {
    ThreeProcessed(w0);
    RunAppend(w0, ProcessThree, [Undo, Undo, Undo]);
    var cs := [Undo, Undo, Undo];
    var u0 := Run(w0, ProcessThree).post;
    var u1 := Exec(u0, cs[0]).post;
    assert Exec(u0, cs[0]) == Normal(u1);
    assert u1.tps.size == 3 && u1.tps.topIndex == 2 && u1.person == Person("Sonny", 30);
    var u2 := Exec(u1, cs[1]).post;
    assert Exec(u1, cs[1]) == Normal(u2);
    assert u2.tps.size == 3 && u2.tps.topIndex == 1 && u2.person == Person("Sonny", 65);
    var u3 := Exec(u2, cs[2]).post;
    assert Exec(u2, cs[2]) == Normal(u3);
    assert u3.tps.size == 3 && u3.tps.topIndex == 0 && u3.person == Person("Vito", 65);
    assert RunFrom(u3, cs, 3) == Normal(u3);
    assert RunFrom(u2, cs, 2) == RunFrom(u3, cs, 3);
    assert RunFrom(u1, cs, 1) == RunFrom(u2, cs, 2);
    assert RunFrom(u0, cs, 0) == RunFrom(u1, cs, 1);
  }

  const BranchCalls: seq<Command> := ThreeUndoneCalls + [Process(AgeBy(-5))]

  /** Test #14, and the first check of Test #3: the only live slot after a
        branch holds the new transaction. */
  lemma PeekAfterBranch(w0: World)
    requires Fresh(w0)
    ensures Run(w0, BranchCalls).Normal?
    ensures Observed(Run(w0, BranchCalls).post, 1, 0, 1, "Vito", 60)
    ensures Snapshot(Run(w0, BranchCalls).post, [Tx.IncrementAge(-5)], 1, "Vito", 60)
    ensures PeekTransaction(Run(w0, BranchCalls).post.tps, 0) == Some(Tx.IncrementAge(-5))
  {
    ThreeUndone(w0);
    RunAppend(w0, ThreeUndoneCalls, [Process(AgeBy(-5))]);
    var cs := [Process(AgeBy(-5))];
    var u0 := Run(w0, ThreeUndoneCalls).post;
    var u1 := Exec(u0, cs[0]).post;
    assert Exec(u0, cs[0]) == Normal(u1);
    assert u1.tps.size == 1 && u1.tps.topIndex == 1 && u1.person == Person("Vito", 60);
    assert RunFrom(u1, cs, 1) == Normal(u1);
    assert RunFrom(u0, cs, 0) == RunFrom(u1, cs, 1);
  }

  const BranchRenamedCalls: seq<Command> := BranchCalls + [Process(NameTo("Michael"))]

  /** The second check of Test #3: a rename processed on top of the branch. */
  lemma BranchRenamed(w0: World)
    requires Fresh(w0)
    ensures Run(w0, BranchRenamedCalls).Normal?
    ensures Observed(Run(w0, BranchRenamedCalls).post, 2, 0, 2, "Michael", 60)
    ensures Snapshot(Run(w0, BranchRenamedCalls).post, [Tx.IncrementAge(-5), Tx.ChangeName("Vito", "Michael")], 2, "Michael", 60)
  {
    PeekAfterBranch(w0);
    RunAppend(w0, BranchCalls, [Process(NameTo("Michael"))]);
    var cs := [Process(NameTo("Michael"))];
    var u0 := Run(w0, BranchCalls).post;
    var u1 := Exec(u0, cs[0]).post;
    assert Exec(u0, cs[0]) == Normal(u1);
    assert u1.tps.size == 2 && u1.tps.topIndex == 2 && u1.person == Person("Michael", 60);
    assert RunFrom(u1, cs, 1) == Normal(u1);
    assert RunFrom(u0, cs, 0) == RunFrom(u1, cs, 1);
  }

  const UndoAllThenProcessCalls: seq<Command> := BranchRenamedCalls + [Process(NameTo("Luca"))]

  /** Test #3: after undoing everything, processing discards the whole redo
        branch; the three checks of the test in order. */
  lemma UndoAllThenProcess(w0: World)
    requires Fresh(w0)
    ensures Run(w0, UndoAllThenProcessCalls).Normal?
    ensures Observed(Run(w0, BranchCalls).post, 1, 0, 1, "Vito", 60)
    ensures Observed(Run(w0, BranchRenamedCalls).post, 2, 0, 2, "Michael", 60)
    ensures Observed(Run(w0, UndoAllThenProcessCalls).post, 3, 0, 3, "Luca", 60)
  {
    PeekAfterBranch(w0);
    BranchRenamed(w0);
    RunAppend(w0, BranchRenamedCalls, [Process(NameTo("Luca"))]);
    var cs := [Process(NameTo("Luca"))];
    var u0 := Run(w0, BranchRenamedCalls).post;
    var u1 := Exec(u0, cs[0]).post;
    assert Exec(u0, cs[0]) == Normal(u1);
    assert u1.tps.size == 3 && u1.tps.topIndex == 3 && u1.person == Person("Luca", 60);
    assert RunFrom(u1, cs, 1) == Normal(u1);
    assert RunFrom(u0, cs, 0) == RunFrom(u1, cs, 1);
  }

  const RedoOneThenProcessCalls: seq<Command> := ThreeUndoneCalls + [Redo, Process(AgeBy(-45))]

  /** Test #4: process three, undo three, redo one, process a fourth. */
  lemma RedoOneThenProcess(w0: World)
    requires Fresh(w0)
    ensures Run(w0, RedoOneThenProcessCalls).Normal?
    ensures Observed(Run(w0, RedoOneThenProcessCalls).post, 2, 0, 2, "Sonny", 20)
  {
    ThreeUndone(w0);
    RunAppend(w0, ThreeUndoneCalls, [Redo, Process(AgeBy(-45))]);
    var cs := [Redo, Process(AgeBy(-45))];
    var u0 := Run(w0, ThreeUndoneCalls).post;
    var u1 := Exec(u0, cs[0]).post;
    assert Exec(u0, cs[0]) == Normal(u1);
    assert u1.tps.size == 3 && u1.tps.topIndex == 1 && u1.person == Person("Sonny", 65);
    var u2 := Exec(u1, cs[1]).post;
    assert Exec(u1, cs[1]) == Normal(u2);
    assert u2.tps.size == 2 && u2.tps.topIndex == 2 && u2.person == Person("Sonny", 20);
    assert RunFrom(u2, cs, 2) == Normal(u2);
    assert RunFrom(u1, cs, 1) == RunFrom(u2, cs, 2);
    assert RunFrom(u0, cs, 0) == RunFrom(u1, cs, 1);
  }

  const RedoAllThenProcessCalls: seq<Command> := ThreeUndoneCalls + [Redo, Redo, Redo, Process(AgeBy(-5))]

  /** Test #5: process three, undo three, redo three, process a fourth. */
  lemma RedoAllThenProcess(w0: World)
    requires Fresh(w0)
    ensures Run(w0, RedoAllThenProcessCalls).Normal?
    ensures Observed(Run(w0, RedoAllThenProcessCalls).post, 4, 0, 4, "Fredo", 25)
  {
    ThreeUndone(w0);
    RunAppend(w0, ThreeUndoneCalls, [Redo, Redo, Redo, Process(AgeBy(-5))]);
    var cs := [Redo, Redo, Redo, Process(AgeBy(-5))];
    var u0 := Run(w0, ThreeUndoneCalls).post;
    var u1 := Exec(u0, cs[0]).post;
    assert Exec(u0, cs[0]) == Normal(u1);
    assert u1.tps.size == 3 && u1.tps.topIndex == 1 && u1.person == Person("Sonny", 65);
    var u2 := Exec(u1, cs[1]).post;
    assert Exec(u1, cs[1]) == Normal(u2);
    assert u2.tps.size == 3 && u2.tps.topIndex == 2 && u2.person == Person("Sonny", 30);
    var u3 := Exec(u2, cs[2]).post;
    assert Exec(u2, cs[2]) == Normal(u3);
    assert u3.tps.size == 3 && u3.tps.topIndex == 3 && u3.person == Person("Fredo", 30);
    var u4 := Exec(u3, cs[3]).post;
    assert Exec(u3, cs[3]) == Normal(u4);
    assert u4.tps.size == 4 && u4.tps.topIndex == 4 && u4.person == Person("Fredo", 25);
    assert RunFrom(u4, cs, 4) == Normal(u4);
    assert RunFrom(u3, cs, 3) == RunFrom(u4, cs, 4);
    assert RunFrom(u2, cs, 2) == RunFrom(u3, cs, 3);
    assert RunFrom(u1, cs, 1) == RunFrom(u2, cs, 2);
    assert RunFrom(u0, cs, 0) == RunFrom(u1, cs, 1);
  }

  const RedoOneThenProcessTwoCalls: seq<Command> := ThreeUndoneCalls + [Redo, Process(AgeBy(-45)), Process(NameTo("Michael"))]

  /** Test #6: process three, undo three, redo one, process two more. */
  lemma RedoOneThenProcessTwo(w0: World)
    requires Fresh(w0)
    ensures Run(w0, RedoOneThenProcessTwoCalls).Normal?
    ensures Observed(Run(w0, RedoOneThenProcessTwoCalls).post, 3, 0, 3, "Michael", 20)
  {
    ThreeUndone(w0);
    RunAppend(w0, ThreeUndoneCalls, [Redo, Process(AgeBy(-45)), Process(NameTo("Michael"))]);
    var cs := [Redo, Process(AgeBy(-45)), Process(NameTo("Michael"))];
    var u0 := Run(w0, ThreeUndoneCalls).post;
    var u1 := Exec(u0, cs[0]).post;
    assert Exec(u0, cs[0]) == Normal(u1);
    assert u1.tps.size == 3 && u1.tps.topIndex == 1 && u1.person == Person("Sonny", 65);
    var u2 := Exec(u1, cs[1]).post;
    assert Exec(u1, cs[1]) == Normal(u2);
    assert u2.tps.size == 2 && u2.tps.topIndex == 2 && u2.person == Person("Sonny", 20);
    var u3 := Exec(u2, cs[2]).post;
    assert Exec(u2, cs[2]) == Normal(u3);
    assert u3.tps.size == 3 && u3.tps.topIndex == 3 && u3.person == Person("Michael", 20);
    assert RunFrom(u3, cs, 3) == Normal(u3);
    assert RunFrom(u2, cs, 2) == RunFrom(u3, cs, 3);
    assert RunFrom(u1, cs, 1) == RunFrom(u2, cs, 2);
    assert RunFrom(u0, cs, 0) == RunFrom(u1, cs, 1);
  }

  const FiveUndoneThreeCalls: seq<Command> := ProcessFive + [Undo, Undo, Undo]

  /** Five processed, three undone. */
  lemma FiveUndoneThree(w0: World)
    requires Fresh(w0)
    ensures Run(w0, FiveUndoneThreeCalls).Normal?
    ensures Observed(Run(w0, FiveUndoneThreeCalls).post, 5, 3, 2, "Sonny", 30)
    ensures Snapshot(Run(w0, FiveUndoneThreeCalls).post, [Tx.ChangeName("Vito", "Sonny"), Tx.IncrementAge(-35), Tx.ChangeName("Sonny", "Fredo"), Tx.IncrementAge(-5), Tx.ChangeName("Fredo", "Michael")], 2, "Sonny", 30)
  {
    FiveProcessed(w0);
    RunAppend(w0, ProcessFive, [Undo, Undo, Undo]);
    var cs := [Undo, Undo, Undo];
    var u0 := Run(w0, ProcessFive).post;
    var u1 := Exec(u0, cs[0]).post;
    assert Exec(u0, cs[0]) == Normal(u1);
    assert u1.tps.size == 5 && u1.tps.topIndex == 4 && u1.person == Person("Fredo", 25);
    var u2 := Exec(u1, cs[1]).post;
    assert Exec(u1, cs[1]) == Normal(u2);
    assert u2.tps.size == 5 && u2.tps.topIndex == 3 && u2.person == Person("Fredo", 30);
    var u3 := Exec(u2, cs[2]).post;
    assert Exec(u2, cs[2]) == Normal(u3);
    assert u3.tps.size == 5 && u3.tps.topIndex == 2 && u3.person == Person("Sonny", 30);
    assert RunFrom(u3, cs, 3) == Normal(u3);
    assert RunFrom(u2, cs, 2) == RunFrom(u3, cs, 3);
    assert RunFrom(u1, cs, 1) == RunFrom(u2, cs, 2);
    assert RunFrom(u0, cs, 0) == RunFrom(u1, cs, 1);
  }

  const FiveUndoneRedoneThenProcessCalls: seq<Command> := FiveUndoneThreeCalls + [Redo, Undo, Undo, Process(NameTo("Hyman"))]

  /** Test #7: process five, undo three, redo one, undo two, process a sixth.
        */
  lemma FiveUndoneRedoneThenProcess(w0: World)
    requires Fresh(w0)
    ensures Run(w0, FiveUndoneRedoneThenProcessCalls).Normal?
    ensures Observed(Run(w0, FiveUndoneRedoneThenProcessCalls).post, 2, 0, 2, "Hyman", 65)
  {
    FiveUndoneThree(w0);
    RunAppend(w0, FiveUndoneThreeCalls, [Redo, Undo, Undo, Process(NameTo("Hyman"))]);
    var cs := [Redo, Undo, Undo, Process(NameTo("Hyman"))];
    var u0 := Run(w0, FiveUndoneThreeCalls).post;
    var u1 := Exec(u0, cs[0]).post;
    assert Exec(u0, cs[0]) == Normal(u1);
    assert u1.tps.size == 5 && u1.tps.topIndex == 3 && u1.person == Person("Fredo", 30);
    var u2 := Exec(u1, cs[1]).post;
    assert Exec(u1, cs[1]) == Normal(u2);
    assert u2.tps.size == 5 && u2.tps.topIndex == 2 && u2.person == Person("Sonny", 30);
    var u3 := Exec(u2, cs[2]).post;
    assert Exec(u2, cs[2]) == Normal(u3);
    assert u3.tps.size == 5 && u3.tps.topIndex == 1 && u3.person == Person("Sonny", 65);
    var u4 := Exec(u3, cs[3]).post;
    assert Exec(u3, cs[3]) == Normal(u4);
    assert u4.tps.size == 2 && u4.tps.topIndex == 2 && u4.person == Person("Hyman", 65);
    assert RunFrom(u4, cs, 4) == Normal(u4);
    assert RunFrom(u3, cs, 3) == RunFrom(u4, cs, 4);
    assert RunFrom(u2, cs, 2) == RunFrom(u3, cs, 3);
    assert RunFrom(u1, cs, 1) == RunFrom(u2, cs, 2);
    assert RunFrom(u0, cs, 0) == RunFrom(u1, cs, 1);
  }

  const FiveUndoThreeRedoTwoUndoThreeCalls: seq<Command> := FiveUndoneThreeCalls + [Redo, Redo, Undo, Undo, Undo]

  /** Test #8: process five, undo three, redo two, undo three. */
  lemma FiveUndoThreeRedoTwoUndoThree(w0: World)
    requires Fresh(w0)
    ensures Run(w0, FiveUndoThreeRedoTwoUndoThreeCalls).Normal?
    ensures Observed(Run(w0, FiveUndoThreeRedoTwoUndoThreeCalls).post, 5, 4, 1, "Sonny", 65)
  {
    FiveUndoneThree(w0);
    RunAppend(w0, FiveUndoneThreeCalls, [Redo, Redo, Undo, Undo, Undo]);
    var cs := [Redo, Redo, Undo, Undo, Undo];
    var u0 := Run(w0, FiveUndoneThreeCalls).post;
    var u1 := Exec(u0, cs[0]).post;
    assert Exec(u0, cs[0]) == Normal(u1);
    assert u1.tps.size == 5 && u1.tps.topIndex == 3 && u1.person == Person("Fredo", 30);
    var u2 := Exec(u1, cs[1]).post;
    assert Exec(u1, cs[1]) == Normal(u2);
    assert u2.tps.size == 5 && u2.tps.topIndex == 4 && u2.person == Person("Fredo", 25);
    var u3 := Exec(u2, cs[2]).post;
    assert Exec(u2, cs[2]) == Normal(u3);
    assert u3.tps.size == 5 && u3.tps.topIndex == 3 && u3.person == Person("Fredo", 30);
    var u4 := Exec(u3, cs[3]).post;
    assert Exec(u3, cs[3]) == Normal(u4);
    assert u4.tps.size == 5 && u4.tps.topIndex == 2 && u4.person == Person("Sonny", 30);
    var u5 := Exec(u4, cs[4]).post;
    assert Exec(u4, cs[4]) == Normal(u5);
    assert u5.tps.size == 5 && u5.tps.topIndex == 1 && u5.person == Person("Sonny", 65);
    assert RunFrom(u5, cs, 5) == Normal(u5);
    assert RunFrom(u4, cs, 4) == RunFrom(u5, cs, 5);
    assert RunFrom(u3, cs, 3) == RunFrom(u4, cs, 4);
    assert RunFrom(u2, cs, 2) == RunFrom(u3, cs, 3);
    assert RunFrom(u1, cs, 1) == RunFrom(u2, cs, 2);
    assert RunFrom(u0, cs, 0) == RunFrom(u1, cs, 1);
  }

  const FiveUndoneFourCalls: seq<Command> := FiveUndoneThreeCalls + [Undo]

  /** Five processed, four undone. */
  lemma FiveUndoneFour(w0: World)
    requires Fresh(w0)
    ensures Run(w0, FiveUndoneFourCalls).Normal?
    ensures Observed(Run(w0, FiveUndoneFourCalls).post, 5, 4, 1, "Sonny", 65)
    ensures Snapshot(Run(w0, FiveUndoneFourCalls).post, [Tx.ChangeName("Vito", "Sonny"), Tx.IncrementAge(-35), Tx.ChangeName("Sonny", "Fredo"), Tx.IncrementAge(-5), Tx.ChangeName("Fredo", "Michael")], 1, "Sonny", 65)
  {
    FiveUndoneThree(w0);
    RunAppend(w0, FiveUndoneThreeCalls, [Undo]);
    var cs := [Undo];
    var u0 := Run(w0, FiveUndoneThreeCalls).post;
    var u1 := Exec(u0, cs[0]).post;
    assert Exec(u0, cs[0]) == Normal(u1);
    assert u1.tps.size == 5 && u1.tps.topIndex == 1 && u1.person == Person("Sonny", 65);
    assert RunFrom(u1, cs, 1) == Normal(u1);
    assert RunFrom(u0, cs, 0) == RunFrom(u1, cs, 1);
  }

  const FiveUndoFourRedoTwoUndoThreeCalls: seq<Command> := FiveUndoneFourCalls + [Redo, Redo, Undo, Undo, Undo]

  /** Test #9: process five, undo four, redo two, undo three; everything is
        undone. */
  lemma FiveUndoFourRedoTwoUndoThree(w0: World)
    requires Fresh(w0)
    ensures Run(w0, FiveUndoFourRedoTwoUndoThreeCalls).Normal?
    ensures Observed(Run(w0, FiveUndoFourRedoTwoUndoThreeCalls).post, 5, 5, 0, "Vito", 65)
  {
    FiveUndoneFour(w0);
    RunAppend(w0, FiveUndoneFourCalls, [Redo, Redo, Undo, Undo, Undo]);
    var cs := [Redo, Redo, Undo, Undo, Undo];
    var u0 := Run(w0, FiveUndoneFourCalls).post;
    var u1 := Exec(u0, cs[0]).post;
    assert Exec(u0, cs[0]) == Normal(u1);
    assert u1.tps.size == 5 && u1.tps.topIndex == 2 && u1.person == Person("Sonny", 30);
    var u2 := Exec(u1, cs[1]).post;
    assert Exec(u1, cs[1]) == Normal(u2);
    assert u2.tps.size == 5 && u2.tps.topIndex == 3 && u2.person == Person("Fredo", 30);
    var u3 := Exec(u2, cs[2]).post;
    assert Exec(u2, cs[2]) == Normal(u3);
    assert u3.tps.size == 5 && u3.tps.topIndex == 2 && u3.person == Person("Sonny", 30);
    var u4 := Exec(u3, cs[3]).post;
    assert Exec(u3, cs[3]) == Normal(u4);
    assert u4.tps.size == 5 && u4.tps.topIndex == 1 && u4.person == Person("Sonny", 65);
    var u5 := Exec(u4, cs[4]).post;
    assert Exec(u4, cs[4]) == Normal(u5);
    assert u5.tps.size == 5 && u5.tps.topIndex == 0 && u5.person == Person("Vito", 65);
    assert RunFrom(u5, cs, 5) == Normal(u5);
    assert RunFrom(u4, cs, 4) == RunFrom(u5, cs, 5);
    assert RunFrom(u3, cs, 3) == RunFrom(u4, cs, 4);
    assert RunFrom(u2, cs, 2) == RunFrom(u3, cs, 3);
    assert RunFrom(u1, cs, 1) == RunFrom(u2, cs, 2);
    assert RunFrom(u0, cs, 0) == RunFrom(u1, cs, 1);
  }

  const UndoOnEmptyCalls: seq<Command> := [Undo]

  /** Test #10: undo on an empty stack throws and changes nothing. */
  lemma UndoOnEmptyThrows(w0: World)
    requires Fresh(w0)
    ensures Run(w0, UndoOnEmptyCalls).Abrupt? && Run(w0, UndoOnEmptyCalls).error == TransactionStackException
    ensures Observed(Run(w0, UndoOnEmptyCalls).post, 0, 0, 0, "Vito", 65)
  {
    var cs := [Undo];
    var u0 := w0;
    var u1 := Exec(u0, cs[0]).post;
    assert Exec(u0, cs[0]) == Abrupt(TransactionStackException, u1);
    assert u1.tps.size == 0 && u1.tps.topIndex == 0 && u1.person == Person("Vito", 65);
    assert RunFrom(u0, cs, 0) == Abrupt(TransactionStackException, u1);
  }

  const FiveUndoneAndRedoneCalls: seq<Command> := ProcessFive + [Undo, Undo, Redo, Undo, Redo]

  /** Five processed, then undo twice, redo, undo, redo. */
  lemma FiveUndoneAndRedone(w0: World)
    requires Fresh(w0)
    ensures Run(w0, FiveUndoneAndRedoneCalls).Normal?
    ensures Observed(Run(w0, FiveUndoneAndRedoneCalls).post, 5, 1, 4, "Fredo", 25)
    ensures Snapshot(Run(w0, FiveUndoneAndRedoneCalls).post, [Tx.ChangeName("Vito", "Sonny"), Tx.IncrementAge(-35), Tx.ChangeName("Sonny", "Fredo"), Tx.IncrementAge(-5), Tx.ChangeName("Fredo", "Michael")], 4, "Fredo", 25)
  {
    FiveProcessed(w0);
    RunAppend(w0, ProcessFive, [Undo, Undo, Redo, Undo, Redo]);
    var cs := [Undo, Undo, Redo, Undo, Redo];
    var u0 := Run(w0, ProcessFive).post;
    var u1 := Exec(u0, cs[0]).post;
    assert Exec(u0, cs[0]) == Normal(u1);
    assert u1.tps.size == 5 && u1.tps.topIndex == 4 && u1.person == Person("Fredo", 25);
    var u2 := Exec(u1, cs[1]).post;
    assert Exec(u1, cs[1]) == Normal(u2);
    assert u2.tps.size == 5 && u2.tps.topIndex == 3 && u2.person == Person("Fredo", 30);
    var u3 := Exec(u2, cs[2]).post;
    assert Exec(u2, cs[2]) == Normal(u3);
    assert u3.tps.size == 5 && u3.tps.topIndex == 4 && u3.person == Person("Fredo", 25);
    var u4 := Exec(u3, cs[3]).post;
    assert Exec(u3, cs[3]) == Normal(u4);
    assert u4.tps.size == 5 && u4.tps.topIndex == 3 && u4.person == Person("Fredo", 30);
    var u5 := Exec(u4, cs[4]).post;
    assert Exec(u4, cs[4]) == Normal(u5);
    assert u5.tps.size == 5 && u5.tps.topIndex == 4 && u5.person == Person("Fredo", 25);
    assert RunFrom(u5, cs, 5) == Normal(u5);
    assert RunFrom(u4, cs, 4) == RunFrom(u5, cs, 5);
    assert RunFrom(u3, cs, 3) == RunFrom(u4, cs, 4);
    assert RunFrom(u2, cs, 2) == RunFrom(u3, cs, 3);
    assert RunFrom(u1, cs, 1) == RunFrom(u2, cs, 2);
    assert RunFrom(u0, cs, 0) == RunFrom(u1, cs, 1);
  }

  const UndoExhaustedCalls: seq<Command> := FiveUndoneAndRedoneCalls + [Undo, Undo, Undo, Undo, Undo]

  /** Test #11: undo once everything has been undone throws and changes
        nothing. */
  lemma UndoExhaustedThrows(w0: World)
    requires Fresh(w0)
    ensures Run(w0, UndoExhaustedCalls).Abrupt? && Run(w0, UndoExhaustedCalls).error == TransactionStackException
    ensures Observed(Run(w0, UndoExhaustedCalls).post, 5, 5, 0, "Vito", 65)
  {
    FiveUndoneAndRedone(w0);
    RunAppend(w0, FiveUndoneAndRedoneCalls, [Undo, Undo, Undo, Undo, Undo]);
    var cs := [Undo, Undo, Undo, Undo, Undo];
    var u0 := Run(w0, FiveUndoneAndRedoneCalls).post;
    var u1 := Exec(u0, cs[0]).post;
    assert Exec(u0, cs[0]) == Normal(u1);
    assert u1.tps.size == 5 && u1.tps.topIndex == 3 && u1.person == Person("Fredo", 30);
    var u2 := Exec(u1, cs[1]).post;
    assert Exec(u1, cs[1]) == Normal(u2);
    assert u2.tps.size == 5 && u2.tps.topIndex == 2 && u2.person == Person("Sonny", 30);
    var u3 := Exec(u2, cs[2]).post;
    assert Exec(u2, cs[2]) == Normal(u3);
    assert u3.tps.size == 5 && u3.tps.topIndex == 1 && u3.person == Person("Sonny", 65);
    var u4 := Exec(u3, cs[3]).post;
    assert Exec(u3, cs[3]) == Normal(u4);
    assert u4.tps.size == 5 && u4.tps.topIndex == 0 && u4.person == Person("Vito", 65);
    var u5 := Exec(u4, cs[4]).post;
    assert Exec(u4, cs[4]) == Abrupt(TransactionStackException, u5);
    assert u5.tps.size == 5 && u5.tps.topIndex == 0 && u5.person == Person("Vito", 65);
    assert RunFrom(u4, cs, 4) == Abrupt(TransactionStackException, u5);
    assert RunFrom(u3, cs, 3) == RunFrom(u4, cs, 4);
    assert RunFrom(u2, cs, 2) == RunFrom(u3, cs, 3);
    assert RunFrom(u1, cs, 1) == RunFrom(u2, cs, 2);
    assert RunFrom(u0, cs, 0) == RunFrom(u1, cs, 1);
  }

  const RedoOnEmptyCalls: seq<Command> := [Redo]

  /** Test #12: redo on an empty stack throws and changes nothing. */
  lemma RedoOnEmptyThrows(w0: World)
    requires Fresh(w0)
    ensures Run(w0, RedoOnEmptyCalls).Abrupt? && Run(w0, RedoOnEmptyCalls).error == TransactionStackException
    ensures Observed(Run(w0, RedoOnEmptyCalls).post, 0, 0, 0, "Vito", 65)
  {
    var cs := [Redo];
    var u0 := w0;
    var u1 := Exec(u0, cs[0]).post;
    assert Exec(u0, cs[0]) == Abrupt(TransactionStackException, u1);
    assert u1.tps.size == 0 && u1.tps.topIndex == 0 && u1.person == Person("Vito", 65);
    assert RunFrom(u0, cs, 0) == Abrupt(TransactionStackException, u1);
  }

  const RedoExhaustedCalls: seq<Command> := ProcessFive + [Undo, Undo, Redo, Redo, Redo]

  /** Test #13: redo once everything has been redone throws and changes
        nothing. */
  lemma RedoExhaustedThrows(w0: World)
    requires Fresh(w0)
    ensures Run(w0, RedoExhaustedCalls).Abrupt? && Run(w0, RedoExhaustedCalls).error == TransactionStackException
    ensures Observed(Run(w0, RedoExhaustedCalls).post, 5, 0, 5, "Michael", 25)
  {
    FiveProcessed(w0);
    RunAppend(w0, ProcessFive, [Undo, Undo, Redo, Redo, Redo]);
    var cs := [Undo, Undo, Redo, Redo, Redo];
    var u0 := Run(w0, ProcessFive).post;
    var u1 := Exec(u0, cs[0]).post;
    assert Exec(u0, cs[0]) == Normal(u1);
    assert u1.tps.size == 5 && u1.tps.topIndex == 4 && u1.person == Person("Fredo", 25);
    var u2 := Exec(u1, cs[1]).post;
    assert Exec(u1, cs[1]) == Normal(u2);
    assert u2.tps.size == 5 && u2.tps.topIndex == 3 && u2.person == Person("Fredo", 30);
    var u3 := Exec(u2, cs[2]).post;
    assert Exec(u2, cs[2]) == Normal(u3);
    assert u3.tps.size == 5 && u3.tps.topIndex == 4 && u3.person == Person("Fredo", 25);
    var u4 := Exec(u3, cs[3]).post;
    assert Exec(u3, cs[3]) == Normal(u4);
    assert u4.tps.size == 5 && u4.tps.topIndex == 5 && u4.person == Person("Michael", 25);
    var u5 := Exec(u4, cs[4]).post;
    assert Exec(u4, cs[4]) == Abrupt(TransactionStackException, u5);
    assert u5.tps.size == 5 && u5.tps.topIndex == 5 && u5.person == Person("Michael", 25);
    assert RunFrom(u4, cs, 4) == Abrupt(TransactionStackException, u5);
    assert RunFrom(u3, cs, 3) == RunFrom(u4, cs, 4);
    assert RunFrom(u2, cs, 2) == RunFrom(u3, cs, 3);
    assert RunFrom(u1, cs, 1) == RunFrom(u2, cs, 2);
    assert RunFrom(u0, cs, 0) == RunFrom(u1, cs, 1);
  }

  const PeekMiddleAfterRedoCalls: seq<Command> := ProcessFour + [Undo, Undo, Undo, Redo]

  /** Tests #16 and #17: peek in the middle and at the bottom after undos and
        a redo. */
  lemma PeekMiddleAfterRedo(w0: World)
    requires Fresh(w0)
    ensures Run(w0, PeekMiddleAfterRedoCalls).Normal?
    ensures Observed(Run(w0, PeekMiddleAfterRedoCalls).post, 4, 2, 2, "Sonny", 30)
    ensures Snapshot(Run(w0, PeekMiddleAfterRedoCalls).post, [Tx.ChangeName("Vito", "Sonny"), Tx.IncrementAge(-35), Tx.ChangeName("Sonny", "Fredo"), Tx.IncrementAge(-5)], 2, "Sonny", 30)
    ensures PeekTransaction(Run(w0, PeekMiddleAfterRedoCalls).post.tps, 2) == Some(Tx.ChangeName("Sonny", "Fredo"))
    ensures PeekTransaction(Run(w0, PeekMiddleAfterRedoCalls).post.tps, 0) == Some(Tx.ChangeName("Vito", "Sonny"))
  {
    FourProcessed(w0);
    RunAppend(w0, ProcessFour, [Undo, Undo, Undo, Redo]);
    var cs := [Undo, Undo, Undo, Redo];
    var u0 := Run(w0, ProcessFour).post;
    var u1 := Exec(u0, cs[0]).post;
    assert Exec(u0, cs[0]) == Normal(u1);
    assert u1.tps.size == 4 && u1.tps.topIndex == 3 && u1.person == Person("Fredo", 30);
    var u2 := Exec(u1, cs[1]).post;
    assert Exec(u1, cs[1]) == Normal(u2);
    assert u2.tps.size == 4 && u2.tps.topIndex == 2 && u2.person == Person("Sonny", 30);
    var u3 := Exec(u2, cs[2]).post;
    assert Exec(u2, cs[2]) == Normal(u3);
    assert u3.tps.size == 4 && u3.tps.topIndex == 1 && u3.person == Person("Sonny", 65);
    var u4 := Exec(u3, cs[3]).post;
    assert Exec(u3, cs[3]) == Normal(u4);
    assert u4.tps.size == 4 && u4.tps.topIndex == 2 && u4.person == Person("Sonny", 30);
    assert RunFrom(u4, cs, 4) == Normal(u4);
    assert RunFrom(u3, cs, 3) == RunFrom(u4, cs, 4);
    assert RunFrom(u2, cs, 2) == RunFrom(u3, cs, 3);
    assert RunFrom(u1, cs, 1) == RunFrom(u2, cs, 2);
    assert RunFrom(u0, cs, 0) == RunFrom(u1, cs, 1);
  }

  const PeekTopAfterRedoCalls: seq<Command> := PeekMiddleAfterRedoCalls + [Redo, Redo]

  /** Test #15: peek at the top slot after undos and redos. */
  lemma PeekTopAfterRedo(w0: World)
    requires Fresh(w0)
    ensures Run(w0, PeekTopAfterRedoCalls).Normal?
    ensures Observed(Run(w0, PeekTopAfterRedoCalls).post, 4, 0, 4, "Fredo", 25)
    ensures PeekTransaction(Run(w0, PeekTopAfterRedoCalls).post.tps, 3) == Some(Tx.IncrementAge(-5))
  {
    PeekMiddleAfterRedo(w0);
    RunAppend(w0, PeekMiddleAfterRedoCalls, [Redo, Redo]);
    var cs := [Redo, Redo];
    var u0 := Run(w0, PeekMiddleAfterRedoCalls).post;
    var u1 := Exec(u0, cs[0]).post;
    assert Exec(u0, cs[0]) == Normal(u1);
    assert u1.tps.size == 4 && u1.tps.topIndex == 3 && u1.person == Person("Fredo", 30);
    var u2 := Exec(u1, cs[1]).post;
    assert Exec(u1, cs[1]) == Normal(u2);
    assert u2.tps.size == 4 && u2.tps.topIndex == 4 && u2.person == Person("Fredo", 25);
    assert RunFrom(u2, cs, 2) == Normal(u2);
    assert RunFrom(u1, cs, 1) == RunFrom(u2, cs, 2);
    assert RunFrom(u0, cs, 0) == RunFrom(u1, cs, 1);
  }
}

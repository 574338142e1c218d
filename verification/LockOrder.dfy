/** Scoped locking: if every piece of code takes its locks in increasing rank, no set of threads can deadlock.

    Guards are values that release their lock when they go out of scope, so code is a tree in which `Locked(l, body)`
    is the scope of a guard; an error return leaves all enclosing scopes at once. A mutex is not reentrant: a thread
    that asks for a lock it holds waits for ever. */
module LockOrder {

  /** The locks of the Owner and the V3 handler, and those the listeners share with other threads. */
  datatype Lock =
    | Updater | TorConfig | EpicboxConfig | Wallet | Secp | OwnerKey | HandlerKey | Mask | StatusTx | UpdaterMessages

  type Ranking = Lock -> int

  datatype Code =
    | Skip
    | Fallible                          // may return an error here
    | Locked(lock: Lock, body: Code)    // a guard and its scope
    | Then(first: Code, second: Code)
    | Either(left: Code, right: Code)
    | Loop(body: Code)                  // any number of times

  datatype Op = Acquire(lock: Lock) | Release(lock: Lock)

  /** `ops` is what a thread running `code` may do; `ok` tells whether it got to the end without an error. */
  ghost predicate Executes(code: Code, ops: seq<Op>, ok: bool)
    decreases code, |ops|
  {
    match code
    case Skip => ops == [] && ok
    case Fallible => ops == []
    case Locked(lock, body) =>
      |ops| >= 2 && ops[0] == Acquire(lock) && ops[|ops| - 1] == Release(lock) && Executes(body, ops[1..|ops| - 1], ok)
    case Then(first, second) =>
      || (!ok && Executes(first, ops, false))
      || exists k :: 0 <= k <= |ops| && Executes(first, ops[..k], true) && Executes(second, ops[k..], ok)
    case Either(left, right) => Executes(left, ops, ok) || Executes(right, ops, ok)
    case Loop(body) =>
      || (ops == [] && ok)
      || (!ok && Executes(body, ops, false))
      || exists k :: 0 < k <= |ops| && Executes(body, ops[..k], true) && Executes(code, ops[k..], ok)
  }

  /** Every lock is taken inside scopes of locks of smaller rank only. */
  predicate Disciplined(code: Code, rank: Ranking, floor: int) {
    match code
    case Skip => true
    case Fallible => true
    case Locked(lock, body) => floor < rank(lock) && Disciplined(body, rank, rank(lock))
    case Then(first, second) => Disciplined(first, rank, floor) && Disciplined(second, rank, floor)
    case Either(left, right) => Disciplined(left, rank, floor) && Disciplined(right, rank, floor)
    case Loop(body) => Disciplined(body, rank, floor)
  }

  // ---------- Threads ----------

  /** A thread: the locks it holds, oldest first, and what it has still to do. */
  datatype Thread = Thread(held: seq<Lock>, todo: seq<Op>)

  function Top(held: seq<Lock>, rank: Ranking, floor: int): int {
    if held == [] then floor else rank(held[|held| - 1])
  }

  /** The remaining operations take locks in increasing rank and give all of them back, last taken first. */
  predicate Ordered(held: seq<Lock>, todo: seq<Op>, rank: Ranking, floor: int)
    decreases |todo|
  {
    if todo == [] then held == []
    else
      match todo[0]
      case Acquire(lock) => Top(held, rank, floor) < rank(lock) && Ordered(held + [lock], todo[1..], rank, floor)
      case Release(lock) =>
        held != [] && held[|held| - 1] == lock && Ordered(held[..|held| - 1], todo[1..], rank, floor)
  }

  /** Running balanced operations on top of what is held, and then the rest. */
  lemma {:induction false} OrderedAppend(held: seq<Lock>, ops: seq<Op>, rest: seq<Op>, rank: Ranking, floor: int, base: seq<Lock>)
    requires Ordered(held, ops, rank, Top(base, rank, floor)) && Ordered(base, rest, rank, floor)
    ensures Ordered(base + held, ops + rest, rank, floor)
    decreases |ops|
  {
    if ops == [] {
      assert base + held == base && ops + rest == rest;
    } else {
      var all, stack := ops + rest, base + held;
      assert all[0] == ops[0] && all[1..] == ops[1..] + rest;
      if ops[0].Acquire? {
        var lock := ops[0].lock;
        OrderedAppend(held + [lock], ops[1..], rest, rank, floor, base);
        assert base + (held + [lock]) == stack + [lock];
        assert Top(stack, rank, floor) == Top(held, rank, Top(base, rank, floor));
        assert Ordered(stack + [lock], all[1..], rank, floor);
      } else {
        OrderedAppend(held[..|held| - 1], ops[1..], rest, rank, floor, base);
        assert base + held[..|held| - 1] == stack[..|stack| - 1];
        assert stack[|stack| - 1] == held[|held| - 1];
        assert Ordered(stack[..|stack| - 1], all[1..], rank, floor);
      }
    }
  }

  lemma OrderedThen(a: seq<Op>, b: seq<Op>, rank: Ranking, floor: int)
    requires Ordered([], a, rank, floor) && Ordered([], b, rank, floor)
    ensures Ordered([], a + b, rank, floor)
  {
    var none: seq<Lock> := [];
    OrderedAppend(none, a, b, rank, floor, none);
    assert none + none == none;
  }

  lemma OrderedInside(lock: Lock, inner: seq<Op>, rank: Ranking, floor: int)
    requires floor < rank(lock) && Ordered([], inner, rank, rank(lock))
    ensures Ordered([], [Acquire(lock)] + inner + [Release(lock)], rank, floor)
  {
    var last := [Release(lock)];
    assert [lock][..0] == [] && last[1..] == [];
    assert Ordered([lock], last, rank, floor);
    OrderedAppend([], inner, last, rank, floor, [lock]);
    assert [lock] + [] == [lock] && [] + [lock] == [lock];
    var ops := [Acquire(lock)] + inner + last;
    assert ops[0] == Acquire(lock) && ops[1..] == inner + last;
  }

  /** Disciplined code does ordered operations only, whichever way it goes and wherever it fails. */
  lemma {:induction false} DisciplinedExecutesOrdered(code: Code, ops: seq<Op>, ok: bool, rank: Ranking, floor: int)
    requires Disciplined(code, rank, floor) && Executes(code, ops, ok)
    ensures Ordered([], ops, rank, floor)
    decreases code, |ops|
  {
    match code
    case Skip =>
    case Fallible =>
    case Locked(lock, body) =>
      var inner := ops[1..|ops| - 1];
      DisciplinedExecutesOrdered(body, inner, ok, rank, rank(lock));
      OrderedInside(lock, inner, rank, floor);
      assert ops == [Acquire(lock)] + inner + [Release(lock)];
    case Then(first, second) =>
      if !ok && Executes(first, ops, false) {
        DisciplinedExecutesOrdered(first, ops, false, rank, floor);
      } else {
        var k :| 0 <= k <= |ops| && Executes(first, ops[..k], true) && Executes(second, ops[k..], ok);
        DisciplinedExecutesOrdered(first, ops[..k], true, rank, floor);
        DisciplinedExecutesOrdered(second, ops[k..], ok, rank, floor);
        OrderedThen(ops[..k], ops[k..], rank, floor);
        assert ops == ops[..k] + ops[k..];
      }
    case Either(left, right) =>
      if Executes(left, ops, ok) {
        DisciplinedExecutesOrdered(left, ops, ok, rank, floor);
      } else {
        DisciplinedExecutesOrdered(right, ops, ok, rank, floor);
      }
    case Loop(body) =>
      if ops == [] && ok {
      } else if !ok && Executes(body, ops, false) {
        DisciplinedExecutesOrdered(body, ops, false, rank, floor);
      } else {
        var k :| 0 < k <= |ops| && Executes(body, ops[..k], true) && Executes(code, ops[k..], ok);
        DisciplinedExecutesOrdered(body, ops[..k], true, rank, floor);
        DisciplinedExecutesOrdered(code, ops[k..], ok, rank, floor);
        OrderedThen(ops[..k], ops[k..], rank, floor);
        assert ops == ops[..k] + ops[k..];
      }
  }

  // ---------- Systems of threads ----------

  type System = seq<Thread>

  predicate Taken(sys: System, lock: Lock) {
    exists i :: 0 <= i < |sys| && lock in sys[i].held
  }

  /** Thread `i` can do its next operation: it only waits for a lock that somebody holds. */
  predicate Enabled(sys: System, i: nat) {
    i < |sys| && sys[i].todo != [] && (sys[i].todo[0].Acquire? ==> !Taken(sys, sys[i].todo[0].lock))
  }

  function Performed(t: Thread): Thread
    requires t.todo != [] && (t.todo[0].Release? ==> t.held != [])
  {
    match t.todo[0]
    case Acquire(lock) => Thread(t.held + [lock], t.todo[1..])
    case Release(_) => Thread(t.held[..|t.held| - 1], t.todo[1..])
  }

  ghost predicate Increasing(held: seq<Lock>, rank: Ranking) {
    forall a, b :: 0 <= a < b < |held| ==> rank(held[a]) < rank(held[b])
  }

  ghost predicate ThreadSound(t: Thread, rank: Ranking, floor: int) {
    Ordered(t.held, t.todo, rank, floor) && Increasing(t.held, rank)
  }

  /** Every thread keeps to the order, and no lock has two holders. */
  ghost predicate Sound(sys: System, rank: Ranking, floor: int) {
    && (forall i :: 0 <= i < |sys| ==> ThreadSound(sys[i], rank, floor))
    && (forall i, j, lock :: 0 <= i < j < |sys| && lock in sys[i].held ==> lock !in sys[j].held)
  }

  /** What happens to a system: a thread performs its next operation, or a new thread starts on some code. */
  datatype Event = Step(i: nat) | Spawn(code: Code, ops: seq<Op>, ok: bool)

  ghost predicate Possible(sys: System, event: Event, rank: Ranking, floor: int) {
    match event
    case Step(i) => Enabled(sys, i) && (sys[i].todo[0].Release? ==> sys[i].held != [])
    case Spawn(code, ops, ok) => Disciplined(code, rank, floor) && Executes(code, ops, ok)
  }

  ghost function After(sys: System, event: Event, rank: Ranking, floor: int): System
    requires Possible(sys, event, rank, floor)
  {
    match event
    case Step(i) => sys[i := Performed(sys[i])]
    case Spawn(_, ops, _) => sys + [Thread([], ops)]
  }

  ghost predicate Reaches(sys: System, events: seq<Event>, sys': System, rank: Ranking, floor: int)
    decreases |events|
  {
    if events == [] then sys == sys'
    else Possible(sys, events[0], rank, floor) && Reaches(After(sys, events[0], rank, floor), events[1..], sys', rank, floor)
  }

  lemma PerformedIsSound(t: Thread, rank: Ranking, floor: int)
    requires ThreadSound(t, rank, floor) && t.todo != [] && (t.todo[0].Release? ==> t.held != [])
    ensures ThreadSound(Performed(t), rank, floor)
  {
  }

  lemma StepStaysSound(sys: System, i: nat, rank: Ranking, floor: int)
    requires Sound(sys, rank, floor) && Possible(sys, Step(i), rank, floor)
    ensures Sound(sys[i := Performed(sys[i])], rank, floor)
  {
    var t := sys[i];
    assert ThreadSound(t, rank, floor);
    var sys' := sys[i := Performed(t)];
    PerformedIsSound(t, rank, floor);
    forall a, b, lock | 0 <= a < b < |sys'| && lock in sys'[a].held
      ensures lock !in sys'[b].held
    {
      if t.todo[0].Acquire? && lock == t.todo[0].lock {
        assert !Taken(sys, lock);
      } else {
        assert lock in sys[a].held;
      }
    }
  }

  lemma EventStaysSound(sys: System, event: Event, rank: Ranking, floor: int)
    requires Sound(sys, rank, floor) && Possible(sys, event, rank, floor)
    ensures Sound(After(sys, event, rank, floor), rank, floor)
  {
    match event
    case Step(i) => StepStaysSound(sys, i, rank, floor);
    case Spawn(code, ops, ok) =>
      DisciplinedExecutesOrdered(code, ops, ok, rank, floor);
      assert ThreadSound(Thread([], ops), rank, floor);
  }

  lemma {:induction false} ReachedIsSound(sys: System, events: seq<Event>, sys': System, rank: Ranking, floor: int)
    requires Sound(sys, rank, floor) && Reaches(sys, events, sys', rank, floor)
    ensures Sound(sys', rank, floor)
    decreases |events|
  {
    if events != [] {
      EventStaysSound(sys, events[0], rank, floor);
      ReachedIsSound(After(sys, events[0], rank, floor), events[1..], sys', rank, floor);
    }
  }

  /** Among waiting threads, one that waits for a lock of greatest rank. */
  lemma {:induction false} GreatestWish(sys: System, n: nat, rank: Ranking) returns (m: nat)
    requires n <= |sys| && exists i :: 0 <= i < n && sys[i].todo != []
    ensures m < n && sys[m].todo != []
    ensures forall i :: 0 <= i < n && sys[i].todo != [] ==> rank(sys[i].todo[0].lock) <= rank(sys[m].todo[0].lock)
  {
    if exists i :: 0 <= i < n - 1 && sys[i].todo != [] {
      m := GreatestWish(sys, n - 1, rank);
      if sys[n - 1].todo != [] && rank(sys[n - 1].todo[0].lock) > rank(sys[m].todo[0].lock) {
        m := n - 1;
      }
    } else {
      m := n - 1;
    }
  }

  lemma HolderGoesUp(t: Thread, lock: Lock, rank: Ranking, floor: int)
    requires ThreadSound(t, rank, floor) && lock in t.held
    ensures t.todo != [] && (t.todo[0].Release? || rank(lock) < rank(t.todo[0].lock))
  {
    assert rank(lock) <= Top(t.held, rank, floor);
  }

  /** If anything is left to do, some thread can go on. */
  lemma SomeThreadCanGoOn(sys: System, rank: Ranking, floor: int)
    requires Sound(sys, rank, floor)
    requires exists i :: 0 <= i < |sys| && sys[i].todo != []
    ensures exists i :: 0 <= i < |sys| && Possible(sys, Step(i), rank, floor)
  {
    if i :| 0 <= i < |sys| && sys[i].todo != [] && sys[i].todo[0].Release? {
      assert ThreadSound(sys[i], rank, floor);
      assert Possible(sys, Step(i), rank, floor);
    } else {
      var m := GreatestWish(sys, |sys|, rank);
      var lock := sys[m].todo[0].lock;
      if Taken(sys, lock) {
        var j :| 0 <= j < |sys| && lock in sys[j].held;
        HolderGoesUp(sys[j], lock, rank, floor);
        assert false;
      }
      assert Possible(sys, Step(m), rank, floor);
    }
  }

  /** No deadlock: whatever threads were started on disciplined code and however they interleaved, as long as one of
      them is unfinished, one of them can take its next step. */
  lemma NoDeadlock(events: seq<Event>, sys: System, rank: Ranking, floor: int)
    requires Reaches([], events, sys, rank, floor)
    requires exists i :: 0 <= i < |sys| && sys[i].todo != []
    ensures exists i :: 0 <= i < |sys| && Possible(sys, Step(i), rank, floor)
  {
    ReachedIsSound([], events, sys, rank, floor);
    SomeThreadCanGoOn(sys, rank, floor);
  }

  // ---------- Finishing ----------

  function Work(sys: System): nat {
    if sys == [] then 0 else |sys[0].todo| + Work(sys[1..])
  }

  lemma {:induction false} StepIsWorkDone(sys: System, i: nat)
    requires i < |sys| && sys[i].todo != [] && (sys[i].todo[0].Release? ==> sys[i].held != [])
    ensures Work(sys[i := Performed(sys[i])]) == Work(sys) - 1
  {
    if i > 0 {
      StepIsWorkDone(sys[1..], i - 1);
      assert sys[i := Performed(sys[i])][1..] == sys[1..][i - 1 := Performed(sys[i])];
    } else {
      assert sys[0 := Performed(sys[0])][1..] == sys[1..];
    }
  }

  lemma {:induction false} SoundCanFinish(sys: System, rank: Ranking, floor: int) returns (events: seq<Event>, last: System)
    requires Sound(sys, rank, floor)
    ensures Reaches(sys, events, last, rank, floor) && forall i :: 0 <= i < |last| ==> last[i].todo == [] && last[i].held == []
    decreases Work(sys)
  {
    if exists i :: 0 <= i < |sys| && sys[i].todo != [] {
      SomeThreadCanGoOn(sys, rank, floor);
      var i :| 0 <= i < |sys| && Possible(sys, Step(i), rank, floor);
      StepStaysSound(sys, i, rank, floor);
      StepIsWorkDone(sys, i);
      var more;
      more, last := SoundCanFinish(After(sys, Step(i), rank, floor), rank, floor);
      events := [Step(i)] + more;
      assert events[1..] == more;
    } else {
      events, last := [], sys;
      assert forall i :: 0 <= i < |sys| ==> ThreadSound(sys[i], rank, floor);
    }
  }

  /** From wherever a run has got to, all threads can be brought to their ends, with every lock released. */
  lemma EveryoneCanFinish(events: seq<Event>, sys: System, rank: Ranking, floor: int)
    requires Reaches([], events, sys, rank, floor)
    ensures exists more: seq<Event>, last: System :: Reaches(sys, more, last, rank, floor)
              && forall i :: 0 <= i < |last| ==> last[i].todo == [] && last[i].held == []
  {
    ReachedIsSound([], events, sys, rank, floor);
    var more, last := SoundCanFinish(sys, rank, floor);
  }
}

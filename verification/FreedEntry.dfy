/**
 A run in which a thread takes the init/fini claim on an object that another thread's sweep has
 freed, with every step that the calls make.  Claims.EntersAllocated and Claims.ClaimsSafe say
 for all runs when that cannot happen.
 */
module FreedEntry {
  import opened Claims

  ghost predicate Reached(s: State) { exists run :: IsRun(run) && run[|run| - 1] == s }

  lemma Goes(s: State, t: Lwp, a: Action, s': State)
    requires Reached(s) && StepOf(s, t, a, s')
    ensures Reached(s')
  {
    hide StepOf;
    var run :| IsRun(run) && run[|run| - 1] == s;
    var run' := run + [s'];
    forall i: nat | i + 1 < |run'| ensures StepAt(run', i) {
      if i + 1 < |run| { assert StepAt(run, i); } else { assert StepOf(run'[i], t, a, run'[i + 1]); }
    }
    assert IsRun(run');
  }

  /** Thread t does a, which takes s to s'. */
  lemma Go(s: State, t: Lwp, a: Action, s': State)
    requires Reached(s) && 0 < t < |s.stacks| && s.lock == (if a.Acquire? then 0 else t) &&
             Enabled(s.objs, s.gen, t, s.stacks[t], a)
    requires s'.lock == (if a.Release? then 0 else t) && s'.gen == NewGen(s.gen, a) && |s'.stacks| == |s.stacks| &&
             forall u :: 0 <= u < |s.stacks| && u != t ==> s'.stacks[u] == s.stacks[u]
    requires NewObjs(s.objs, s.gen, t, s.stacks[t], a) == s'.objs
    requires NewStack(s.objs, s.gen, t, s.stacks[t], a) == s'.stacks[t]
    ensures Reached(s')
  {
    hide Reached, Enabled, NewObjs, NewStack;
    assert s'.stacks == s.stacks[t := s'.stacks[t]];
    Goes(s, t, a, s');
  }

  // ---- parts of a call that leave things as they were ---------------------------------------------

  lemma Takes(s: State, t: Lwp)
    requires Reached(s) && 0 < t < |s.stacks| && s.lock == 0
    ensures Reached(s.(lock := t))
  {
    hide Reached, Reaches, GiveUp, Raise, Lower;
    Go(s, t, Acquire, s.(lock := t));
  }

  lemma Leaves(s: State, t: Lwp)
    requires Reached(s) && 0 < t < |s.stacks| && s.lock == t && !TopIsSweep(s.stacks[t])
    ensures Reached(s.(lock := 0))
  {
    hide Reached, Reaches, GiveUp, Raise, Lower;
    Go(s, t, Release, s.(lock := 0));
  }

  /** Loading for an object that needs nothing more. */
  lemma LoadsPast(s: State, t: Lwp, o: Id)
    requires Reached(s) && 0 < t < |s.stacks| && s.lock == t && !TopIsSweep(s.stacks[t])
    requires o < |s.objs| && s.objs[o].refcount > 0
    ensures Reached(s)
  {
    hide Reached, Reaches, GiveUp, Raise, Lower;
    var stack := s.stacks[t] + [Loading(o)];
    var ob := s.objs[o].(neededrefcount := s.objs[o].neededrefcount + 1);
    var s1 := s.(objs := s.objs[o := ob], stacks := s.stacks[t := stack]);
    Go(s, t, LoadEnter(o), s1);
    assert Pop(stack) == s.stacks[t] && s1.objs[o := s.objs[o]] == s.objs;
    Go(s1, t, LoadExit, s);
  }

  /** The pass will run the functions of o, or pass it over because it is in use. */
  predicate Passable(objs: seq<Obj>, fini: bool, o: Id) {
    o < |objs| && !objs[o].freed &&
    if fini then objs[o].refcount > 0 || objs[o].initfinilock == 0
    else objs[o].refcount > 0 && objs[o].initfinilock == 0
  }

  /** One object of a pass. */
  lemma PassesOne(s: State, t: Lwp, stack: seq<Frame>, rest: seq<Id>, fini: bool)
    requires Reached(s) && 0 < t < |s.stacks| && s.lock == t && rest != [] && Passable(s.objs, fini, rest[0])
    requires s.stacks[t] == stack + [Pass(rest, s.gen, fini, false)]
    ensures Reached(s.(stacks := s.stacks[t := stack + [Pass(rest[1..], s.gen, fini, false)]]))
  {
    hide Reached, Reaches, GiveUp, Raise, Lower;
    var o, now, then_ := rest[0], s.stacks[t], stack + [Pass(rest[1..], s.gen, fini, false)];
    assert Pop(now) == stack;
    if fini && s.objs[o].refcount > 0 {
      Go(s, t, PassOver, s.(stacks := s.stacks[t := then_]));
    } else {
      var run := now + [Running(o)];
      var s1 := s.(objs := s.objs[o := s.objs[o].(initfinilock := t)], stacks := s.stacks[t := run]);
      Go(s, t, RunEnter, s1);
      assert Pop(run) == now && s1.objs[o := s.objs[o]] == s.objs && s.objs[o].(initfinilock := 0) == s.objs[o];
      Go(s1, t, RunExit, s.(stacks := s.stacks[t := then_]));
    }
  }

  /** The rest of a pass in which no other thread interferes. */
  lemma {:induction false} PassesRest(s: State, t: Lwp, stack: seq<Frame>, rest: seq<Id>, fini: bool)
    requires Reached(s) && 0 < t < |s.stacks| && s.lock == t && forall o :: o in rest ==> Passable(s.objs, fini, o)
    requires s.stacks[t] == stack + [Pass(rest, s.gen, fini, false)]
    ensures Reached(s.(stacks := s.stacks[t := stack]))
    decreases |rest|
  {
    hide Reached, Reaches, GiveUp, Raise, Lower;
    var s' := s.(stacks := s.stacks[t := stack]);
    if rest == [] {
      assert Pop(s.stacks[t]) == stack;
      Go(s, t, EndPass, s');
    } else {
      PassesOne(s, t, stack, rest, fini);
      var s1 := s.(stacks := s.stacks[t := stack + [Pass(rest[1..], s.gen, fini, false)]]);
      PassesRest(s1, t, stack, rest[1..], fini);
      assert s1.(stacks := s1.stacks[t := stack]) == s';
    }
  }

  /** A whole pass. */
  lemma Passes(s: State, t: Lwp, list: seq<Id>, fini: bool)
    requires Reached(s) && 0 < t < |s.stacks| && s.lock == t && !TopIsSweep(s.stacks[t])
    requires forall o :: o in list ==> Passable(s.objs, fini, o)
    ensures Reached(s)
  {
    hide Reached, Reaches, GiveUp, Raise, Lower;
    var stack := s.stacks[t];
    var s1 := s.(stacks := s.stacks[t := stack + [Pass(list, s.gen, fini, false)]]);
    forall i | 0 <= i < |list| ensures list[i] < |s.objs| && !s.objs[list[i]].freed { assert list[i] in list; }
    Go(s, t, StartPass(list, fini, false), s1);
    PassesRest(s1, t, stack, list, fini);
    assert s1.(stacks := s1.stacks[t := stack]) == s;
  }

  /** _rtld_init_dag reaches the end of a path. */
  lemma Joins(s: State, t: Lwp, p: seq<Id>, s': State)
    requires Reached(s) && 0 < t < |s.stacks| && s.lock == t && !TopIsSweep(s.stacks[t])
    requires IsPath(s.objs, p) && s.objs[p[0]].refcount > 0
    requires var ob := s.objs[p[0]];
             s' == s.(objs := s.objs[p[0] := ob.(dagmembers := ob.dagmembers + [p[|p| - 1]])])
    ensures Reached(s')
  {
    assert Reaches(s.objs, p[0], p[|p| - 1]);
    hide Reached, Reaches, IsPath, GiveUp, Raise, Lower;
    Go(s, t, JoinDag(p[0], p[|p| - 1]), s');
  }

  /** The DAG is dissolved, and the sweep begins. */
  lemma Dissolves(s: State, t: Lwp, close: Frame, s': State)
    requires Reached(s) && 0 < t < |s.stacks| && s.lock == t && s.stacks[t] == [close] && close.Closing?
    requires s' == s.(objs := s'.objs, stacks := s.stacks[t := [Sweeping({})]]) && s'.objs == Lower(s.objs, close)
    ensures Reached(s')
  {
    hide Reached, Reaches, GiveUp, Raise, Lower;
    assert Pop(s.stacks[t]) == [];
    Go(s, t, CloseDone, s');
  }

  /** The sweep unmaps o. */
  lemma Frees(s: State, t: Lwp, o: Id, s': State)
    requires Reached(s) && 0 < t < |s.stacks| && s.lock == t && s.stacks[t] == [Sweeping({})]
    requires o < |s.objs| && Sweepable(s.objs[o]) && s.objs[o].neededrefcount == 0
    requires s' == s.(objs := s.objs[o := s.objs[o].(freed := true)], stacks := s.stacks[t := [Sweeping({o})]])
    ensures Reached(s')
  {
    hide Reached, Reaches, GiveUp, Raise, Lower;
    assert {} + {o} == {o} && Pop(s.stacks[t]) == [];
    Go(s, t, Free(o), s');
  }

  /** The sweep waits for a loader of o. */
  lemma WaitsFor(s: State, t: Lwp, o: Id)
    requires Reached(s) && 0 < t < |s.stacks| && s.lock == t && TopIsSweep(s.stacks[t])
    requires o < |s.objs| && Sweepable(s.objs[o]) && s.objs[o].neededrefcount > 0
    ensures Reached(s.(lock := 0))
  {
    hide Reached, Reaches, GiveUp, Raise, Lower;
    Go(s, t, Release, s.(lock := 0));
  }

  // ---- the run -----------------------------------------------------------------------------------

  // Thread 4 opens and closes X.  Thread 2 opens A, then B, which needs C, which needs X, loaded
  // again as Y; it closes B.  Thread 3 opens A.  Thread 1 exits the process.
  const X: Id := 0
  const A: Id := 1
  const B: Id := 2
  const C: Id := 3
  const Y: Id := 4

  const OPEN: Obj := FRESH.(dlRefcount := 1)
  const X0: Obj := OPEN.(dagmembers := [X])
  const X1: Obj := X0.(refcount := 0, dlRefcount := 0)
  const A0: Obj := OPEN.(dagmembers := [A])
  const A1: Obj := A0.(refcount := 2, dlRefcount := 2)
  const A2: Obj := A1.(initfinilock := 1)
  const B0: Obj := OPEN.(needed := [C])
  const B1: Obj := B0.(dagmembers := [B, C, Y])
  const B2: Obj := B1.(refcount := 0, dlRefcount := 0)
  const C0: Obj := FRESH.(needed := [Y], neededrefcount := 1)
  const C1: Obj := C0.(refcount := 0)
  const Y1: Obj := FRESH.(refcount := 0)

  function S(lock: Lwp, gen: nat, objs: seq<Obj>, t1: seq<Frame>, t2: seq<Frame>, t3: seq<Frame>, t4: seq<Frame>): State
  {
    State(lock, gen, objs, [[], t1, t2, t3, t4])
  }

  lemma Starts(s: State)
    requires Init(s)
    ensures Reached(s)
  {
    assert IsRun([s]);
  }

  /** Thread 4 opens X. */
  lemma OpensX()
    ensures Reached(S(0, 1, [X0], [], [], [], []))
  {
    Starts(S(0, 0, [], [], [], [], []));
    hide Reached, Reaches, GiveUp, Raise, Lower;
    Takes(S(0, 0, [], [], [], [], []), 4);
    Go(S(4, 0, [], [], [], [], []), 4, Map(true), S(4, 1, [OPEN], [], [], [], []));
    LoadsPast(S(4, 1, [OPEN], [], [], [], []), 4, X);
    assert OPEN.dagmembers + [X] == [X];
    Joins(S(4, 1, [OPEN], [], [], [], []), 4, [X], S(4, 1, [X0], [], [], [], []));
    Passes(S(4, 1, [X0], [], [], [], []), 4, [X, X], false);
    Leaves(S(4, 1, [X0], [], [], [], []), 4);
  }

  /** Thread 2 opens A. */
  lemma OpensA()
    ensures Reached(S(0, 2, [X0, A0], [], [], [], []))
  {
    OpensX();
    hide Reached, Reaches, GiveUp, Raise, Lower;
    Takes(S(0, 1, [X0], [], [], [], []), 2);
    Go(S(2, 1, [X0], [], [], [], []), 2, Map(true), S(2, 2, [X0, OPEN], [], [], [], []));
    LoadsPast(S(2, 2, [X0, OPEN], [], [], [], []), 2, A);
    assert OPEN.dagmembers + [A] == [A];
    Joins(S(2, 2, [X0, OPEN], [], [], [], []), 2, [A], S(2, 2, [X0, A0], [], [], [], []));
    Passes(S(2, 2, [X0, A0], [], [], [], []), 2, [X, A, X, A], false);
    Leaves(S(2, 2, [X0, A0], [], [], [], []), 2);
  }

  const CLOSE: Frame := Closing(X, [X])
  const FINI: Frame := Pass([X, A, X, A], 2, true, false)
  const X2: Obj := X1.(dlclosing := 2, initfinilock := 4)

  lemma GivesUpX()
    ensures GiveUp([X0, A0], X) == [X1, A0] && Raise([X1, A0], CLOSE) == [X1.(dlclosing := 2), A0]
  {
    var x := X0.(dlRefcount := 0);
    assert [X0, A0][X := x] == [x, A0] && [x, A0][X := X1] == [X1, A0];
    assert [X][1..] == [] && X1.needed + [] == [];
    assert Unref([x, A0], [X]) == Unref([X1, A0], []) == [X1, A0];
    assert multiset([X] + [X])[X] == 2 && multiset([X] + [X])[A] == 0;
  }

  /** Thread 4 closes X and runs a destructor of it. */
  lemma ClosesX()
    ensures Reached(S(0, 2, [X2, A0], [], [], [], [CLOSE, FINI, Running(X)]))
  {
    OpensA();
    GivesUpX();
    hide Reached, Reaches, GiveUp, Raise, Lower;
    Takes(S(0, 2, [X0, A0], [], [], [], []), 4);
    var objs := [X1.(dlclosing := 2), A0];
    Go(S(4, 2, [X0, A0], [], [], [], []), 4, Unload(X), S(4, 2, objs, [], [], [], [CLOSE]));
    Go(S(4, 2, objs, [], [], [], [CLOSE]), 4, StartPass([X, A, X, A], true, false),
       S(4, 2, objs, [], [], [], [CLOSE, FINI]));
    Go(S(4, 2, objs, [], [], [], [CLOSE, FINI]), 4, RunEnter,
       S(4, 2, [X2, A0], [], [], [], [CLOSE, FINI, Running(X)]));
    Leaves(S(4, 2, [X2, A0], [], [], [], [CLOSE, FINI, Running(X)]), 4);
  }

  /** Thread 2 opens B, loads C for it, and, loading for C, waits for the destructors of X. */
  lemma OpensB()
    ensures Reached(S(0, 4, [X2, A0, B0, FRESH.(neededrefcount := 1)], [], [Loading(C)], [],
                      [CLOSE, FINI, Running(X)]))
  {
    ClosesX();
    hide Reached, Reaches, GiveUp, Raise, Lower;
    var f := [CLOSE, FINI, Running(X)];
    Takes(S(0, 2, [X2, A0], [], [], [], f), 2);
    Go(S(2, 2, [X2, A0], [], [], [], f), 2, Map(true), S(2, 3, [X2, A0, OPEN], [], [], [], f));
    var b := OPEN.(neededrefcount := 1);
    Go(S(2, 3, [X2, A0, OPEN], [], [], [], f), 2, LoadEnter(B), S(2, 3, [X2, A0, b], [], [Loading(B)], [], f));
    var b1 := B0.(neededrefcount := 1);
    assert b.needed + [C] == [C] && Bind([X2, A0, b] + [FRESH], B, C) == [X2, A0, b1, FRESH];
    Go(S(2, 3, [X2, A0, b], [], [Loading(B)], [], f), 2, MapNeeded,
       S(2, 4, [X2, A0, b1, FRESH], [], [Loading(B)], [], f));
    LoadsOn(f);
  }

  lemma LoadsOn(f: seq<Frame>)
    requires Reached(S(2, 4, [X2, A0, B0.(neededrefcount := 1), FRESH], [], [Loading(B)], [], f))
    ensures Reached(S(0, 4, [X2, A0, B0, FRESH.(neededrefcount := 1)], [], [Loading(C)], [], f))
  {
    hide Reached, Reaches, GiveUp, Raise, Lower;
    var s := S(2, 4, [X2, A0, B0, FRESH], [], [], [], f);
    Go(S(2, 4, [X2, A0, B0.(neededrefcount := 1), FRESH], [], [Loading(B)], [], f), 2, LoadExit, s);
    var s1 := S(2, 4, [X2, A0, B0, FRESH.(neededrefcount := 1)], [], [Loading(C)], [], f);
    Go(s, 2, LoadEnter(C), s1);
    Leaves(s1, 2);
  }

  /** Thread 3 opens A and goes through the objects behind it; at C it waits too. */
  lemma OpensAgain()
    ensures Reached(S(0, 4, [X2, A1, B0, FRESH.(neededrefcount := 2)], [], [Loading(C)], [Loading(C)],
                      [CLOSE, FINI, Running(X)]))
  {
    OpensB();
    hide Reached, Reaches, GiveUp, Raise, Lower;
    var l, f, c := [Loading(C)], [CLOSE, FINI, Running(X)], FRESH.(neededrefcount := 1);
    Takes(S(0, 4, [X2, A0, B0, c], [], l, [], f), 3);
    var s := S(3, 4, [X2, A1, B0, c], [], l, [], f);
    Go(S(3, 4, [X2, A0, B0, c], [], l, [], f), 3, Open(A), s);
    LoadsPast(s, 3, A);
    LoadsPast(s, 3, B);
    var s1 := S(3, 4, [X2, A1, B0, FRESH.(neededrefcount := 2)], [], l, l, f);
    Go(s, 3, LoadEnter(C), s1);
    Leaves(s1, 3);
  }

  /** Thread 4 ends the pass, which it has to restart. */
  lemma Restarts()
    ensures Reached(S(4, 4, [X1.(dlclosing := 2), A1, B0, FRESH.(neededrefcount := 2)], [], [Loading(C)], [Loading(C)],
                      [CLOSE]))
  {
    OpensAgain();
    hide Reached, Reaches, GiveUp, Raise, Lower;
    var l, c := [Loading(C)], FRESH.(neededrefcount := 2);
    var objs := [X1.(dlclosing := 2), A1, B0, c];
    Takes(S(0, 4, [X2, A1, B0, c], [], l, l, [CLOSE, FINI, Running(X)]), 4);
    assert Pop([CLOSE, FINI, Running(X)]) == [CLOSE, FINI] && Pop([CLOSE, FINI]) == [CLOSE];
    var s := S(4, 4, objs, [], l, l, [CLOSE, FINI]);
    Go(S(4, 4, [X2, A1, B0, c], [], l, l, [CLOSE, FINI, Running(X)]), 4, RunExit, s);
    var list := [X, A, B, C, X, A, B, C];
    var s1 := S(4, 4, objs, [], l, l, [CLOSE] + [Pass(list, 4, true, false)]);
    Go(s, 4, Restart(list), s1);
    PassesRest(s1, 4, [CLOSE], list, true);
    assert s1.(stacks := s1.stacks[4 := [CLOSE]]) == S(4, 4, objs, [], l, l, [CLOSE]);
  }

  const GONE: Obj := X1.(freed := true)

  lemma ClaimsX()
    ensures forall o: Id :: ClaimsOf(ToClose, CLOSE, o) == if o == X then 2 else 0
  {
    assert multiset([X] + [X]) == multiset{X, X};
  }

  lemma LowersX()
    ensures Lower([X1.(dlclosing := 2), A1, B0, FRESH.(neededrefcount := 2)], CLOSE) ==
            [X1, A1, B0, FRESH.(neededrefcount := 2)]
  {
    ClaimsX();
    hide ClaimsOf;
  }

  lemma DissolvesX()
    ensures Reached(S(4, 4, [X1, A1, B0, FRESH.(neededrefcount := 2)], [], [Loading(C)], [Loading(C)], [Sweeping({})]))
  {
    Restarts();
    LowersX();
    hide Reached, Reaches, GiveUp, Raise, Lower;
    var l, c := [Loading(C)], FRESH.(neededrefcount := 2);
    Dissolves(S(4, 4, [X1.(dlclosing := 2), A1, B0, c], [], l, l, [CLOSE]), 4, CLOSE,
              S(4, 4, [X1, A1, B0, c], [], l, l, [Sweeping({})]));
  }

  /** It unmaps X. */
  lemma FreesX()
    ensures Reached(S(0, 5, [GONE, A1, B0, FRESH.(neededrefcount := 2)], [], [Loading(C)], [Loading(C)], []))
  {
    DissolvesX();
    hide Reached, Reaches, GiveUp, Raise, Lower;
    var l, c := [Loading(C)], FRESH.(neededrefcount := 2);
    var s := S(4, 4, [GONE, A1, B0, c], [], l, l, [Sweeping({X})]);
    Frees(S(4, 4, [X1, A1, B0, c], [], l, l, [Sweeping({})]), 4, X, s);
    Swept(s);
  }

  lemma Swept(s: State)
    requires s == S(4, 4, [GONE, A1, B0, FRESH.(neededrefcount := 2)], [], [Loading(C)], [Loading(C)], [Sweeping({X})])
    requires Reached(s)
    ensures Reached(S(0, 5, s.objs, [], [Loading(C)], [Loading(C)], []))
  {
    hide Reached, Reaches, GiveUp, Raise, Lower;
    var s1 := S(4, 5, s.objs, [], [Loading(C)], [Loading(C)], []);
    Go(s, 4, Bump, s1);
    Leaves(s1, 4);
  }

  /** Thread 2 loads X again for C and gets past the load loop. */
  lemma LoadsY()
    ensures Reached(S(2, 6, [GONE, A1, B0, C0, FRESH], [], [], [Loading(C)], []))
  {
    FreesX();
    hide Reached, Reaches, GiveUp, Raise, Lower;
    var l, c := [Loading(C)], FRESH.(neededrefcount := 2);
    Takes(S(0, 5, [GONE, A1, B0, c], [], l, l, []), 2);
    var c1 := C0.(neededrefcount := 2);
    assert c.needed + [Y] == [Y] && Bind([GONE, A1, B0, c] + [FRESH], C, Y) == [GONE, A1, B0, c1, FRESH];
    Go(S(2, 5, [GONE, A1, B0, c], [], l, l, []), 2, MapNeeded, S(2, 6, [GONE, A1, B0, c1, FRESH], [], l, l, []));
    var s := S(2, 6, [GONE, A1, B0, C0, FRESH], [], [], l, []);
    Go(S(2, 6, [GONE, A1, B0, c1, FRESH], [], l, l, []), 2, LoadExit, s);
    LoadsPast(s, 2, Y);
  }

  /** Its DAG. */
  lemma JoinsC()
    ensures Reached(S(2, 6, [GONE, A1, B0.(dagmembers := [B, C]), C0, FRESH], [], [], [Loading(C)], []))
  {
    LoadsY();
    hide Reached, Reaches, GiveUp, Raise, Lower;
    var l, b := [Loading(C)], B0.(dagmembers := [B]);
    assert B0.dagmembers + [B] == [B] && [B] + [C] == [B, C];
    var s := S(2, 6, [GONE, A1, b, C0, FRESH], [], [], l, []);
    Joins(S(2, 6, [GONE, A1, B0, C0, FRESH], [], [], l, []), 2, [B], s);
    Joins(s, 2, [B, C], S(2, 6, [GONE, A1, B0.(dagmembers := [B, C]), C0, FRESH], [], [], l, []));
  }

  lemma JoinsY()
    ensures Reached(S(2, 6, [GONE, A1, B1, C0, FRESH], [], [], [Loading(C)], []))
  {
    JoinsC();
    hide Reached, Reaches, GiveUp, Raise, Lower;
    var l, b := [Loading(C)], B0.(dagmembers := [B, C]);
    assert [B, C] + [Y] == [B, C, Y];
    Joins(S(2, 6, [GONE, A1, b, C0, FRESH], [], [], l, []), 2, [B, C, Y],
          S(2, 6, [GONE, A1, B1, C0, FRESH], [], [], l, []));
  }

  /** It returns from dlopen. */
  lemma OpenedB()
    ensures Reached(S(0, 6, [GONE, A1, B1, C0, FRESH], [], [], [Loading(C)], []))
  {
    JoinsY();
    hide Reached, Reaches, GiveUp, Raise, Lower;
    var s := S(2, 6, [GONE, A1, B1, C0, FRESH], [], [], [Loading(C)], []);
    Passes(s, 2, [A, Y, C, B, A, Y, C, B], false);
    Leaves(s, 2);
  }

  const EXIT: Frame := Pass([A, B, C, Y, A, B, C, Y], 6, true, true)

  /** Thread 1 exits the process and runs a destructor of A. */
  lemma Exits()
    ensures Reached(S(0, 6, [GONE, A2, B1, C0, FRESH], [EXIT, Running(A)], [], [Loading(C)], []))
  {
    OpenedB();
    hide Reached, Reaches, GiveUp, Raise, Lower;
    var l := [Loading(C)];
    Takes(S(0, 6, [GONE, A1, B1, C0, FRESH], [], [], l, []), 1);
    var s := S(1, 6, [GONE, A1, B1, C0, FRESH], [EXIT], [], l, []);
    Go(S(1, 6, [GONE, A1, B1, C0, FRESH], [], [], l, []), 1, StartPass([A, B, C, Y, A, B, C, Y], true, true), s);
    var s1 := S(1, 6, [GONE, A2, B1, C0, FRESH], [EXIT, Running(A)], [], l, []);
    Go(s, 1, RunEnter, s1);
    Leaves(s1, 1);
  }

  /** The last reference to B goes, with it the one to C, and with that the one to Y. */
  lemma GivesUpB()
    ensures GiveUp([GONE, A2, B1, C0, FRESH], B) == [GONE, A2, B2, C1, Y1]
  {
    var b := B1.(dlRefcount := 0);
    var o1, o2, o3 := [GONE, A2, b, C0, FRESH], [GONE, A2, B2, C0, FRESH], [GONE, A2, B2, C1, FRESH];
    assert [GONE, A2, B1, C0, FRESH][B := b] == o1 && o1[B := B2] == o2 && o2[C := C1] == o3;
    assert o3[Y := Y1] == [GONE, A2, B2, C1, Y1];
    assert [B][1..] == [] && B2.needed + [] == [C] && [C][1..] == [] && C1.needed + [] == [Y] && [Y][1..] == [];
    assert Y1.needed + [] == [];
    assert Unref(o3, [Y]) == Unref([GONE, A2, B2, C1, Y1], []) == [GONE, A2, B2, C1, Y1];
    assert Unref(o2, [C]) == Unref(o3, [Y]);
    assert Unref(o1, [B]) == Unref(o2, [C]);
  }

  const CLOSEB: Frame := Closing(B, [B, C, Y])

  lemma ClaimsB()
    ensures forall o: Id ::
              ClaimsOf(ToClose, CLOSEB, o) == if o == B then 2 else if o == C || o == Y then 1 else 0
  {
    assert multiset([B] + [B, C, Y]) == multiset{B, B, C, Y};
  }

  lemma RaisesB()
    ensures var up := [GONE, A2, B2.(dlclosing := 2), C1.(dlclosing := 1), Y1.(dlclosing := 1)];
            Raise([GONE, A2, B2, C1, Y1], CLOSEB) == up && Lower(up, CLOSEB) == [GONE, A2, B2, C1, Y1]
  {
    ClaimsB();
    hide ClaimsOf;
  }

  /** Thread 2 closes B, with its own destructors run, up to the sweep. */
  lemma ClosesB()
    ensures Reached(S(2, 6, [GONE, A2, B2, C1, Y1], [EXIT, Running(A)], [Sweeping({})], [Loading(C)], []))
  {
    Exits();
    GivesUpB();
    RaisesB();
    hide Reached, Reaches, GiveUp, Raise, Lower;
    var f, l := [EXIT, Running(A)], [Loading(C)];
    Takes(S(0, 6, [GONE, A2, B1, C0, FRESH], f, [], l, []), 2);
    var s := S(2, 6, [GONE, A2, B2.(dlclosing := 2), C1.(dlclosing := 1), Y1.(dlclosing := 1)], f, [CLOSEB], l, []);
    Go(S(2, 6, [GONE, A2, B1, C0, FRESH], f, [], l, []), 2, Unload(B), s);
    Passes(s, 2, [A, B, C, Y, A, B, C, Y], true);
    Dissolves(s, 2, CLOSEB, S(2, 6, [GONE, A2, B2, C1, Y1], f, [Sweeping({})], l, []));
  }

  /** It unmaps B and waits for the loader of C before it can move the generation. */
  lemma Waits()
    ensures Reached(S(0, 6, [GONE, A2, B2.(freed := true), C1, Y1], [EXIT, Running(A)], [Sweeping({B})], [Loading(C)],
                      []))
  {
    ClosesB();
    hide Reached, Reaches, GiveUp, Raise, Lower;
    var f, l := [EXIT, Running(A)], [Loading(C)];
    var s := S(2, 6, [GONE, A2, B2.(freed := true), C1, Y1], f, [Sweeping({B})], l, []);
    Frees(S(2, 6, [GONE, A2, B2, C1, Y1], f, [Sweeping({})], l, []), 2, B, s);
    WaitsFor(s, 2, C);
  }

  /** The destructor of A returns, and the generation is what it was. */
  lemma Returns()
    ensures Reached(S(1, 6, [GONE, A1, B2.(freed := true), C1, Y1], [EXIT.(rest := EXIT.rest[1..])], [Sweeping({B})],
                      [Loading(C)], []))
  {
    Waits();
    hide Reached, Reaches, GiveUp, Raise, Lower;
    var w, l, b := [Sweeping({B})], [Loading(C)], B2.(freed := true);
    Takes(S(0, 6, [GONE, A2, b, C1, Y1], [EXIT, Running(A)], w, l, []), 1);
    assert Pop([EXIT, Running(A)]) == [EXIT] && Pop([EXIT]) == [];
    Go(S(1, 6, [GONE, A2, b, C1, Y1], [EXIT, Running(A)], w, l, []), 1, RunExit,
       S(1, 6, [GONE, A1, b, C1, Y1], [EXIT.(rest := EXIT.rest[1..])], w, l, []));
  }

  /** So thread 1 enters B. */
  lemma Enters() returns (s: State)
    ensures Reached(s) && |s.stacks| > 1 && s.stacks[1] == [EXIT.(rest := EXIT.rest[1..]), Running(B)] &&
            |s.objs| > B && s.objs[B].freed
  {
    Returns();
    hide Reached, Reaches, GiveUp, Raise, Lower;
    var w, l, b, pass := [Sweeping({B})], [Loading(C)], B2.(freed := true), EXIT.(rest := EXIT.rest[1..]);
    s := S(1, 6, [GONE, A1, b.(initfinilock := 1), C1, Y1], [pass, Running(B)], w, l, []);
    Go(S(1, 6, [GONE, A1, b, C1, Y1], [pass], w, l, []), 1, RunEnter, s);
  }

  /**
   So _rtld_initfini_enter can claim a freed object: neither its test of initfinilock nor its
   caller's test of the generation excludes that.
   */
  lemma FreedIsEntered() returns (run: seq<State>)
    ensures IsRun(run) && |run[|run| - 1].stacks| > 1 && |run[|run| - 1].objs| > B
    ensures Held(ToRun, run[|run| - 1].stacks[1], B) > 0 && run[|run| - 1].objs[B].freed
  {
    var s := Enters();
    HeldAt(s.stacks[1], 1, B);
    run :| IsRun(run) && run[|run| - 1] == s;
  }
}

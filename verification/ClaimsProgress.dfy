/**
 What the steps of Claims do and that nothing is refused: which objects a pass enters or passes
 over, what a sweep leaves, which counts a step moves, and that a thread that holds the lock can
 always go on, so that the safety theorems do not hold for want of runs.
 */
module ClaimsProgress {
  import opened Claims

  /** Thread t can do a next. */
  ghost predicate Can(s: State, t: Lwp, a: Action) {
    0 < t < |s.stacks| && s.lock == (if a.Acquire? then 0 else t) && Enabled(s.objs, s.gen, t, s.stacks[t], a)
  }

  lemma CanStep(s: State, t: Lwp, a: Action) returns (s': State)
    requires Can(s, t, a)
    ensures StepOf(s, t, a, s')
  {
    s' := State(if a.Release? then 0 else t, NewGen(s.gen, a), NewObjs(s.objs, s.gen, t, s.stacks[t], a),
                s.stacks[t := NewStack(s.objs, s.gen, t, s.stacks[t], a)]);
  }

  // ---- passes -------------------------------------------------------------------------------------

  /**
   A pass of destructors enters only objects that nobody uses, unless forced, and passes over only
   objects in use; a pass of constructors enters only objects in use.  What it enters nobody else
   is inside, and it ends when no object is left.
   */
  lemma PassesEnterRight(run: seq<State>, i: nat, t: Lwp, a: Action)
    requires IsRun(run) && i + 1 < |run| && StepOf(run[i], t, a, run[i + 1])
    requires a.RunEnter? || a.PassOver? || a.EndPass?
    ensures TopIsPass(run[i].stacks[t])
    ensures var pass, objs := Top(run[i].stacks[t]), run[i].objs;
            if a.EndPass? then pass.rest == []
            else
              pass.rest != [] && pass.gen == run[i].gen && pass.rest[0] < |objs| &&
              var inUse := objs[pass.rest[0]].refcount > 0;
              if a.PassOver? then pass.fini && !pass.force && inUse
              else objs[pass.rest[0]].initfinilock == 0 && (if pass.fini then pass.force || !inUse else inUse)
  {
    hide IsRun, NewObjs, NewStack;
  }

  /** ... and at its next object it can do one of the two, or has to wait for whoever is inside. */
  lemma PassGoesOn(run: seq<State>, i: nat, t: Lwp)
    requires IsRun(run) && i < |run| && 0 < t < |run[i].stacks| && run[i].lock == t && TopIsPass(run[i].stacks[t])
    ensures var pass, s := Top(run[i].stacks[t]), run[i];
            if pass.rest == [] then Can(s, t, EndPass)
            else
              pass.rest[0] < |s.objs| &&
              var ob := s.objs[pass.rest[0]];
              pass.gen == s.gen ==>
                if pass.fini && !pass.force && ob.refcount > 0 then Can(s, t, PassOver)
                else ob.initfinilock == 0 && (pass.fini || ob.refcount > 0) ==> Can(s, t, RunEnter)
  {
    RunInv(run, i);
    var s := run[i];
    assert PassOk(s, s.stacks[t][|s.stacks[t]| - 1]);
    assert Top(s.stacks[t]).rest != [] ==> Top(s.stacks[t]).rest[0] in Top(s.stacks[t]).rest;
    hide Inv;
  }

  /** Functions are run on behalf of a pass. */
  ghost predicate OnPasses(s: State) {
    forall t: Lwp, d: nat :: t < |s.stacks| && d < |s.stacks[t]| && s.stacks[t][d].Running? ==>
      d > 0 && s.stacks[t][d - 1].Pass?
  }

  lemma OnPassesStep(s: State, u: Lwp, a: Action, s': State, t: Lwp, d: nat)
    requires OnPasses(s) && StepOf(s, u, a, s') && t < |s'.stacks| && d < |s'.stacks[t]| && s'.stacks[t][d].Running?
    ensures d > 0 && s'.stacks[t][d - 1].Pass?
  {
    hide NewObjs, Reaches, GiveUp, Sweepable;
  }

  lemma {:induction false} RunOnPasses(run: seq<State>, i: nat)
    requires IsRun(run) && i < |run|
    ensures OnPasses(run[i])
  {
    if i > 0 {
      hide StepOf;
      RunOnPasses(run, i - 1);
      assert StepAt(run, i - 1);
      var u: Lwp, a :| StepOf(run[i - 1], u, a, run[i]);
      forall t: Lwp, d: nat | t < |run[i].stacks| && d < |run[i].stacks[t]| && run[i].stacks[t][d].Running?
        ensures d > 0 && run[i].stacks[t][d - 1].Pass?
      {
        OnPassesStep(run[i - 1], u, a, run[i], t, d);
      }
    }
  }

  /** Whoever runs functions of an object, loads for one or closes one can finish. */
  lemma WorkGoesOn(run: seq<State>, i: nat, t: Lwp)
    requires IsRun(run) && i < |run| && 0 < t < |run[i].stacks| && run[i].lock == t && run[i].stacks[t] != []
    ensures var top := Top(run[i].stacks[t]);
            && (top.Running? ==> Can(run[i], t, RunExit))
            && (top.Closing? ==> Can(run[i], t, CloseDone))
            && (top.Loading? ==> Can(run[i], t, LoadExit) && Can(run[i], t, MapNeeded))
            && (top.Loading? ==>
                  forall n: Id :: n < |run[i].objs| && run[i].objs[n].refcount > 0 ==> Can(run[i], t, BindNeeded(n)))
  {
    var s := run[i];
    var stack := s.stacks[t];
    var d := |stack| - 1;
    RunInv(run, i);
    RunOnPasses(run, i);
    if stack[d].Running? {
      HeldAt(stack, d, stack[d].o);
      ClaimsInRange(run, i, t, ToRun, stack[d].o);
    }
    if stack[d].Loading? {
      assert Held(ToLoad, stack, stack[d].o) > 0;
      ClaimsInRange(run, i, t, ToLoad, stack[d].o);
      AllHeldUpdate(ToLoad, s.stacks, t, [], stack[d].o);
      assert Exact(ToLoad, s);
    }
    hide Inv, IsRun, OnPasses;
  }

  // ---- sweeps -------------------------------------------------------------------------------------

  /** When a sweep is over, every object without references was freed, or is being closed or run by somebody. */
  lemma SweepLeavesNothing(run: seq<State>, i: nat, t: Lwp)
    requires IsRun(run) && i + 1 < |run| && StepOf(run[i], t, Bump, run[i + 1])
    ensures var objs := run[i + 1].objs;
            forall o: Id :: o < |objs| && !objs[o].freed && objs[o].refcount == 0 ==>
              objs[o].dlclosing > 0 || objs[o].initfinilock != 0
  {
    hide IsRun;
  }

  /** A sweep can free such an object, has to wait if somebody loads for it, and is over when there is none. */
  lemma SweepGoesOn(run: seq<State>, i: nat, t: Lwp)
    requires IsRun(run) && i < |run| && 0 < t < |run[i].stacks| && run[i].lock == t && TopIsSweep(run[i].stacks[t])
    ensures var s := run[i];
            && (forall o: Id ::
                  o < |s.objs| && !s.objs[o].freed && s.objs[o].refcount == 0 && s.objs[o].dlclosing == 0 &&
                  s.objs[o].initfinilock == 0 ==>
                    if s.objs[o].neededrefcount == 0 then Can(s, t, Free(o)) else Can(s, t, Release))
            && ((forall o: Id ::
                   o < |s.objs| && !s.objs[o].freed && s.objs[o].refcount == 0 ==>
                     s.objs[o].dlclosing > 0 || s.objs[o].initfinilock != 0) ==> Can(s, t, Bump))
  {
    hide IsRun;
  }

  /** A sweep drops the lock only to wait for somebody who loads for an object that it has to free. */
  lemma SweepWaitsFor(run: seq<State>, i: nat, t: Lwp) returns (o: Id)
    requires IsRun(run) && i + 1 < |run| && StepOf(run[i], t, Release, run[i + 1]) && TopIsSweep(run[i].stacks[t])
    ensures o < |run[i].objs| && !run[i].objs[o].freed && run[i].objs[o].refcount == 0 &&
            run[i].objs[o].neededrefcount > 0
  {
    o :| o < |run[i].objs| && Sweepable(run[i].objs[o]) && run[i].objs[o].neededrefcount > 0;
  }

  // ---- references ---------------------------------------------------------------------------------

  /** Between sweeps, whatever is in use can be referenced, opened, loaded for and joined, and a handle closed. */
  lemma InUseIsUsable(run: seq<State>, i: nat, t: Lwp)
    requires IsRun(run) && i < |run| && 0 < t < |run[i].stacks| && !TopIsSweep(run[i].stacks[t])
    ensures run[i].lock == 0 ==> Can(run[i], t, Acquire)
    ensures run[i].lock == t ==>
              && Can(run[i], t, Release) && Can(run[i], t, Map(true)) && Can(run[i], t, Map(false))
              && (forall o: Id :: o < |run[i].objs| && run[i].objs[o].refcount > 0 ==>
                    Can(run[i], t, Reference(o)) && Can(run[i], t, Open(o)) && Can(run[i], t, LoadEnter(o)))
              && (forall o: Id, m: Id ::
                    o < |run[i].objs| && run[i].objs[o].refcount > 0 && m < |run[i].objs| ==>
                      (Reaches(run[i].objs, o, m) ==> Can(run[i], t, JoinDag(o, m))))
              && (forall o: Id :: o < |run[i].objs| && run[i].objs[o].dlRefcount > 0 ==> Can(run[i], t, Unload(o)))
  {
    hide IsRun, Reaches;
  }

  /** ... and a pass over any objects that are allocated can be started, or restarted. */
  lemma PassesStart(run: seq<State>, i: nat, t: Lwp, list: seq<Id>, fini: bool, force: bool)
    requires IsRun(run) && i < |run| && 0 < t < |run[i].stacks| && run[i].lock == t && !TopIsSweep(run[i].stacks[t])
    requires forall o :: o in list ==> o < |run[i].objs| && !run[i].objs[o].freed
    ensures Can(run[i], t, StartPass(list, fini, force))
    ensures TopIsPass(run[i].stacks[t]) ==> Can(run[i], t, Restart(list))
  {
    hide IsRun;
    forall k | 0 <= k < |list| ensures list[k] < |run[i].objs| && !run[i].objs[list[k]].freed {
      assert list[k] in list;
    }
  }

  /** A step gives at most one reference, to the object that it refers to or makes; only closing a handle takes any. */
  lemma CountsMove(run: seq<State>, i: nat, t: Lwp, a: Action, o: Id)
    requires IsRun(run) && i + 1 < |run| && StepOf(run[i], t, a, run[i + 1]) && o < |run[i].objs|
    ensures o < |run[i + 1].objs|
    ensures var ob, ob' := run[i].objs[o], run[i + 1].objs[o];
            if a == Open(o) then ob'.refcount == ob.refcount + 1 && ob'.dlRefcount == ob.dlRefcount + 1
            else if a == Reference(o) || a == BindNeeded(o) then
              ob'.refcount == ob.refcount + 1 && ob'.dlRefcount == ob.dlRefcount
            else if a.Unload? then
              ob'.refcount <= ob.refcount && ob'.dlRefcount == ob.dlRefcount - if a.root == o then 1 else 0
            else ob'.refcount == ob.refcount && ob'.dlRefcount == ob.dlRefcount
    ensures a.Map? || a.MapNeeded? ==>
              && |run[i + 1].objs| == |run[i].objs| + 1 && run[i + 1].objs[|run[i].objs|].refcount == 1
              && run[i + 1].objs[|run[i].objs|].dlRefcount == (if a == Map(true) then 1 else 0)
  {
    hide IsRun, NewStack;
    if a.Unload? { GivesUpOne(run[i].objs, a.root, o); }
  }

  lemma GivesUpOne(objs: seq<Obj>, root: Id, o: Id)
    requires root < |objs| && objs[root].dlRefcount > 0 && o < |objs|
    ensures GiveUp(objs, root)[o].refcount <= objs[o].refcount
    ensures GiveUp(objs, root)[o].dlRefcount == objs[o].dlRefcount - if root == o then 1 else 0
  {}
}

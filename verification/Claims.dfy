/**
 Claims on objects: what keeps an object allocated while a thread that works on it has dropped
 the linker's exclusive lock.  A thread claims an object by `dlclosing` (it is unloading it),
 `initfinilock` (it runs its init or fini functions) or `neededrefcount` (it is loading what
 the object needs).  Threads run concurrently; what a thread does without dropping the lock is
 one step or several, and it may drop and retake the lock between any two of them.
 */
module Claims {

  type Id = nat                         // an object; ids are never used again
  type Lwp = nat                        // a thread; 0 is nobody

  datatype Obj = Obj(freed: bool, refcount: nat, dlRefcount: nat,
                     dlclosing: nat, initfinilock: Lwp, neededrefcount: nat,
                     needed: seq<Id>, dagmembers: seq<Id>)

  /** What a thread is in the middle of; init and fini functions may call dlopen or dlclose again. */
  datatype Frame =
    | Closing(root: Id, members: seq<Id>)      // in _rtld_unload_object, dlclosing raised
    | Sweeping(unmapped: set<Id>)              // in its sweep, having unmapped these; the generation is yet to move
    | Pass(rest: seq<Id>, gen: nat, fini: bool, force: bool)   // an init or fini pass with these objects to come
    | Running(o: Id)                           // between _rtld_initfini_enter and _rtld_initfini_exit
    | Loading(o: Id)                           // between _rtld_load_needed_enter and _rtld_load_needed_exit

  /** gen is _rtld_objgen. */
  datatype State = State(lock: Lwp, gen: nat, objs: seq<Obj>, stacks: seq<seq<Frame>>)

  datatype Action =
    | Acquire | Release
    | Map(handle: bool)                        // a new object with its first reference, perhaps a handle
    | MapNeeded                                // a new object, bound to an entry of the object being loaded
    | Reference(o: Id)                         // one more reference to an object in use
    | Open(o: Id)                              // a reference that is an open handle
    | BindNeeded(n: Id)                        // an entry of the object being loaded is bound to n
    | JoinDag(root: Id, m: Id)                 // _rtld_init_dag reaches m from root
    | Unload(root: Id)                         // a handle is given up: _rtld_unref_dag, and dlclosing raised
    | CloseDone                                // the DAG is dissolved, dlclosing lowered, the sweep begins
    | Free(o: Id)                              // the sweep unmaps o
    | Bump                                     // the sweep is over
    | LoadEnter(o: Id) | LoadExit
    | StartPass(list: seq<Id>, fini: bool, force: bool)        // over the sorted object list
    | Restart(list: seq<Id>)
    | PassOver                                 // fini pass: the next object is in use
    | RunEnter | RunExit                       // for the next object of the pass
    | EndPass

  // ---- references ---------------------------------------------------------------------------

  /** Needed entries naming o in an object, if that object is in use. */
  function EdgesOf(ob: Obj, o: Id): nat { if ob.refcount > 0 then multiset(ob.needed)[o] else 0 }

  /** Needed entries naming o in objects that are in use. */
  function LiveEdges(objs: seq<Obj>, o: Id): nat {
    if objs == [] then 0 else LiveEdges(objs[..|objs| - 1], o) + EdgesOf(objs[|objs| - 1], o)
  }

  /** Every open handle and every needed entry of an object in use is backed by a reference. */
  ghost predicate Backed(objs: seq<Obj>) {
    forall o: Id :: o < |objs| ==> objs[o].refcount >= objs[o].dlRefcount + LiveEdges(objs, o)
  }

  ghost predicate IsPath(objs: seq<Obj>, p: seq<Id>) {
    && p != [] && (forall i :: 0 <= i < |p| ==> p[i] < |objs|)
    && (forall i :: 0 < i < |p| ==> p[i] in objs[p[i - 1]].needed)
  }

  /** m is root or reached from it through needed entries. */
  ghost predicate Reaches(objs: seq<Obj>, root: Id, m: Id) {
    exists p :: IsPath(objs, p) && p[0] == root && p[|p| - 1] == m
  }

  function TotalRefs(objs: seq<Obj>): nat {
    if objs == [] then 0 else TotalRefs(objs[..|objs| - 1]) + objs[|objs| - 1].refcount
  }

  lemma {:induction false} TotalDrops(objs: seq<Obj>, o: Id)
    requires o < |objs| && objs[o].refcount > 0
    ensures TotalRefs(objs[o := objs[o].(refcount := objs[o].refcount - 1)]) < TotalRefs(objs)
  {
    var n := |objs| - 1;
    var ob := objs[o].(refcount := objs[o].refcount - 1);
    if o == n {
      assert objs[o := ob][..n] == objs[..n];
    } else {
      assert objs[o := ob][..n] == objs[..n][o := ob];
      TotalDrops(objs[..n], o);
    }
  }

  /**
   _rtld_unref_dag for each pending reference in turn; an object whose count reaches zero puts
   its needed entries in front.  (The code never sees a zero count here: UnrefNeverAtZero.)
   */
  function Unref(objs: seq<Obj>, pending: seq<Id>): (r: seq<Obj>)
    ensures |r| == |objs| &&
            forall i ::
              0 <= i < |objs| ==> r[i] == objs[i].(refcount := r[i].refcount) && r[i].refcount <= objs[i].refcount
    decreases TotalRefs(objs), |pending|
  {
    if pending == [] then objs
    else
      var o := pending[0];
      if o >= |objs| || objs[o].refcount == 0 then Unref(objs, pending[1..])
      else
        var ob := objs[o].(refcount := objs[o].refcount - 1);
        TotalDrops(objs, o);
        Unref(objs[o := ob], (if ob.refcount == 0 then ob.needed else []) + pending[1..])
  }

  /** dlclose up to the point where dlclosing is raised. */
  function GiveUp(objs: seq<Obj>, root: Id): (r: seq<Obj>)
    requires root < |objs| && objs[root].dlRefcount > 0
    ensures |r| == |objs| && forall i :: 0 <= i < |objs| ==>
              r[i].refcount <= objs[i].refcount &&
              r[i] == objs[i].(refcount := r[i].refcount, dlRefcount := r[i].dlRefcount)
  {
    Unref(objs[root := objs[root].(dlRefcount := objs[root].dlRefcount - 1)], [root])
  }

  ghost predicate BackedAt(objs: seq<Obj>, pending: seq<Id>, o: Id)
    requires o < |objs|
  {
    objs[o].refcount >= objs[o].dlRefcount + LiveEdges(objs, o) + multiset(pending)[o]
  }

  /** References that are still to be dropped are backed too. */
  ghost predicate BackedBut(objs: seq<Obj>, pending: seq<Id>) {
    && (forall o: Id :: o < |objs| ==> BackedAt(objs, pending, o))
    && (forall i :: 0 <= i < |pending| ==> pending[i] < |objs|)
  }

  /** A reference still to be dropped is to an object in use: _rtld_unref_dag never lowers a zero. */
  lemma UnrefNeverAtZero(objs: seq<Obj>, pending: seq<Id>)
    requires BackedBut(objs, pending) && pending != []
    ensures pending[0] < |objs| && objs[pending[0]].refcount > 0
  {
    assert BackedAt(objs, pending, pending[0]) && pending[0] in multiset(pending);
  }

  /** An object whose count reaches zero turns its needed entries into pending references. */
  lemma UnrefStepAt(objs: seq<Obj>, pending: seq<Id>, ob: Obj, o: Id)
    requires BackedBut(objs, pending) && pending != [] && pending[0] < |objs| && objs[pending[0]].refcount > 0 &&
             o < |objs|
    requires ob == objs[pending[0]].(refcount := objs[pending[0]].refcount - 1)
    ensures BackedAt(objs[pending[0] := ob], (if ob.refcount == 0 then ob.needed else []) + pending[1..], o)
  {
    hide LiveEdges;
    assert BackedAt(objs, pending, o);
    var x := pending[0];
    var more := if ob.refcount == 0 then ob.needed else [];
    assert pending == [x] + pending[1..];
    LiveEdgesUpdate(objs, x, ob, o);
    assert multiset(more + pending[1..])[o] == multiset(more)[o] + multiset(pending[1..])[o];
    assert multiset(pending)[o] == multiset{x}[o] + multiset(pending[1..])[o];
  }

  lemma UnrefStep(objs: seq<Obj>, pending: seq<Id>, ob: Obj)
    requires BackedBut(objs, pending) && EntriesKnown(objs) && pending != [] && pending[0] < |objs| &&
             objs[pending[0]].refcount > 0
    requires ob == objs[pending[0]].(refcount := objs[pending[0]].refcount - 1)
    ensures BackedBut(objs[pending[0] := ob], (if ob.refcount == 0 then ob.needed else []) + pending[1..]) &&
            EntriesKnown(objs[pending[0] := ob])
  {
    hide BackedAt;
    var more := if ob.refcount == 0 then ob.needed else [];
    var objs', pending' := objs[pending[0] := ob], more + pending[1..];
    forall o: Id | o < |objs'| ensures BackedAt(objs', pending', o) { UnrefStepAt(objs, pending, ob, o); }
    forall i | 0 <= i < |pending'| ensures pending'[i] < |objs'| {
      if i < |more| {
        assert more[i] in objs[pending[0]].needed;
      } else {
        assert pending'[i] == pending[i - |more| + 1];
      }
    }
  }

  /** Dropping the pending references leaves everything backed. */
  lemma {:induction false} UnrefBacked(objs: seq<Obj>, pending: seq<Id>)
    requires BackedBut(objs, pending) && EntriesKnown(objs)
    ensures Backed(Unref(objs, pending))
    decreases TotalRefs(objs), |pending|
  {
    if pending == [] {
      NothingPending(objs);
    } else {
      UnrefNeverAtZero(objs, pending);
      var ob := objs[pending[0]].(refcount := objs[pending[0]].refcount - 1);
      UnrefStep(objs, pending, ob);
      TotalDrops(objs, pending[0]);
      hide BackedBut, EntriesKnown, Backed;
      UnrefBacked(objs[pending[0] := ob], (if ob.refcount == 0 then ob.needed else []) + pending[1..]);
    }
  }

  lemma GiveUpBacked(objs: seq<Obj>, root: Id)
    requires Backed(objs) && EntriesKnown(objs) && root < |objs| && objs[root].dlRefcount > 0
    ensures Backed(GiveUp(objs, root))
  {
    var ob := objs[root].(dlRefcount := objs[root].dlRefcount - 1);
    var objs', pending := objs[root := ob], [root];
    forall o: Id | o < |objs'| ensures BackedAt(objs', pending, o) { LiveEdgesUpdate(objs, root, ob, o); }
    UnrefBacked(objs', pending);
  }

  // ---- claims -------------------------------------------------------------------------------

  datatype Kind = ToClose | ToRun | ToLoad

  /** How often a frame claims o. */
  function ClaimsOf(kind: Kind, f: Frame, o: Id): nat {
    match f
    case Closing(root, members) => if kind.ToClose? then multiset([root] + members)[o] else 0
    case Running(x) => if kind.ToRun? && x == o then 1 else 0
    case Loading(x) => if kind.ToLoad? && x == o then 1 else 0
    case _ => 0
  }

  /** The claims of one thread on o. */
  function Held(kind: Kind, stack: seq<Frame>, o: Id): nat {
    if stack == [] then 0 else Held(kind, stack[..|stack| - 1], o) + ClaimsOf(kind, stack[|stack| - 1], o)
  }

  /** The claims of all threads on o. */
  function AllHeld(kind: Kind, stacks: seq<seq<Frame>>, o: Id): nat {
    if stacks == [] then 0 else AllHeld(kind, stacks[..|stacks| - 1], o) + Held(kind, stacks[|stacks| - 1], o)
  }

  /** What the object itself records of a kind of claim. */
  function Recorded(kind: Kind, ob: Obj): nat {
    match kind
    case ToClose => ob.dlclosing
    case ToRun => if ob.initfinilock != 0 then 1 else 0
    case ToLoad => ob.neededrefcount
  }

  function Raise(objs: seq<Obj>, claim: Frame): seq<Obj> {
    seq(|objs|, i requires 0 <= i < |objs| => objs[i].(dlclosing := objs[i].dlclosing + ClaimsOf(ToClose, claim, i)))
  }

  function Lower(objs: seq<Obj>, claim: Frame): seq<Obj> {
    seq(|objs|, i requires 0 <= i < |objs| =>
      var n := ClaimsOf(ToClose, claim, i);
      objs[i].(dlclosing := if objs[i].dlclosing >= n then objs[i].dlclosing - n else 0))
  }

  // ---- the steps ----------------------------------------------------------------------------

  function Top(stack: seq<Frame>): Frame
    requires stack != []
  {
    stack[|stack| - 1]
  }

  function Pop(stack: seq<Frame>): seq<Frame>
    requires stack != []
  {
    stack[..|stack| - 1]
  }

  /** An object that the sweep may unmap at once, or for whose loaders it has to wait. */
  predicate Sweepable(ob: Obj) { !ob.freed && ob.refcount == 0 && ob.dlclosing == 0 && ob.initfinilock == 0 }

  predicate TopIsPass(stack: seq<Frame>) { stack != [] && Top(stack).Pass? }
  predicate TopIsSweep(stack: seq<Frame>) { stack != [] && Top(stack).Sweeping? }
  predicate TopIsLoad(stack: seq<Frame>, n: nat) { stack != [] && Top(stack).Loading? && Top(stack).o < n }

  /** A pass that was sorted for this generation has an object to come. */
  predicate AtObject(objs: seq<Obj>, gen: nat, stack: seq<Frame>) {
    TopIsPass(stack) && Top(stack).gen == gen && Top(stack).rest != [] && Top(stack).rest[0] < |objs|
  }

  /** Objects on the object list. */
  ghost predicate Listed(objs: seq<Obj>, list: seq<Id>) {
    forall i :: 0 <= i < |list| ==> list[i] < |objs| && !objs[list[i]].freed
  }

  /** Thread t, holding the lock, may do a to these objects with this stack; the tests are those of the code. */
  ghost predicate Enabled(objs: seq<Obj>, gen: nat, t: Lwp, stack: seq<Frame>, a: Action) {
    && (TopIsSweep(stack) ==> a.Acquire? || a.Release? || a.Free? || a.Bump?)
    && match a
       case Acquire => true
       case Release => TopIsSweep(stack) ==>
         exists o: Id :: o < |objs| && Sweepable(objs[o]) && objs[o].neededrefcount > 0
       case Map(handle) => true
       case MapNeeded => TopIsLoad(stack, |objs|)
       case Reference(o) => o < |objs| && objs[o].refcount > 0
       case Open(o) => o < |objs| && objs[o].refcount > 0
       case BindNeeded(n) => n < |objs| && objs[n].refcount > 0 && TopIsLoad(stack, |objs|)
       case JoinDag(root, m) => root < |objs| && m < |objs| && objs[root].refcount > 0 && Reaches(objs, root, m)
       case Unload(root) => root < |objs| && objs[root].dlRefcount > 0
       case CloseDone => stack != [] && Top(stack).Closing?
       case Free(o) => TopIsSweep(stack) && o < |objs| && Sweepable(objs[o]) && objs[o].neededrefcount == 0
       case Bump => TopIsSweep(stack) && forall o: Id :: o < |objs| ==> !Sweepable(objs[o])
       case LoadEnter(o) => o < |objs| && objs[o].refcount > 0
       case LoadExit => TopIsLoad(stack, |objs|) && objs[Top(stack).o].neededrefcount > 0
       case StartPass(list, fini, force) => Listed(objs, list)
       case Restart(list) => TopIsPass(stack) && Listed(objs, list)
       case PassOver =>
         && AtObject(objs, gen, stack) && Top(stack).fini && !Top(stack).force
         && objs[Top(stack).rest[0]].refcount > 0
       case RunEnter =>
         && AtObject(objs, gen, stack) && objs[Top(stack).rest[0]].initfinilock == 0
         && (if Top(stack).fini then Top(stack).force || objs[Top(stack).rest[0]].refcount == 0
             else objs[Top(stack).rest[0]].refcount > 0)
       case RunExit => stack != [] && Top(stack).Running? && Top(stack).o < |objs| && TopIsPass(Pop(stack))
       case EndPass => TopIsPass(stack) && Top(stack).rest == []
  }

  const FRESH: Obj := Obj(false, 1, 0, 0, 0, 0, [], [])

  /** Object x gets a needed entry n. */
  function Bind(objs: seq<Obj>, x: Id, n: Id): seq<Obj>
    requires x < |objs|
  {
    objs[x := objs[x].(needed := objs[x].needed + [n])]
  }

  function NewObjs(objs: seq<Obj>, gen: nat, t: Lwp, stack: seq<Frame>, a: Action): seq<Obj>
    requires Enabled(objs, gen, t, stack, a)
  {
    match a
    case Map(handle) => objs + [FRESH.(dlRefcount := if handle then 1 else 0)]
    case MapNeeded => Bind(objs + [FRESH], Top(stack).o, |objs|)
    case Reference(o) => objs[o := objs[o].(refcount := objs[o].refcount + 1)]
    case Open(o) => objs[o := objs[o].(refcount := objs[o].refcount + 1, dlRefcount := objs[o].dlRefcount + 1)]
    case BindNeeded(n) => Bind(objs[n := objs[n].(refcount := objs[n].refcount + 1)], Top(stack).o, n)
    case JoinDag(root, m) => objs[root := objs[root].(dagmembers := objs[root].dagmembers + [m])]
    case Unload(root) =>
      var objs' := GiveUp(objs, root);
      if objs'[root].refcount == 0 then Raise(objs', Closing(root, objs[root].dagmembers)) else objs'
    case CloseDone => Lower(objs, Top(stack))
    case Free(o) => objs[o := objs[o].(freed := true)]
    case LoadEnter(o) => objs[o := objs[o].(neededrefcount := objs[o].neededrefcount + 1)]
    case LoadExit => var o := Top(stack).o; objs[o := objs[o].(neededrefcount := objs[o].neededrefcount - 1)]
    case RunEnter => var o := Top(stack).rest[0]; objs[o := objs[o].(initfinilock := t)]
    case RunExit => objs[Top(stack).o := objs[Top(stack).o].(initfinilock := 0)]
    case _ => objs
  }

  function NewStack(objs: seq<Obj>, gen: nat, t: Lwp, stack: seq<Frame>, a: Action): seq<Frame>
    requires Enabled(objs, gen, t, stack, a)
  {
    match a
    case Unload(root) =>
      if GiveUp(objs, root)[root].refcount == 0 then stack + [Closing(root, objs[root].dagmembers)] else stack
    case CloseDone => Pop(stack) + [Sweeping({})]
    case Free(o) => Pop(stack) + [Sweeping(Top(stack).unmapped + {o})]
    case Bump => Pop(stack)
    case LoadEnter(o) => stack + [Loading(o)]
    case LoadExit => Pop(stack)
    case StartPass(list, fini, force) => stack + [Pass(list, gen, fini, force)]
    case Restart(list) => Pop(stack) + [Pass(list, gen, Top(stack).fini, Top(stack).force)]
    case PassOver => Pop(stack) + [Advanced(Top(stack))]
    case RunEnter => stack + [Running(Top(stack).rest[0])]
    case RunExit =>
      var below := Pop(stack);
      if Top(below).gen == gen then Pop(below) + [Advanced(Top(below))] else below
    case EndPass => Pop(stack)
    case _ => stack
  }

  /** The pass after one object; a pass whose generation is over stays where it is until it is restarted. */
  function Advanced(f: Frame): Frame
    requires f.Pass?
  {
    if f.rest == [] then f else f.(rest := f.rest[1..])
  }

  /** Loading an object and the end of a sweep move the generation. */
  function NewGen(gen: nat, a: Action): nat { if a.Map? || a.MapNeeded? || a.Bump? then gen + 1 else gen }

  ghost predicate StepOf(s: State, t: Lwp, a: Action, s': State) {
    && 0 < t < |s.stacks|
    && s.lock == (if a.Acquire? then 0 else t)
    && Enabled(s.objs, s.gen, t, s.stacks[t], a)
    && s' == State(if a.Release? then 0 else t, NewGen(s.gen, a), NewObjs(s.objs, s.gen, t, s.stacks[t], a),
                   s.stacks[t := NewStack(s.objs, s.gen, t, s.stacks[t], a)])
  }

  ghost predicate Step(s: State, s': State) { exists t: Lwp, a :: StepOf(s, t, a, s') }

  ghost predicate Init(s: State) {
    && s.lock == 0 && s.objs == [] && forall t :: 0 <= t < |s.stacks| ==> s.stacks[t] == []
  }

  ghost predicate StepAt(run: seq<State>, i: nat)
    requires i + 1 < |run|
  {
    Step(run[i], run[i + 1])
  }

  ghost predicate IsRun(run: seq<State>) {
    && run != [] && Init(run[0]) && forall i: nat :: i + 1 < |run| ==> StepAt(run, i)
  }

  // ---- the invariant ------------------------------------------------------------------------

  /** Each object records exactly the claims that threads hold on it, and claims are on objects. */
  ghost predicate Exact(kind: Kind, s: State) {
    forall o: Id :: AllHeld(kind, s.stacks, o) == if o < |s.objs| then Recorded(kind, s.objs[o]) else 0
  }

  /** A freed object has no references, and nobody unloads it or loads for it. */
  predicate Gone(ob: Obj) { ob.refcount == 0 && ob.dlclosing == 0 && ob.neededrefcount == 0 }

  ghost predicate FreedGone(objs: seq<Obj>) { forall o: Id :: o < |objs| && objs[o].freed ==> Gone(objs[o]) }

  ghost predicate DagsReached(objs: seq<Obj>) {
    forall o: Id, m ::
      o < |objs| && objs[o].refcount > 0 && m in objs[o].dagmembers ==> m < |objs| && Reaches(objs, o, m)
  }

  ghost predicate EntriesKnown(objs: seq<Obj>) {
    forall x: Id, n :: x < |objs| && n in objs[x].needed ==> n < |objs|
  }

  /** A sweep that has yet to move the generation unmapped o. */
  ghost predicate Unmapping(stacks: seq<seq<Frame>>, o: Id) { exists t: Lwp, d: nat :: UnmappedAt(stacks, t, d, o) }

  predicate UnmappedAt(stacks: seq<seq<Frame>>, t: Lwp, d: nat, o: Id) {
    t < |stacks| && d < |stacks[t]| && stacks[t][d].Sweeping? && o in stacks[t][d].unmapped
  }

  /** A pass remembers objects that are still allocated, or that such a sweep has unmapped since. */
  ghost predicate PassOk(s: State, f: Frame) {
    f.Pass? ==>
      && f.gen <= s.gen && (forall o :: o in f.rest ==> o < |s.objs|)
      && (f.gen == s.gen ==> forall o :: o in f.rest && s.objs[o].freed ==> Unmapping(s.stacks, o))
  }

  /** A sweep is the last thing that a thread does in a call, and what it unmapped is freed. */
  ghost predicate SweepOk(s: State, stack: seq<Frame>, d: nat)
    requires d < |stack|
  {
    stack[d].Sweeping? ==> d == |stack| - 1 && forall o :: o in stack[d].unmapped ==> o < |s.objs| && s.objs[o].freed
  }

  ghost predicate FramesOk(s: State) {
    forall t: Lwp, d: nat ::
      t < |s.stacks| && d < |s.stacks[t]| ==> PassOk(s, s.stacks[t][d]) && SweepOk(s, s.stacks[t], d)
  }

  ghost predicate Inv(s: State) {
    && Exact(ToClose, s) && Exact(ToRun, s) && Exact(ToLoad, s) && FreedGone(s.objs) && Backed(s.objs)
    && DagsReached(s.objs) && EntriesKnown(s.objs) && FramesOk(s)
  }

  // ---- claims are counted exactly -----------------------------------------------------------

  lemma {:induction false} AllHeldUpdate(kind: Kind, stacks: seq<seq<Frame>>, t: nat, stack: seq<Frame>, o: Id)
    requires t < |stacks|
    ensures AllHeld(kind, stacks[t := stack], o) ==
            AllHeld(kind, stacks, o) - Held(kind, stacks[t], o) + Held(kind, stack, o)
    ensures Held(kind, stacks[t], o) <= AllHeld(kind, stacks, o)
  {
    var n := |stacks| - 1;
    if t == n {
      assert stacks[t := stack][..n] == stacks[..n];
    } else {
      assert stacks[t := stack][..n] == stacks[..n][t := stack];
      AllHeldUpdate(kind, stacks[..n], t, stack, o);
    }
  }

  /** What a step may do to the claims: a thread's stack and the records change together. */
  ghost predicate ClaimMove(kind: Kind, objs: seq<Obj>, stack: seq<Frame>, objs': seq<Obj>, stack': seq<Frame>, o: Id) {
    && |objs| <= |objs'|
    && (o < |objs| ==>
          Recorded(kind, objs'[o]) + Held(kind, stack, o) == Recorded(kind, objs[o]) + Held(kind, stack', o))
    && (|objs| <= o ==>
          Held(kind, stack', o) == Held(kind, stack, o) && (o < |objs'| ==> Recorded(kind, objs'[o]) == 0))
  }

  lemma KeepsExact(kind: Kind, s: State, t: Lwp, objs': seq<Obj>, stack': seq<Frame>, lock': Lwp, gen': nat)
    requires Exact(kind, s) && t < |s.stacks|
    requires forall o :: ClaimMove(kind, s.objs, s.stacks[t], objs', stack', o)
    ensures Exact(kind, State(lock', gen', objs', s.stacks[t := stack']))
  {
    var s' := State(lock', gen', objs', s.stacks[t := stack']);
    forall o: Id ensures AllHeld(kind, s'.stacks, o) == if o < |s'.objs| then Recorded(kind, s'.objs[o]) else 0 {
      AllHeldUpdate(kind, s.stacks, t, stack', o);
      assert ClaimMove(kind, s.objs, s.stacks[t], objs', stack', o);
    }
  }

  lemma Push(kind: Kind, stack: seq<Frame>, f: Frame, o: Id)
    ensures Held(kind, stack + [f], o) == Held(kind, stack, o) + ClaimsOf(kind, f, o)
  {}

  lemma UnloadMovesClaims(kind: Kind, objs: seq<Obj>, gen: nat, t: Lwp, stack: seq<Frame>, a: Action, o: Id)
    requires a.Unload? && Enabled(objs, gen, t, stack, a)
    requires forall m :: m in objs[a.root].dagmembers ==> m < |objs|
    ensures ClaimMove(kind, objs, stack, NewObjs(objs, gen, t, stack, a), NewStack(objs, gen, t, stack, a), o)
  {
    hide Backed, Held, ClaimsOf, GiveUp;
    var f := Closing(a.root, objs[a.root].dagmembers);
    Push(kind, stack, f, o);
    ClosingClaims(kind, f, |objs|, o);
  }

  lemma ClosingClaims(kind: Kind, f: Frame, n: nat, o: Id)
    requires f.Closing? && f.root < n && forall m :: m in f.members ==> m < n
    ensures n <= o || !kind.ToClose? ==> ClaimsOf(kind, f, o) == 0
  {
    assert n <= o ==> o !in [f.root] + f.members;
  }

  /** Replacing the top frame. */
  lemma Swap(kind: Kind, stack: seq<Frame>, f: Frame, o: Id)
    requires stack != []
    ensures Held(kind, Pop(stack) + [f], o) ==
            Held(kind, stack, o) - ClaimsOf(kind, Top(stack), o) + ClaimsOf(kind, f, o)
  {
    Push(kind, Pop(stack), f, o);
    Push(kind, Pop(stack), Top(stack), o);
    assert Pop(stack) + [Top(stack)] == stack;
  }

  lemma Popped(kind: Kind, stack: seq<Frame>, o: Id)
    requires stack != []
    ensures Held(kind, Pop(stack), o) == Held(kind, stack, o) - ClaimsOf(kind, Top(stack), o)
  {}

  lemma CloseMovesClaims(kind: Kind, objs: seq<Obj>, gen: nat, t: Lwp, stack: seq<Frame>, o: Id)
    requires Enabled(objs, gen, t, stack, CloseDone) &&
             Held(kind, stack, o) <= if o < |objs| then Recorded(kind, objs[o]) else 0
    ensures ClaimMove(kind, objs, stack, NewObjs(objs, gen, t, stack, CloseDone),
                      NewStack(objs, gen, t, stack, CloseDone), o)
  {
    hide Held, Reaches, GiveUp, ClaimsOf;
    Popped(kind, stack, o);
    Swap(kind, stack, Sweeping({}), o);
    NoFrameClaims(kind, Top(stack), o);
  }

  /** Which frames claim nothing of a kind. */
  lemma NoFrameClaims(kind: Kind, f: Frame, o: Id)
    ensures ClaimsOf(kind, Sweeping({}), o) == 0 && (f.Closing? && !kind.ToClose? ==> ClaimsOf(kind, f, o) == 0)
  {}

  lemma LoadMovesClaims(kind: Kind, objs: seq<Obj>, gen: nat, t: Lwp, stack: seq<Frame>, o: Id)
    requires Enabled(objs, gen, t, stack, LoadExit) &&
             Held(kind, stack, o) <= if o < |objs| then Recorded(kind, objs[o]) else 0
    ensures ClaimMove(kind, objs, stack, NewObjs(objs, gen, t, stack, LoadExit),
                      NewStack(objs, gen, t, stack, LoadExit), o)
  {
    Popped(kind, stack, o);
    hide Held;
  }

  lemma RunMovesClaims(kind: Kind, objs: seq<Obj>, gen: nat, t: Lwp, stack: seq<Frame>, o: Id)
    requires Enabled(objs, gen, t, stack, RunExit) &&
             Held(kind, stack, o) <= if o < |objs| then Recorded(kind, objs[o]) else 0
    ensures ClaimMove(kind, objs, stack, NewObjs(objs, gen, t, stack, RunExit),
                      NewStack(objs, gen, t, stack, RunExit), o)
  {
    Popped(kind, stack, o);
    Swap(kind, Pop(stack), Advanced(Top(Pop(stack))), o);
    hide Held;
  }

  /** Starting, advancing and ending passes and sweeps moves no claims. */
  lemma FreeFrames(kind: Kind, objs: seq<Obj>, gen: nat, t: Lwp, stack: seq<Frame>, a: Action, o: Id)
    requires MovesFrames(a) && Enabled(objs, gen, t, stack, a)
    ensures Held(kind, NewStack(objs, gen, t, stack, a), o) == Held(kind, stack, o)
  {
    hide Held;
    if a.StartPass? { Push(kind, stack, Pass(a.list, gen, a.fini, a.force), o); }
    else {
      Popped(kind, stack, o);
      if a.Free? { Swap(kind, stack, Sweeping(Top(stack).unmapped + {a.o}), o); }
      if a.Restart? { Swap(kind, stack, Pass(a.list, gen, Top(stack).fini, Top(stack).force), o); }
      if a.PassOver? { Swap(kind, stack, Advanced(Top(stack)), o); }
    }
  }

  predicate MovesFrames(a: Action) { a.Free? || a.Bump? || a.StartPass? || a.Restart? || a.PassOver? || a.EndPass? }

  lemma FramesMoveClaims(kind: Kind, objs: seq<Obj>, gen: nat, t: Lwp, stack: seq<Frame>, a: Action, o: Id)
    requires MovesFrames(a) && Enabled(objs, gen, t, stack, a)
    ensures ClaimMove(kind, objs, stack, NewObjs(objs, gen, t, stack, a), NewStack(objs, gen, t, stack, a), o)
  {
    hide Held, NewStack, Reaches, GiveUp;
    FreeFrames(kind, objs, gen, t, stack, a, o);
    assert forall x: Id :: x < |objs| ==> Recorded(kind, NewObjs(objs, gen, t, stack, a)[x]) == Recorded(kind, objs[x]);
  }

  lemma LoadEnterMovesClaims(kind: Kind, objs: seq<Obj>, gen: nat, t: Lwp, stack: seq<Frame>, x: Id, o: Id)
    requires Enabled(objs, gen, t, stack, LoadEnter(x))
    ensures var a := LoadEnter(x);
            ClaimMove(kind, objs, stack, NewObjs(objs, gen, t, stack, a), NewStack(objs, gen, t, stack, a), o)
  {
    hide Held;
    Push(kind, stack, Loading(x), o);
  }

  lemma RunEnterMovesClaims(kind: Kind, objs: seq<Obj>, gen: nat, t: Lwp, stack: seq<Frame>, o: Id)
    requires t > 0 && Enabled(objs, gen, t, stack, RunEnter)
    ensures ClaimMove(kind, objs, stack, NewObjs(objs, gen, t, stack, RunEnter),
                      NewStack(objs, gen, t, stack, RunEnter), o)
  {
    hide Held;
    Push(kind, stack, Running(Top(stack).rest[0]), o);
  }

  lemma OtherMovesClaims(kind: Kind, objs: seq<Obj>, gen: nat, t: Lwp, stack: seq<Frame>, a: Action, o: Id)
    requires !a.Unload? && !a.CloseDone? && !a.LoadExit? && !a.RunExit? && !MovesFrames(a) && !a.LoadEnter? &&
             !a.RunEnter?
    requires Enabled(objs, gen, t, stack, a)
    ensures ClaimMove(kind, objs, stack, NewObjs(objs, gen, t, stack, a), NewStack(objs, gen, t, stack, a), o)
  {
    hide Reaches, GiveUp, Held;
  }

  lemma StepMovesClaims(kind: Kind, s: State, t: Lwp, a: Action, o: Id)
    requires Exact(kind, s) && 0 < t < |s.stacks| && Enabled(s.objs, s.gen, t, s.stacks[t], a)
    requires a.Unload? ==> forall m :: m in s.objs[a.root].dagmembers ==> m < |s.objs|
    ensures ClaimMove(kind, s.objs, s.stacks[t], NewObjs(s.objs, s.gen, t, s.stacks[t], a),
                      NewStack(s.objs, s.gen, t, s.stacks[t], a), o)
  {
    hide ClaimMove, NewObjs, NewStack, Enabled;
    AllHeldUpdate(kind, s.stacks, t, [], o);
    if a.Unload? { UnloadMovesClaims(kind, s.objs, s.gen, t, s.stacks[t], a, o); }
    else if a.CloseDone? { CloseMovesClaims(kind, s.objs, s.gen, t, s.stacks[t], o); }
    else if a.LoadExit? { LoadMovesClaims(kind, s.objs, s.gen, t, s.stacks[t], o); }
    else if a.RunExit? { RunMovesClaims(kind, s.objs, s.gen, t, s.stacks[t], o); }
    else if MovesFrames(a) { FramesMoveClaims(kind, s.objs, s.gen, t, s.stacks[t], a, o); }
    else if a.LoadEnter? { LoadEnterMovesClaims(kind, s.objs, s.gen, t, s.stacks[t], a.o, o); }
    else if a.RunEnter? { RunEnterMovesClaims(kind, s.objs, s.gen, t, s.stacks[t], o); }
    else { OtherMovesClaims(kind, s.objs, s.gen, t, s.stacks[t], a, o); }
  }

  // ---- references and DAGs ------------------------------------------------------------------

  lemma {:induction false} LiveEdgesUpdate(objs: seq<Obj>, x: nat, ob: Obj, o: Id)
    requires x < |objs|
    ensures LiveEdges(objs[x := ob], o) == LiveEdges(objs, o) - EdgesOf(objs[x], o) + EdgesOf(ob, o)
    ensures EdgesOf(objs[x], o) <= LiveEdges(objs, o)
  {
    var n := |objs| - 1;
    if x == n {
      assert objs[x := ob][..n] == objs[..n];
    } else {
      assert objs[x := ob][..n] == objs[..n][x := ob];
      LiveEdgesUpdate(objs[..n], x, ob, o);
    }
  }

  /** What an object in use needs is in use. */
  lemma NeededInUse(objs: seq<Obj>, x: Id, n: Id)
    requires Backed(objs) && x < |objs| && n < |objs| && objs[x].refcount > 0 && n in objs[x].needed
    ensures objs[n].refcount > 0
  {
    LiveEdgesUpdate(objs, x, objs[x], n);
  }

  lemma {:induction false} PathInUse(objs: seq<Obj>, p: seq<Id>)
    requires Backed(objs) && IsPath(objs, p) && objs[p[0]].refcount > 0
    ensures objs[p[|p| - 1]].refcount > 0
  {
    if |p| > 1 {
      var q := p[..|p| - 1];
      assert forall i :: 0 < i < |q| ==> q[i] in objs[q[i - 1]].needed;
      PathInUse(objs, q);
      NeededInUse(objs, q[|q| - 1], p[|p| - 1]);
    }
  }

  /** The DAG of an object in use consists of objects in use. */
  lemma MembersInUse(objs: seq<Obj>, root: Id)
    requires Backed(objs) && DagsReached(objs) && root < |objs| && objs[root].refcount > 0
    ensures forall m :: m in objs[root].dagmembers ==> m < |objs| && objs[m].refcount > 0
  {
    forall m | m in objs[root].dagmembers ensures m < |objs| && objs[m].refcount > 0 {
      assert Reaches(objs, root, m);
      var p :| IsPath(objs, p) && p[0] == root && p[|p| - 1] == m;
      PathInUse(objs, p);
    }
  }

  /** Needed entries are only added, and an object that is not in use stays so. */
  ghost predicate Extends(objs: seq<Obj>, objs': seq<Obj>) {
    && |objs| <= |objs'|
    && (forall o: Id ::
          o < |objs| ==> objs[o].needed <= objs'[o].needed && (objs'[o].refcount > 0 ==> objs[o].refcount > 0))
  }

  lemma {:induction false} NoEdges(objs: seq<Obj>, o: Id)
    requires forall x: Id :: x < |objs| ==> o !in objs[x].needed
    ensures LiveEdges(objs, o) == 0
  {
    if objs != [] { NoEdges(objs[..|objs| - 1], o); }
  }

  lemma {:induction false} SameEdges(objs: seq<Obj>, objs': seq<Obj>, o: Id)
    requires |objs| == |objs'| && forall x: Id :: x < |objs| ==> EdgesOf(objs'[x], o) == EdgesOf(objs[x], o)
    ensures LiveEdges(objs', o) == LiveEdges(objs, o)
  {
    if objs != [] { SameEdges(objs[..|objs| - 1], objs'[..|objs| - 1], o); }
  }

  /** A step that changes neither needed entries nor whether an object is in use, nor lowers a slack. */
  lemma KeepsBackedPlainly(objs: seq<Obj>, objs': seq<Obj>)
    requires Backed(objs) && |objs'| == |objs|
    requires forall o: Id ::
               o < |objs| ==> objs'[o].needed == objs[o].needed && (objs'[o].refcount > 0 <==> objs[o].refcount > 0)
    requires forall o: Id ::
               o < |objs| ==> objs'[o].refcount - objs'[o].dlRefcount >= objs[o].refcount - objs[o].dlRefcount
    ensures Backed(objs')
  {
    forall o: Id | o < |objs'| ensures objs'[o].refcount >= objs'[o].dlRefcount + LiveEdges(objs', o) {
      SameEdges(objs, objs', o);
    }
  }

  lemma KeepsBackedBind(objs: seq<Obj>, x: Id, n: Id)
    requires n < |objs| && x < |objs| && BackedBut(objs, [n])
    ensures Backed(Bind(objs, x, n))
  {
    var ob := objs[x].(needed := objs[x].needed + [n]);
    var objs' := objs[x := ob];
    forall o: Id | o < |objs'| ensures objs'[o].refcount >= objs'[o].dlRefcount + LiveEdges(objs', o) {
      assert BackedAt(objs, [n], o);
      LiveEdgesUpdate(objs, x, ob, o);
    }
  }

  /** One more reference is one to spare. */
  lemma CountedBut(objs: seq<Obj>, n: Id)
    requires Backed(objs) && n < |objs| && objs[n].refcount > 0
    ensures BackedBut(objs[n := objs[n].(refcount := objs[n].refcount + 1)], [n])
  {
    var ob := objs[n].(refcount := objs[n].refcount + 1);
    var objs', pending := objs[n := ob], [n];
    forall o: Id | o < |objs'| ensures BackedAt(objs', pending, o) { LiveEdgesUpdate(objs, n, ob, o); }
  }

  /** A new object has its first reference to spare unless it is a handle. */
  lemma MappedBut(objs: seq<Obj>, ob: Obj, pending: seq<Id>)
    requires Backed(objs) && EntriesKnown(objs) && ob.needed == [] && (pending == [] || pending == [|objs|]) &&
             ob.refcount >= ob.dlRefcount + |pending|
    ensures BackedBut(objs + [ob], pending)
  {
    var objs' := objs + [ob];
    assert objs'[..|objs|] == objs;
    NoEdges(objs, |objs|);
    forall o: Id | o < |objs'| ensures BackedAt(objs', pending, o) {
      assert LiveEdges(objs', o) == LiveEdges(objs, o) + EdgesOf(ob, o);
    }
  }

  lemma KeepsBackedUnload(objs: seq<Obj>, gen: nat, t: Lwp, stack: seq<Frame>, a: Action)
    requires Backed(objs) && EntriesKnown(objs) && a.Unload? && Enabled(objs, gen, t, stack, a)
    ensures Backed(NewObjs(objs, gen, t, stack, a))
  {
    GiveUpBacked(objs, a.root);
    hide Backed, EntriesKnown, GiveUp;
    KeepsBackedPlainly(GiveUp(objs, a.root), NewObjs(objs, gen, t, stack, a));
  }

  lemma KeepsBacked(objs: seq<Obj>, gen: nat, t: Lwp, stack: seq<Frame>, a: Action)
    requires Backed(objs) && EntriesKnown(objs) && Enabled(objs, gen, t, stack, a)
    ensures Backed(NewObjs(objs, gen, t, stack, a))
  {
    hide Backed, EntriesKnown, Reaches, GiveUp, Raise, BackedBut;
    if a.Map? {
      MappedBut(objs, FRESH.(dlRefcount := if a.handle then 1 else 0), []);
      NothingPending(NewObjs(objs, gen, t, stack, a));
    }
    else if a.MapNeeded? {
      MappedBut(objs, FRESH, [|objs|]);
      KeepsBackedBind(objs + [FRESH], Top(stack).o, |objs|);
    }
    else if a.BindNeeded? {
      CountedBut(objs, a.n);
      KeepsBackedBind(objs[a.n := objs[a.n].(refcount := objs[a.n].refcount + 1)], Top(stack).o, a.n);
    }
    else if a.Unload? { KeepsBackedUnload(objs, gen, t, stack, a); }
    else { KeepsBackedPlainly(objs, NewObjs(objs, gen, t, stack, a)); }
  }

  lemma NothingPending(objs: seq<Obj>)
    requires BackedBut(objs, [])
    ensures Backed(objs)
  {
    forall o: Id | o < |objs|
      ensures objs[o].refcount >= objs[o].dlRefcount + LiveEdges(objs, o)
    {
      assert BackedAt(objs, [], o);
    }
  }

  lemma StepExtends(objs: seq<Obj>, gen: nat, t: Lwp, stack: seq<Frame>, a: Action)
    requires Enabled(objs, gen, t, stack, a)
    ensures Extends(objs, NewObjs(objs, gen, t, stack, a))
  {}

  lemma KeepsDags(objs: seq<Obj>, objs': seq<Obj>)
    requires DagsReached(objs) && Extends(objs, objs')
    requires forall o: Id :: o < |objs| ==> objs'[o].dagmembers == objs[o].dagmembers
    requires forall o: Id :: |objs| <= o < |objs'| ==> objs'[o].dagmembers == []
    ensures DagsReached(objs')
  {}

  lemma KeepsEntriesKnown(objs: seq<Obj>, gen: nat, t: Lwp, stack: seq<Frame>, a: Action)
    requires EntriesKnown(objs) && Enabled(objs, gen, t, stack, a)
    ensures EntriesKnown(NewObjs(objs, gen, t, stack, a))
  {}

  lemma KeepsDagsJoin(objs: seq<Obj>, root: Id, m: Id)
    requires DagsReached(objs) && root < |objs| && m < |objs| && Reaches(objs, root, m)
    ensures DagsReached(objs[root := objs[root].(dagmembers := objs[root].dagmembers + [m])])
  {}

  lemma KeepsDagsStep(objs: seq<Obj>, gen: nat, t: Lwp, stack: seq<Frame>, a: Action)
    requires DagsReached(objs) && Enabled(objs, gen, t, stack, a)
    ensures DagsReached(NewObjs(objs, gen, t, stack, a))
  {
    hide Backed, Reaches, DagsReached, Extends;
    if a.JoinDag? { KeepsDagsJoin(objs, a.root, a.m); }
    else {
      StepExtends(objs, gen, t, stack, a);
      KeepsDags(objs, NewObjs(objs, gen, t, stack, a));
    }
  }

  /** A step never revives or claims a freed object. */
  lemma KeepsFreedGone(objs: seq<Obj>, gen: nat, t: Lwp, stack: seq<Frame>, a: Action)
    requires FreedGone(objs) && Enabled(objs, gen, t, stack, a) && t > 0
    requires a.Unload? ==> forall m :: m in [a.root] + objs[a.root].dagmembers ==> m < |objs| && objs[m].refcount > 0
    ensures FreedGone(NewObjs(objs, gen, t, stack, a))
  {}

  // ---- passes and sweeps --------------------------------------------------------------------

  /** Below the top, a step leaves the stack of its thread as it was. */
  lemma LowerFrames(objs: seq<Obj>, gen: nat, t: Lwp, stack: seq<Frame>, a: Action, d: nat)
    requires Enabled(objs, gen, t, stack, a) && d < |NewStack(objs, gen, t, stack, a)| - 1
    ensures d < |stack| && NewStack(objs, gen, t, stack, a)[d] == stack[d]
  {
    hide Reaches, GiveUp;
  }

  /** Only the end of a sweep forgets what it unmapped. */
  lemma SweepsStay(s: State, t: Lwp, a: Action, s': State, o: Id)
    requires StepOf(s, t, a, s') && !a.Bump? && Unmapping(s.stacks, o)
    ensures Unmapping(s'.stacks, o)
  {
    var u: Lwp, d: nat :| UnmappedAt(s.stacks, u, d, o);
    SweepStays(s.objs, s.gen, t, s.stacks[t], a, d);
    assert UnmappedAt(s'.stacks, u, d, o);
  }

  lemma SweepStays(objs: seq<Obj>, gen: nat, t: Lwp, stack: seq<Frame>, a: Action, d: nat)
    requires Enabled(objs, gen, t, stack, a) && !a.Bump?
    ensures d < |stack| && stack[d].Sweeping? ==>
              var stack' := NewStack(objs, gen, t, stack, a);
              d < |stack'| && stack'[d].Sweeping? && stack[d].unmapped <= stack'[d].unmapped
  {
    hide Reaches, GiveUp;
  }

  /** What a step frees is recorded by the sweep that frees it, and objects are never allocated again. */
  lemma FreedRecorded(s: State, t: Lwp, a: Action, s': State, o: Id)
    requires StepOf(s, t, a, s') && o < |s.objs|
    ensures |s.objs| <= |s'.objs| && (s.objs[o].freed ==> s'.objs[o].freed)
    ensures s'.objs[o].freed && !s.objs[o].freed ==> Unmapping(s'.stacks, o)
  {
    hide Reaches, GiveUp, Backed;
    if s'.objs[o].freed && !s.objs[o].freed {
      assert a == Free(o);
      assert UnmappedAt(s'.stacks, t, |s'.stacks[t]| - 1, o);
    }
  }

  lemma OldFrame(s: State, t: Lwp, a: Action, s': State, f: Frame)
    requires StepOf(s, t, a, s') && PassOk(s, f)
    ensures PassOk(s', f)
  {
    hide Enabled, NewObjs, NewStack, Unmapping;
    if f.Pass? {
      forall o | o in f.rest
        ensures o < |s'.objs| && (f.gen == s'.gen && s'.objs[o].freed ==> Unmapping(s'.stacks, o))
      {
        FreedRecorded(s, t, a, s', o);
        if f.gen == s'.gen && s.objs[o].freed { SweepsStay(s, t, a, s', o); }
      }
    }
  }

  lemma NewTop(s: State, t: Lwp, a: Action, s': State)
    requires FramesOk(s) && StepOf(s, t, a, s') && s'.stacks[t] != []
    ensures PassOk(s', Top(s'.stacks[t]))
  {
    var stack, stack' := s.stacks[t], s'.stacks[t];
    if a.StartPass? || a.Restart? {
      assert forall o :: o in a.list ==> o < |s.objs| && !s.objs[o].freed;
    } else if Top(stack').Pass? {
      TopFrom(s.objs, s.gen, t, stack, a);
      var d: nat :| d < |stack| && (Top(stack') == stack[d] || (stack[d].Pass? && Top(stack') == Advanced(stack[d])));
      assert PassOk(s, stack[d]);
      hide Enabled, NewObjs, NewStack, Unmapping;
      assert forall o :: o in Top(stack').rest ==> o in stack[d].rest;
      assert PassOk(s, Top(stack'));
      OldFrame(s, t, a, s', Top(stack'));
    }
  }

  lemma TopFrom(objs: seq<Obj>, gen: nat, t: Lwp, stack: seq<Frame>, a: Action)
    requires Enabled(objs, gen, t, stack, a) && !a.StartPass? && !a.Restart?
    requires NewStack(objs, gen, t, stack, a) != [] && Top(NewStack(objs, gen, t, stack, a)).Pass?
    ensures var top := Top(NewStack(objs, gen, t, stack, a));
            exists d: nat :: d < |stack| && (top == stack[d] || (stack[d].Pass? && top == Advanced(stack[d])))
  {
    hide Reaches, GiveUp;
    var top := Top(NewStack(objs, gen, t, stack, a));
    if a.RunExit? {
      assert top == stack[|stack| - 2] || top == Advanced(stack[|stack| - 2]);
    } else if a.PassOver? {
      assert top == Advanced(stack[|stack| - 1]);
    } else if a.LoadExit? || a.Bump? || a.EndPass? {
      assert top == stack[|stack| - 2];
    } else {
      assert top == stack[|stack| - 1];
    }
  }

  lemma NewSweep(s: State, t: Lwp, a: Action, s': State, d: nat)
    requires FramesOk(s) && StepOf(s, t, a, s') && d < |s'.stacks[t]|
    ensures SweepOk(s', s'.stacks[t], d)
  {
    var stack, stack' := s.stacks[t], s'.stacks[t];
    if stack'[d].Sweeping? {
      SweepFrom(s.objs, s.gen, t, stack, a, d);
      assert d < |stack| && stack[d].Sweeping? ==> SweepOk(s, stack, d);
      forall o | o in stack'[d].unmapped ensures o < |s'.objs| && s'.objs[o].freed {
        if a == Free(o) { hide Reaches, GiveUp, Backed; } else { FreedRecorded(s, t, a, s', o); }
      }
    }
  }

  lemma SweepFrom(objs: seq<Obj>, gen: nat, t: Lwp, stack: seq<Frame>, a: Action, d: nat)
    requires Enabled(objs, gen, t, stack, a) && d < |NewStack(objs, gen, t, stack, a)| &&
             NewStack(objs, gen, t, stack, a)[d].Sweeping?
    requires forall e :: 0 <= e < |stack| && stack[e].Sweeping? ==> e == |stack| - 1
    ensures var stack' := NewStack(objs, gen, t, stack, a);
            && d == |stack'| - 1
            && (stack'[d].unmapped == {} ||
                (d < |stack| && stack[d].Sweeping? &&
                 forall o :: o in stack'[d].unmapped ==> o in stack[d].unmapped || a == Free(o)))
  {
    hide Reaches, GiveUp;
  }

  lemma OtherFrames(s: State, t: Lwp, a: Action, s': State, u: Lwp, d: nat)
    requires FramesOk(s) && StepOf(s, t, a, s') && u < |s.stacks| && u != t && d < |s.stacks[u]|
    ensures s'.stacks[u] == s.stacks[u] && PassOk(s', s'.stacks[u][d]) && SweepOk(s', s'.stacks[u], d)
  {
    hide Enabled, NewObjs, NewStack, Unmapping;
    assert s'.stacks[u] == s.stacks[u];
    assert PassOk(s, s.stacks[u][d]) && SweepOk(s, s.stacks[u], d);
    OldFrame(s, t, a, s', s.stacks[u][d]);
    if s.stacks[u][d].Sweeping? {
      forall o | o in s.stacks[u][d].unmapped ensures o < |s'.objs| && s'.objs[o].freed {
        FreedRecorded(s, t, a, s', o);
      }
    }
  }

  lemma OwnFrames(s: State, t: Lwp, a: Action, s': State, d: nat)
    requires FramesOk(s) && StepOf(s, t, a, s') && d < |s'.stacks[t]|
    ensures PassOk(s', s'.stacks[t][d]) && SweepOk(s', s'.stacks[t], d)
  {
    hide NewObjs, NewStack, Unmapping, Enabled, PassOk, SweepOk;
    NewSweep(s, t, a, s', d);
    if d == |s'.stacks[t]| - 1 {
      NewTop(s, t, a, s');
    } else {
      LowerFrames(s.objs, s.gen, t, s.stacks[t], a, d);
      OldFrame(s, t, a, s', s.stacks[t][d]);
    }
  }

  lemma KeepsFrames(s: State, t: Lwp, a: Action, s': State)
    requires FramesOk(s) && StepOf(s, t, a, s')
    ensures FramesOk(s')
  {
    hide NewObjs, NewStack, Enabled, PassOk, SweepOk;
    forall u: Lwp, d: nat | u < |s'.stacks| && d < |s'.stacks[u]|
      ensures PassOk(s', s'.stacks[u][d]) && SweepOk(s', s'.stacks[u], d)
    {
      if u != t { OtherFrames(s, t, a, s', u, d); } else { OwnFrames(s, t, a, s', d); }
    }
  }

  // ---- the theorems -------------------------------------------------------------------------

  /** Every step of every thread keeps the invariant. */
  lemma StepKeepsInv(s: State, s': State)
    requires Inv(s) && Step(s, s')
    ensures Inv(s')
  {
    hide NewObjs, NewStack, Exact, FreedGone, Backed, DagsReached, EntriesKnown, ClaimMove, Enabled, FramesOk;
    var t: Lwp, a :| StepOf(s, t, a, s');
    var objs, gen, stack := s.objs, s.gen, s.stacks[t];
    if a.Unload? { UnloadTargets(objs, gen, t, stack, a); }
    forall kind, o
      ensures ClaimMove(kind, objs, stack, NewObjs(objs, gen, t, stack, a), NewStack(objs, gen, t, stack, a), o)
    {
      assert Exact(kind, s) by { assert kind.ToClose? || kind.ToRun? || kind.ToLoad?; }
      StepMovesClaims(kind, s, t, a, o);
    }
    KeepsExact(ToClose, s, t, s'.objs, s'.stacks[t], s'.lock, s'.gen);
    KeepsExact(ToRun, s, t, s'.objs, s'.stacks[t], s'.lock, s'.gen);
    KeepsExact(ToLoad, s, t, s'.objs, s'.stacks[t], s'.lock, s'.gen);
    KeepsFreedGone(objs, gen, t, stack, a);
    KeepsBacked(objs, gen, t, stack, a);
    KeepsDagsStep(objs, gen, t, stack, a);
    KeepsEntriesKnown(objs, gen, t, stack, a);
    KeepsFrames(s, t, a, s');
  }

  /** The object being unloaded and its DAG were in use until this step. */
  lemma UnloadTargets(objs: seq<Obj>, gen: nat, t: Lwp, stack: seq<Frame>, a: Action)
    requires Backed(objs) && DagsReached(objs) && a.Unload? && Enabled(objs, gen, t, stack, a)
    ensures forall m :: m in [a.root] + objs[a.root].dagmembers ==> m < |objs| && objs[m].refcount > 0
    ensures a.root < |objs| && forall m :: m in objs[a.root].dagmembers ==> m < |objs|
  {
    assert objs[a.root].refcount > 0;
    MembersInUse(objs, a.root);
  }

  lemma {:induction false} NothingHeld(kind: Kind, stacks: seq<seq<Frame>>, o: Id)
    requires forall t :: 0 <= t < |stacks| ==> stacks[t] == []
    ensures AllHeld(kind, stacks, o) == 0
  {
    if stacks != [] { NothingHeld(kind, stacks[..|stacks| - 1], o); }
  }

  lemma {:induction false} RunInv(run: seq<State>, i: nat)
    requires IsRun(run) && i < |run|
    ensures Inv(run[i])
  {
    if i == 0 {
      forall kind, o ensures AllHeld(kind, run[0].stacks, o) == 0 { NothingHeld(kind, run[0].stacks, o); }
    } else {
      hide Inv, Step;
      RunInv(run, i - 1);
      assert StepAt(run, i - 1);
      StepKeepsInv(run[i - 1], run[i]);
    }
  }

  /**
   Claim safety, for claims by dlclosing and by neededrefcount: in every reachable state, whoever
   holds such a claim on an object, with or without the lock, the object has not been freed.
   */
  lemma ClaimedNotFreed(run: seq<State>, i: nat, t: Lwp, kind: Kind, o: Id)
    requires IsRun(run) && i < |run| && t < |run[i].stacks| && Held(kind, run[i].stacks[t], o) > 0 && !kind.ToRun?
    ensures o < |run[i].objs| && !run[i].objs[o].freed
  {
    RunInv(run, i);
    AllHeldUpdate(kind, run[i].stacks, t, [], o);
    assert Exact(kind, run[i]) by { assert kind.ToClose? || kind.ToLoad?; }
  }

  /**
   The object that a pass is about to enter, its generation being unchanged, is allocated if and
   only if no sweep that unmapped it has yet to move the generation.
   */
  lemma EntersAllocated(run: seq<State>, i: nat, t: Lwp)
    requires IsRun(run) && i < |run| && t < |run[i].stacks| && AtObject(run[i].objs, run[i].gen, run[i].stacks[t])
    ensures var o := Top(run[i].stacks[t]).rest[0]; !run[i].objs[o].freed <==> !Unmapping(run[i].stacks, o)
  {
    RunInv(run, i);
    var s := run[i];
    var o := Top(s.stacks[t]).rest[0];
    assert PassOk(s, s.stacks[t][|s.stacks[t]| - 1]) && o in Top(s.stacks[t]).rest;
    if Unmapping(s.stacks, o) {
      var u: Lwp, d: nat :| UnmappedAt(s.stacks, u, d, o);
      assert SweepOk(s, s.stacks[u], d);
    }
  }

  /**
   Step j of the run: thread t enters o, which a sweep by another thread has unmapped without
   moving the generation.
   */
  ghost predicate EntersFreed(run: seq<State>, j: nat, t: Lwp, o: Id) {
    && j + 1 < |run| && StepOf(run[j], t, RunEnter, run[j + 1])
    && Top(run[j].stacks[t]).rest[0] == o && run[j].objs[o].freed && Unmapping(run[j].stacks, o)
  }

  /** A thread runs functions of a freed object only if it entered it that way: while it is inside, nobody frees it. */
  lemma {:induction false} RunningFreed(run: seq<State>, i: nat, t: Lwp, d: nat) returns (j: nat)
    requires IsRun(run) && i < |run| && t < |run[i].stacks| && d < |run[i].stacks[t]| && run[i].stacks[t][d].Running?
    requires var o := run[i].stacks[t][d].o; o < |run[i].objs| && run[i].objs[o].freed
    ensures j < i && EntersFreed(run, j, t, run[i].stacks[t][d].o)
  {
    assert i > 0;
    var s, s' := run[i - 1], run[i];
    assert StepAt(run, i - 1);
    var u: Lwp, a :| StepOf(s, u, a, s');
    var o := s'.stacks[t][d].o;
    RunInv(run, i - 1);
    if d < |s.stacks[t]| && s.stacks[t][d] == Running(o) {
      StaysFreed(s, u, a, s', t, d, o);
      j := RunningFreed(run, i - 1, t, d);
    } else {
      EnteredNow(s, u, a, s', t, d);
      EntersAllocated(run, i - 1, t);
      j := i - 1;
    }
  }

  lemma StaysFreed(s: State, u: Lwp, a: Action, s': State, t: Lwp, d: nat, o: Id)
    requires Inv(s) && StepOf(s, u, a, s') && t < |s.stacks| && d < |s.stacks[t]| && s.stacks[t][d] == Running(o)
    requires o < |s'.objs| && s'.objs[o].freed
    ensures o < |s.objs| && s.objs[o].freed
  {
    HeldAt(s.stacks[t], d, o);
    AllHeldUpdate(ToRun, s.stacks, t, [], o);
    assert Exact(ToRun, s);
    hide Exact, Backed, DagsReached, EntriesKnown, FramesOk, FreedGone, Held, AllHeld;
    if !s.objs[o].freed { FreedOnlyBySweep(s.objs, s.gen, u, s.stacks[u], a, o); }
  }

  lemma {:induction false} HeldAt(stack: seq<Frame>, d: nat, o: Id)
    requires d < |stack| && stack[d] == Running(o)
    ensures Held(ToRun, stack, o) > 0
  {
    if d < |stack| - 1 { HeldAt(stack[..|stack| - 1], d, o); }
  }

  lemma EnteredNow(s: State, u: Lwp, a: Action, s': State, t: Lwp, d: nat)
    requires StepOf(s, u, a, s') && t < |s'.stacks| && d < |s'.stacks[t]| && s'.stacks[t][d].Running?
    requires !(d < |s.stacks[t]| && s.stacks[t][d] == s'.stacks[t][d])
    ensures u == t && a.RunEnter? && AtObject(s.objs, s.gen, s.stacks[t]) &&
            Top(s.stacks[t]).rest[0] == s'.stacks[t][d].o
    ensures s'.objs[s'.stacks[t][d].o].freed == s.objs[s'.stacks[t][d].o].freed
  {
    hide Reaches, GiveUp;
  }

  /** No sweep waits, having unmapped something. */
  ghost predicate NoLateWait(s: State) {
    forall t: Lwp :: t < |s.stacks| && TopIsSweep(s.stacks[t]) && Top(s.stacks[t]).unmapped != {} ==> s.lock == t
  }

  /** A thread inside a freed object: some sweep had to wait for a loader after it unmapped something. */
  lemma LateWaitBefore(run: seq<State>, i: nat, t: Lwp, o: Id) returns (j: nat)
    requires IsRun(run) && i < |run| && t < |run[i].stacks| && Held(ToRun, run[i].stacks[t], o) > 0
    requires o < |run[i].objs| && run[i].objs[o].freed
    ensures j < i && !NoLateWait(run[j])
  {
    var d := RunningAt(run[i].stacks[t], o);
    j := RunningFreed(run, i, t, d);
    RunInv(run, j);
    var u: Lwp, e: nat :| UnmappedAt(run[j].stacks, u, e, o);
    assert SweepOk(run[j], run[j].stacks[u], e);
  }

  /** In a run in which that does not happen, no claim of any kind is ever on a freed object. */
  lemma ClaimsSafe(run: seq<State>, i: nat, t: Lwp, kind: Kind, o: Id)
    requires IsRun(run) && (forall j :: 0 <= j < |run| ==> NoLateWait(run[j]))
    requires i < |run| && t < |run[i].stacks| && Held(kind, run[i].stacks[t], o) > 0
    ensures o < |run[i].objs| && !run[i].objs[o].freed
  {
    if kind.ToRun? {
      ClaimsInRange(run, i, t, kind, o);
      if run[i].objs[o].freed { var j := LateWaitBefore(run, i, t, o); }
    } else {
      ClaimedNotFreed(run, i, t, kind, o);
    }
  }

  lemma ClaimsInRange(run: seq<State>, i: nat, t: Lwp, kind: Kind, o: Id)
    requires IsRun(run) && i < |run| && t < |run[i].stacks| && Held(kind, run[i].stacks[t], o) > 0
    ensures o < |run[i].objs|
  {
    RunInv(run, i);
    AllHeldUpdate(kind, run[i].stacks, t, [], o);
    assert Exact(kind, run[i]) by { assert kind.ToClose? || kind.ToRun? || kind.ToLoad?; }
  }

  lemma {:induction false} RunningAt(stack: seq<Frame>, o: Id) returns (d: nat)
    requires Held(ToRun, stack, o) > 0
    ensures d < |stack| && stack[d] == Running(o)
  {
    var n := |stack| - 1;
    if stack[n] == Running(o) { d := n; } else { d := RunningAt(stack[..n], o); }
  }

  /** At most one thread is inside the init or fini functions of an object, and only once. */
  lemma OneRunner(run: seq<State>, i: nat, t: Lwp, u: Lwp, o: Id)
    requires IsRun(run) && i < |run| && t < |run[i].stacks| && u < |run[i].stacks|
    requires Held(ToRun, run[i].stacks[t], o) > 0 && Held(ToRun, run[i].stacks[u], o) > 0
    ensures t == u && Held(ToRun, run[i].stacks[t], o) == 1
  {
    RunInv(run, i);
    var stacks := run[i].stacks;
    AllHeldUpdate(ToRun, stacks, t, [], o);
    if t != u { AllHeldUpdate(ToRun, stacks[t := []], u, [], o); }
    assert Exact(ToRun, run[i]);
  }

  /** An object that a step frees has no references and no claims by any thread. */
  lemma FreedUnclaimed(run: seq<State>, i: nat, o: Id)
    requires IsRun(run) && i + 1 < |run| && o < |run[i].objs| && o < |run[i + 1].objs|
    requires !run[i].objs[o].freed && run[i + 1].objs[o].freed
    ensures run[i].objs[o].refcount == 0 && forall kind :: AllHeld(kind, run[i].stacks, o) == 0
  {
    RunInv(run, i);
    assert StepAt(run, i);
    var t: Lwp, a :| StepOf(run[i], t, a, run[i + 1]);
    FreedOnlyBySweep(run[i].objs, run[i].gen, t, run[i].stacks[t], a, o);
    NoClaims(run[i], o);
  }

  lemma NoClaims(s: State, o: Id)
    requires Inv(s) && o < |s.objs| && Gone(s.objs[o]) && s.objs[o].initfinilock == 0
    ensures forall kind :: AllHeld(kind, s.stacks, o) == 0
  {
    hide Backed, DagsReached, EntriesKnown, FramesOk, FreedGone, AllHeld;
    forall kind ensures AllHeld(kind, s.stacks, o) == 0 {
      assert Exact(kind, s) by { assert kind.ToClose? || kind.ToRun? || kind.ToLoad?; }
    }
  }

  lemma FreedOnlyBySweep(objs: seq<Obj>, gen: nat, t: Lwp, stack: seq<Frame>, a: Action, o: Id)
    requires Enabled(objs, gen, t, stack, a) && o < |objs| && o < |NewObjs(objs, gen, t, stack, a)|
    requires !objs[o].freed && NewObjs(objs, gen, t, stack, a)[o].freed
    ensures Gone(objs[o]) && objs[o].initfinilock == 0
  {}
}

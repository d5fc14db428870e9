/**
 Running constructors, destructors and IRELATIVE resolvers exactly once, although passes over
 the sorted objects restart whenever the object list changed, other threads run passes of
 their own, and the functions called may load and unload objects themselves
 (_rtld_call_init_functions, _rtld_call_fini_functions, _rtld_call_init_function,
 _rtld_call_fini_function, _rtld_call_ifunc_functions, _rtld_call_ifunc).
 */
module InitRuns {
  import opened Options

  type Id = nat
  type Lwp = nat                        // 0 is nobody

  datatype Group = Ifunc | Init | Fini

  /**
   The functions of one group of an object, in the order in which they are to run.  Init and
   Fini: the function itself (first is 0 or 1, firstLeft is 0 once it was called), then the
   array (secondLeft is what remains of it).  Ifunc: the entries counted by ifunc_remaining,
   then those counted by ifunc_remaining_nonplt; calls[k] is false for an entry in between
   that is not an IRELATIVE relocation.
   */
  datatype Work = Work(first: nat, firstLeft: nat, second: nat, secondLeft: nat, calls: seq<bool>)

  /** How many entries were taken so far: the index of the next one. */
  function Taken(w: Work): int { w.first - w.firstLeft + w.second - w.secondLeft }

  predicate Drained(w: Work) { w.firstLeft == 0 && w.secondLeft == 0 }

  predicate WfWork(w: Work) {
    && w.firstLeft <= w.first && w.secondLeft <= w.second && |w.calls| == w.first + w.second
    && (w.secondLeft < w.second ==> w.firstLeft == 0)
  }

  datatype Obj = Obj(initfinilock: Lwp, inUse: bool, initfirst: bool, ifunc: Work, init: Work, fini: Work)

  function WorkOf(ob: Obj, g: Group): Work {
    match g case Ifunc => ob.ifunc case Init => ob.init case Fini => ob.fini
  }

  function WithWork(ob: Obj, g: Group, w: Work): Obj {
    match g case Ifunc => ob.(ifunc := w) case Init => ob.(init := w) case Fini => ob.(fini := w)
  }

  /** One turn of a pass: run the functions of a group of an object. */
  datatype Item = Item(o: Id, g: Group)

  /** What a pass was started for: the sorted objects and, for constructors, the main program. */
  datatype Job = InitJob(main: Id, list: seq<Id>) | FiniJob(list: seq<Id>)

  datatype Frame =
      // a pass over the sorted objects
    | Pass(items: seq<Item>, i: nat, gen: nat, force: bool, ran: set<Item>, skipped: set<Item>, job: Job)
    | Running(item: Item, gen: nat, call: Option<nat>)                // holds initfinilock; perhaps inside entry `call`

  /** A function was entered or returned. */
  datatype Event = Event(item: Item, k: nat, began: bool)

  datatype State = State(lock: Lwp, gen: nat, objs: seq<Obj>, stacks: seq<seq<Frame>>, trace: seq<Event>)

  // ---- what the passes are over ---------------------------------------------------------------

  function Each(list: seq<Id>, g: Group): seq<Item> { seq(|list|, i requires 0 <= i < |list| => Item(list[i], g)) }

  /** The objects of the list with, or without, DF_1_INITFIRST. */
  function Select(objs: seq<Obj>, list: seq<Id>, initfirst: bool): seq<Id> {
    if list == [] then []
    else
      var first := if list[0] < |objs| && objs[list[0]].initfirst == initfirst then [list[0]] else [];
      first + Select(objs, list[1..], initfirst)
  }

  /** _rtld_call_init_functions: resolvers, those of the main program, the INITFIRST objects, all objects. */
  function InitItems(objs: seq<Obj>, main: Id, list: seq<Id>): seq<Item> {
    Each(list, Ifunc) + [Item(main, Ifunc)] + Each(Select(objs, list, true), Init) + Each(list, Init)
  }

  /** _rtld_call_fini_functions: all objects but the INITFIRST ones, then all objects. */
  function FiniItems(objs: seq<Obj>, list: seq<Id>): seq<Item> {
    Each(Select(objs, list, false), Fini) + Each(list, Fini)
  }

  function ItemsOf(objs: seq<Obj>, job: Job): seq<Item> {
    match job
    case InitJob(main, list) => InitItems(objs, main, list)
    case FiniJob(list) => FiniItems(objs, list)
  }

  // ---- the steps --------------------------------------------------------------------------------

  datatype Action =
    | Acquire | Release
    | Change                                   // an object was loaded or unloaded: the generation moves
    | Map(ob: Obj) | Use(o: Id, inUse: bool)
    | StartInit(main: Id, list: seq<Id>) | StartFini(list: seq<Id>, force: bool)
    | RestartInit(main: Id, list: seq<Id>) | RestartFini(list: seq<Id>)
    | Skip                                     // fini pass: the object is still in use
    | Enter                                    // _rtld_initfini_enter
    | Take                                     // take the next entry and, if it is a function, call it
    | Return                                   // the function returned
    | Exit                                     // _rtld_initfini_exit
    | EndPass

  /** Whether the loops go on; only the init or fini function itself is called whatever the generation. */
  predicate GoesOn(w: Work, g: Group, same: bool) {
    if w.firstLeft > 0 then !g.Ifunc? || same else w.secondLeft > 0 && same
  }

  function TakeOne(w: Work): Work {
    if w.firstLeft > 0 then w.(firstLeft := w.firstLeft - 1)
    else if w.secondLeft > 0 then w.(secondLeft := w.secondLeft - 1)
    else w
  }

  ghost predicate FreshObj(ob: Obj) {
    ob.initfinilock == 0 &&
    forall g :: var w := WorkOf(ob, g); WfWork(w) && w.firstLeft == w.first && w.secondLeft == w.second
  }

  ghost predicate OnObjs(objs: seq<Obj>, items: seq<Item>) { forall i :: 0 <= i < |items| ==> items[i].o < |objs| }

  function Top(stack: seq<Frame>): Frame
    requires stack != []
  {
    stack[|stack| - 1]
  }

  function Pop(stack: seq<Frame>): seq<Frame>
    requires stack != []
  {
    stack[..|stack| - 1]
  }

  predicate TopIsPass(stack: seq<Frame>) { stack != [] && Top(stack).Pass? }

  /** A pass with an item left, in the generation it was sorted for. */
  predicate AtItem(s: State, stack: seq<Frame>) {
    TopIsPass(stack) && Top(stack).i < |Top(stack).items| && Top(stack).gen == s.gen
    && Top(stack).items[Top(stack).i].o < |s.objs|
  }

  /** A pass of destructors, unless forced, leaves out an object that is in use. */
  predicate PassesOver(s: State, pass: Frame, item: Item)
    requires pass.Pass?
  {
    item.o < |s.objs| && item.g.Fini? && s.objs[item.o].inUse && !pass.force
  }

  predicate IsRunning(s: State, stack: seq<Frame>, inside: bool) {
    stack != [] && Top(stack).Running? && Top(stack).call.Some? == inside && Top(stack).item.o < |s.objs|
  }

  ghost predicate Enabled(s: State, t: Lwp, a: Action)
    requires t < |s.stacks|
  {
    var stack := s.stacks[t];
    match a
    case Map(ob) => FreshObj(ob)
    case Use(o, inUse) => o < |s.objs|
    case StartInit(main, list) => OnObjs(s.objs, ItemsOf(s.objs, InitJob(main, list)))
    case StartFini(list, force) => OnObjs(s.objs, ItemsOf(s.objs, FiniJob(list)))
    case RestartInit(main, list) => TopIsPass(stack) && OnObjs(s.objs, ItemsOf(s.objs, InitJob(main, list)))
    case RestartFini(list) => TopIsPass(stack) && OnObjs(s.objs, ItemsOf(s.objs, FiniJob(list)))
    case Skip => AtItem(s, stack) && PassesOver(s, Top(stack), Top(stack).items[Top(stack).i])
    case Enter =>
      AtItem(s, stack) &&
      (var item := Top(stack).items[Top(stack).i];
       && s.objs[item.o].initfinilock == 0 && !PassesOver(s, Top(stack), item) &&
          (item.g.Fini? || s.objs[item.o].inUse))
    case Take => IsRunning(s, stack, false) &&
    GoesOn(WorkOf(s.objs[Top(stack).item.o], Top(stack).item.g), Top(stack).item.g, s.gen == Top(stack).gen)
    case Return => IsRunning(s, stack, true)
    case Exit => IsRunning(s, stack, false) && |stack| > 1 && stack[|stack| - 2].Pass? &&
                 !GoesOn(WorkOf(s.objs[Top(stack).item.o], Top(stack).item.g), Top(stack).item.g,
                         s.gen == Top(stack).gen)
    case EndPass => TopIsPass(stack) && Top(stack).i == |Top(stack).items|
    case _ => true
  }

  function NewObjs(s: State, t: Lwp, a: Action): seq<Obj>
    requires t < |s.stacks| && Enabled(s, t, a)
  {
    var stack := s.stacks[t];
    match a
    case Map(ob) => s.objs + [ob]
    case Use(o, inUse) => s.objs[o := s.objs[o].(inUse := inUse)]
    case Enter => var o := Top(stack).items[Top(stack).i].o; s.objs[o := s.objs[o].(initfinilock := t)]
    case Take =>
      var item := Top(stack).item;
      var ob := s.objs[item.o];
      s.objs[item.o := WithWork(ob, item.g, TakeOne(WorkOf(ob, item.g)))]
    case Exit => var o := Top(stack).item.o; s.objs[o := s.objs[o].(initfinilock := 0)]
    case _ => s.objs
  }

  /** The entry that Take finds is a function to be called. */
  predicate CallsNow(s: State, stack: seq<Frame>)
    requires IsRunning(s, stack, false)
  {
    var w := WorkOf(s.objs[Top(stack).item.o], Top(stack).item.g);
    0 <= Taken(w) < |w.calls| && w.calls[Taken(w)]
  }

  function NewPass(s: State, job: Job, force: bool): Frame {
    Pass(ItemsOf(s.objs, job), 0, s.gen, force, {}, {}, job)
  }

  function NewStack(s: State, t: Lwp, a: Action): seq<Frame>
    requires t < |s.stacks| && Enabled(s, t, a)
  {
    var stack := s.stacks[t];
    match a
    case StartInit(main, list) => stack + [NewPass(s, InitJob(main, list), false)]
    case StartFini(list, force) => stack + [NewPass(s, FiniJob(list), force)]
    case RestartInit(main, list) => Pop(stack) + [NewPass(s, InitJob(main, list), false)]
    case RestartFini(list) => Pop(stack) + [NewPass(s, FiniJob(list), Top(stack).force)]
    case Skip =>
      var pass := Top(stack);
      Pop(stack) + [pass.(i := pass.i + 1, skipped := pass.skipped + {pass.items[pass.i]})]
    case Enter => stack + [Running(Top(stack).items[Top(stack).i], s.gen, None)]
    case Take =>
      if CallsNow(s, stack) then
        Pop(stack) + [Top(stack).(call := Some(Taken(WorkOf(s.objs[Top(stack).item.o], Top(stack).item.g))))]
      else stack
    case Return => Pop(stack) + [Top(stack).(call := None)]
    case Exit =>
      var pass := stack[|stack| - 2];
      if s.gen != Top(stack).gen then Pop(stack)
      else stack[..|stack| - 2] + [pass.(i := pass.i + 1, ran := pass.ran + {Top(stack).item})]
    case EndPass => Pop(stack)
    case _ => stack
  }

  function NewTrace(s: State, t: Lwp, a: Action): seq<Event>
    requires t < |s.stacks| && Enabled(s, t, a)
  {
    var stack := s.stacks[t];
    match a
    case Take =>
      var item := Top(stack).item;
      if CallsNow(s, stack) then s.trace + [Event(item, Taken(WorkOf(s.objs[item.o], item.g)), true)]
      else s.trace
    case Return => s.trace + [Event(Top(stack).item, Top(stack).call.value, false)]
    case _ => s.trace
  }

  /** Functions run without the lock. */
  ghost predicate StepOf(s: State, t: Lwp, a: Action, s': State) {
    && 0 < t < |s.stacks|
    && s.lock == (if a.Acquire? || a.Return? then 0 else t)
    && Enabled(s, t, a)
    && s' == State(if a.Release? || (a.Take? && CallsNow(s, s.stacks[t])) then 0 else t,
                   if a.Change? then s.gen + 1 else s.gen,
                   NewObjs(s, t, a), s.stacks[t := NewStack(s, t, a)], NewTrace(s, t, a))
  }

  ghost predicate Step(s: State, s': State) { exists t: Lwp, a :: StepOf(s, t, a, s') }

  ghost predicate InitState(s: State) {
    && s.objs == [] && s.trace == [] && s.lock == 0 && forall t :: 0 <= t < |s.stacks| ==> s.stacks[t] == []
  }

  ghost predicate StepAt(run: seq<State>, i: nat)
    requires i + 1 < |run|
  {
    Step(run[i], run[i + 1])
  }

  ghost predicate IsRun(run: seq<State>) {
    && run != [] && InitState(run[0]) && forall i: nat :: i + 1 < |run| ==> StepAt(run, i)
  }

  // ---- the order in which functions must run ------------------------------------------------------

  /** The events of one item. */
  function Events(trace: seq<Event>, item: Item): seq<Event> {
    if trace == [] then []
    else
      var e := trace[|trace| - 1];
      Events(trace[..|trace| - 1], item) + if e.item == item then [e] else []
  }

  /** The first n entries, run one after the other: each function is entered and returns before the next. */
  function InOrder(item: Item, calls: seq<bool>, n: nat): seq<Event> {
    if n == 0 then []
    else
      InOrder(item, calls, n - 1) +
      if n <= |calls| && calls[n - 1] then [Event(item, n - 1, true), Event(item, n - 1, false)] else []
  }

  lemma EventsAppend(trace: seq<Event>, e: Event, item: Item)
    ensures Events(trace + [e], item) == Events(trace, item) + if e.item == item then [e] else []
  {}

  // ---- the invariant --------------------------------------------------------------------------------

  /** All entries taken so far were run to the end. */
  ghost predicate Complete(s: State, item: Item)
    requires item.o < |s.objs|
  {
    var w := WorkOf(s.objs[item.o], item.g);
    Taken(w) >= 0 && Events(s.trace, item) == InOrder(item, w.calls, Taken(w))
  }

  /** Entry k, the last one taken, was entered and has not returned. */
  ghost predicate Inside(s: State, item: Item, k: nat)
    requires item.o < |s.objs|
  {
    var w := WorkOf(s.objs[item.o], item.g);
    && Taken(w) == k + 1 <= |w.calls| && w.calls[k]
    && Events(s.trace, item) == InOrder(item, w.calls, k) + [Event(item, k, true)]
  }

  /** Nothing is left to run, and everything that was run has returned. */
  ghost predicate Finished(s: State, item: Item) {
    item.o < |s.objs| && Drained(WorkOf(s.objs[item.o], item.g)) && Complete(s, item)
  }

  ghost predicate ObjOk(s: State, o: Id)
    requires o < |s.objs|
  {
    && (forall g :: WfWork(WorkOf(s.objs[o], g)))
    && (forall g :: Complete(s, Item(o, g)) || exists k: nat :: Inside(s, Item(o, g), k))
    && (s.objs[o].initfinilock == 0 ==> forall g :: Complete(s, Item(o, g)))
  }

  ghost predicate FrameOk(s: State, t: Lwp, f: Frame) {
    match f
    case Pass(items, i, gen, force, ran, skipped, job) =>
      && i <= |items| && gen <= s.gen && OnObjs(s.objs, items)
      && (forall j :: 0 <= j < i ==> items[j] in ran || (items[j].g.Fini? && !force && items[j] in skipped))
      && (forall item :: item in ran ==> Finished(s, item))
    case Running(item, gen, call) =>
      && item.o < |s.objs| && s.objs[item.o].initfinilock == t && gen <= s.gen
      && (forall g :: g != item.g ==> Complete(s, Item(item.o, g)))
      && (if call.None? then Complete(s, item) else Inside(s, item, call.value))
  }

  /** A run sits on the pass whose current item it is, and no object is run twice by one thread. */
  ghost predicate Shape(stack: seq<Frame>) {
    && (forall d :: 0 <= d < |stack| && stack[d].Running? ==> d > 0 && Below(stack[d - 1], stack[d]))
    && (forall d, e ::
          0 <= d < e < |stack| && stack[d].Running? && stack[e].Running? ==> stack[d].item.o != stack[e].item.o)
  }

  predicate Below(pass: Frame, run: Frame)
    requires run.Running?
  {
    pass.Pass? && pass.i < |pass.items| && pass.items[pass.i] == run.item && pass.gen == run.gen
  }

  ghost predicate StackOk(s: State, t: Lwp, stack: seq<Frame>) {
    Shape(stack) && forall d :: 0 <= d < |stack| ==> FrameOk(s, t, stack[d])
  }

  ghost predicate Inv(s: State) {
    && (forall t: Lwp :: t < |s.stacks| ==> StackOk(s, t, s.stacks[t]))
    && (forall o: Id :: o < |s.objs| ==> ObjOk(s, o))
    && (forall i :: 0 <= i < |s.trace| ==> s.trace[i].item.o < |s.objs|)
    && (|s.stacks| > 0 ==> s.stacks[0] == [])
  }

  // ---- what a step leaves alone -----------------------------------------------------------------------

  /** Nothing that matters about o changes. */
  ghost predicate Unaffected(s: State, s': State, o: Id) {
    && o < |s.objs| && o < |s'.objs| && s'.objs[o] == s.objs[o].(inUse := s'.objs[o].inUse)
    && (forall g :: Events(s'.trace, Item(o, g)) == Events(s.trace, Item(o, g)))
  }

  /** Objects stay, the generation does not go back, and what is finished stays finished. */
  ghost predicate Progress(s: State, s': State) {
    && |s.objs| <= |s'.objs| && s.gen <= s'.gen
    && (forall item :: Finished(s, item) ==> Finished(s', item))
  }

  lemma FrameStays(s: State, s': State, t: Lwp, f: Frame)
    requires FrameOk(s, t, f) && Progress(s, s') && (f.Running? ==> Unaffected(s, s', f.item.o))
    ensures FrameOk(s', t, f)
  {}

  lemma ObjStays(s: State, s': State, o: Id)
    requires o < |s.objs| && ObjOk(s, o) && Unaffected(s, s', o)
    ensures ObjOk(s', o)
  {
    forall g ensures WorkOf(s'.objs[o], g) == WorkOf(s.objs[o], g) {}
    forall g ensures Complete(s', Item(o, g)) || exists k: nat :: Inside(s', Item(o, g), k) {
      if !Complete(s, Item(o, g)) {
        var k: nat :| Inside(s, Item(o, g), k);
        assert Inside(s', Item(o, g), k);
      }
    }
    forall g | Complete(s, Item(o, g)) ensures Complete(s', Item(o, g)) {}
  }

  /** The stacks of the other threads: what they run is locked by them, so the step did not touch it. */
  lemma OtherStack(s: State, s': State, u: Lwp)
    requires u < |s.stacks| && StackOk(s, u, s.stacks[u]) && Progress(s, s')
    requires forall o: Id :: o < |s.objs| && s.objs[o].initfinilock == u ==> Unaffected(s, s', o)
    ensures StackOk(s', u, s.stacks[u])
  {}

  /** The frames under the top of the moving thread's stack. */
  lemma LowerFrames(s: State, s': State, t: Lwp, n: nat, o: Id)
    requires t < |s.stacks| && StackOk(s, t, s.stacks[t]) && n <= |s.stacks[t]| && Progress(s, s')
    requires forall x: Id :: x < |s.objs| && x != o ==> Unaffected(s, s', x)
    requires forall d :: 0 <= d < n && s.stacks[t][d].Running? ==> s.stacks[t][d].item.o != o
    ensures forall d :: 0 <= d < n ==> FrameOk(s', t, s.stacks[t][d])
  {
    forall d | 0 <= d < n ensures FrameOk(s', t, s.stacks[t][d]) {
      assert FrameOk(s, t, s.stacks[t][d]);
      FrameStays(s, s', t, s.stacks[t][d]);
    }
  }

  /** The step of thread t touches at most object o, which is free or locked by t, and new objects. */
  ghost predicate Local(s: State, s': State, t: Lwp, o: Id) {
    && 0 < t < |s.stacks| && |s'.stacks| == |s.stacks|
    && (forall u: Lwp :: u < |s.stacks| && u != t ==> s'.stacks[u] == s.stacks[u])
    && Progress(s, s') && (forall x: Id :: x < |s.objs| && x != o ==> Unaffected(s, s', x))
    && (o < |s.objs| ==> s.objs[o].initfinilock == t || s.objs[o].initfinilock == 0)
    && (forall i :: 0 <= i < |s'.trace| ==> s'.trace[i].item.o < |s'.objs|)
  }

  lemma CombineInv(s: State, s': State, t: Lwp, o: Id)
    requires Inv(s) && Local(s, s', t, o) && StackOk(s', t, s'.stacks[t])
    requires forall x: Id :: x < |s'.objs| && (x == o || |s.objs| <= x) ==> ObjOk(s', x)
    ensures Inv(s')
  {
    hide StackOk, ObjOk, Progress, Unaffected;
    forall u: Lwp | u < |s'.stacks| ensures StackOk(s', u, s'.stacks[u]) {
      if u != t {
        if u == 0 { EmptyStack(s', 0); } else { OtherStack(s, s', u); }
      }
    }
    forall x: Id | x < |s'.objs| ensures ObjOk(s', x) {
      if x < |s.objs| && x != o { ObjStays(s, s', x); }
    }
  }

  lemma EmptyStack(s: State, t: Lwp)
    ensures StackOk(s, t, [])
  {}

  lemma {:induction false} NoEvents(trace: seq<Event>, item: Item)
    requires forall i :: 0 <= i < |trace| ==> trace[i].item != item
    ensures Events(trace, item) == []
  {
    if trace != [] { NoEvents(trace[..|trace| - 1], item); }
  }

  lemma FreshOk(s: State, s': State, ob: Obj)
    requires Inv(s) && s'.objs == s.objs + [ob] && s'.trace == s.trace && FreshObj(ob)
    ensures ObjOk(s', |s.objs|)
  {
    var o := |s.objs|;
    forall g ensures Complete(s', Item(o, g)) && WfWork(WorkOf(s'.objs[o], g)) {
      NoEvents(s.trace, Item(o, g));
    }
  }

  // ---- steps that run nothing ---------------------------------------------------------------------------

  predicate Quiet(a: Action) { !a.Enter? && !a.Take? && !a.Return? && !a.Exit? }

  lemma QuietLocal(s: State, t: Lwp, a: Action, s': State)
    requires Inv(s) && StepOf(s, t, a, s') && Quiet(a)
    ensures Local(s, s', t, |s'.objs|)
    ensures |s.objs| < |s'.objs| ==> a.Map? && s'.objs == s.objs + [a.ob]
    ensures s'.trace == s.trace
  {}

  /** The bottom n frames with a pass on top. */
  lemma PassOnTop(s: State, t: Lwp, stack: seq<Frame>, n: nat, f: Frame)
    requires n <= |stack| && Shape(stack) && (forall d :: 0 <= d < n ==> FrameOk(s, t, stack[d])) && f.Pass? &&
             FrameOk(s, t, f)
    ensures StackOk(s, t, stack[..n] + [f])
  {}

  lemma BottomFrames(s: State, t: Lwp, stack: seq<Frame>, n: nat)
    requires n <= |stack| && Shape(stack) && (forall d :: 0 <= d < n ==> FrameOk(s, t, stack[d]))
    ensures StackOk(s, t, stack[..n])
  {}

  lemma QuietStack(s: State, t: Lwp, a: Action, s': State)
    requires Inv(s) && StepOf(s, t, a, s') && Quiet(a)
    ensures StackOk(s', t, s'.stacks[t])
  {
    QuietLocal(s, t, a, s');
    var stack := s.stacks[t];
    assert StackOk(s, t, stack);
    LowerFrames(s, s', t, |stack|, |s'.objs|);
    hide Inv, ObjOk, ItemsOf, StackOk, Shape, Local;
    assert stack[..|stack|] == stack;
    if a.StartInit? || a.StartFini? { PassOnTop(s', t, stack, |stack|, Top(s'.stacks[t])); }
    else if a.RestartInit? || a.RestartFini? { PassOnTop(s', t, stack, |stack| - 1, Top(s'.stacks[t])); }
    else if a.Skip? {
      assert FrameOk(s', t, stack[|stack| - 1]);
      PassOnTop(s', t, stack, |stack| - 1, Top(s'.stacks[t]));
    }
    else if a.EndPass? { BottomFrames(s', t, stack, |stack| - 1); }
    else { BottomFrames(s', t, stack, |stack|); }
  }

  lemma QuietKeepsInv(s: State, t: Lwp, a: Action, s': State)
    requires Inv(s) && StepOf(s, t, a, s') && Quiet(a)
    ensures Inv(s')
  {
    hide Inv, Local, StackOk, ObjOk, NewObjs, NewStack, NewTrace;
    QuietLocal(s, t, a, s');
    QuietStack(s, t, a, s');
    if |s.objs| < |s'.objs| { FreshOk(s, s', a.ob); }
    CombineInv(s, s', t, |s'.objs|);
  }

  // ---- steps that run functions ---------------------------------------------------------------------------

  lemma EnterKeepsInv(s: State, t: Lwp, s': State)
    requires Inv(s) && StepOf(s, t, Enter, s')
    ensures Inv(s')
  {
    var stack := s.stacks[t];
    var item := Top(stack).items[Top(stack).i];
    var o := item.o;
    assert FrameOk(s, t, Top(stack));
    assert ObjOk(s, o);
    assert Local(s, s', t, o);
    forall g ensures Complete(s', Item(o, g)) && WfWork(WorkOf(s'.objs[o], g)) { assert Complete(s, Item(o, g)); }
    assert ObjOk(s', o);
    forall d | 0 <= d < |stack| && stack[d].Running? ensures stack[d].item.o != o { assert FrameOk(s, t, stack[d]); }
    LowerFrames(s, s', t, |stack|, o);
    assert item == Item(o, item.g);
    var st := s'.stacks[t];
    assert st == stack + [Running(item, s.gen, None)];
    assert FrameOk(s', t, st[|stack|]);
    forall d | 0 <= d < |st| && st[d].Running? ensures d > 0 && Below(st[d - 1], st[d]) { }
    assert StackOk(s', t, st);
    CombineInv(s, s', t, o);
  }

  /** The top of the stack runs an object that no frame below runs. */
  lemma TopRuns(s: State, t: Lwp)
    requires Inv(s) && t < |s.stacks| && s.stacks[t] != [] && Top(s.stacks[t]).Running?
    ensures var stack := s.stacks[t];
            && FrameOk(s, t, Top(stack)) && |stack| > 1 && Below(stack[|stack| - 2], Top(stack)) &&
               FrameOk(s, t, stack[|stack| - 2])
            && ObjOk(s, Top(stack).item.o)
            && (forall d :: 0 <= d < |stack| - 1 && stack[d].Running? ==> stack[d].item.o != Top(stack).item.o)
  {}

  /** The new top frame runs the same item on the same pass. */
  lemma SameShape(stack: seq<Frame>, f: Frame)
    requires Shape(stack) && stack != [] && Top(stack).Running? && f.Running? && f.item == Top(stack).item &&
             f.gen == Top(stack).gen
    ensures Shape(Pop(stack) + [f])
  {}

  lemma TakeWork(s: State, item: Item, w': Work)
    requires item.o < |s.objs| && WfWork(WorkOf(s.objs[item.o], item.g)) && Complete(s, item)
    requires w' == TakeOne(WorkOf(s.objs[item.o], item.g)) && !Drained(WorkOf(s.objs[item.o], item.g))
    ensures WfWork(w') && w'.calls == WorkOf(s.objs[item.o], item.g).calls &&
            Taken(w') == Taken(WorkOf(s.objs[item.o], item.g)) + 1
    ensures 0 < Taken(w') <= |w'.calls|
    ensures !w'.calls[Taken(w') - 1] ==> Events(s.trace, item) == InOrder(item, w'.calls, Taken(w'))
  {}

  /** The object after an entry was taken: the entry was a function and was entered, or it was none. */
  lemma TakenObj(s: State, s': State, t: Lwp, item: Item, gen: nat, called: bool)
    requires item.o < |s.objs| == |s'.objs| && ObjOk(s, item.o) && FrameOk(s, t, Running(item, gen, None)) && t > 0
    requires var w := WorkOf(s.objs[item.o], item.g);
             && !Drained(w) && WfWork(w) && s'.objs[item.o] == WithWork(s.objs[item.o], item.g, TakeOne(w))
             && called == (0 <= Taken(w) < |w.calls| && w.calls[Taken(w)])
             && s'.trace == if called then s.trace + [Event(item, Taken(w), true)] else s.trace
    ensures ObjOk(s', item.o) && (forall g :: g != item.g ==> Complete(s', Item(item.o, g)))
    ensures if called then Inside(s', item, Taken(WorkOf(s.objs[item.o], item.g))) else Complete(s', item)
  {
    hide InOrder;
    var w, w' := WorkOf(s.objs[item.o], item.g), WorkOf(s'.objs[item.o], item.g);
    assert item == Item(item.o, item.g);
    TakeWork(s, item, w');
    var e := Event(item, Taken(w), true);
    forall x: Item
      ensures Events(s.trace + [e], x) == Events(s.trace, x) + if x == item then [e] else []
    {
      EventsAppend(s.trace, e, x);
    }
    hide Events;
    if called { assert Inside(s', item, Taken(w)); } else { assert Complete(s', item); }
    forall g | g != item.g ensures Complete(s', Item(item.o, g)) && WfWork(WorkOf(s'.objs[item.o], g)) {
      assert Complete(s, Item(item.o, g)) && WorkOf(s'.objs[item.o], g) == WorkOf(s.objs[item.o], g);
    }
  }

  lemma TakeLocal(s: State, t: Lwp, s': State)
    requires Inv(s) && StepOf(s, t, Take, s')
    ensures Local(s, s', t, Top(s.stacks[t]).item.o)
  {
    TopRuns(s, t);
    hide StackOk, InOrder, ObjOk;
    var item := Top(s.stacks[t]).item;
    assert item == Item(item.o, item.g);
    var e := Event(item, Taken(WorkOf(s.objs[item.o], item.g)), true);
    forall x: Item
      ensures Events(s.trace + [e], x) == Events(s.trace, x) + if x == item then [e] else []
    {
      EventsAppend(s.trace, e, x);
    }
    hide Events;
  }

  lemma TakeObj(s: State, t: Lwp, s': State)
    requires Inv(s) && StepOf(s, t, Take, s')
    ensures var stack := s.stacks[t]; var item := Top(stack).item;
            && Local(s, s', t, item.o) && ObjOk(s', item.o)
            && FrameOk(s', t, Top(s'.stacks[t])) && s'.stacks[t] == Pop(stack) + [Top(s'.stacks[t])]
            && Top(s'.stacks[t]).Running? && Top(s'.stacks[t]).item == item && Top(s'.stacks[t]).gen == Top(stack).gen
  {
    TopRuns(s, t);
    TakeLocal(s, t, s');
    hide StackOk, InOrder, Local, Events, Inv, ObjOk, Complete, Inside;
    var item := Top(s.stacks[t]).item;
    TakenWf(s, item);
    TakenObj(s, s', t, item, Top(s.stacks[t]).gen, CallsNow(s, s.stacks[t]));
  }

  lemma TakenWf(s: State, item: Item)
    requires item.o < |s.objs| && ObjOk(s, item.o)
    ensures WfWork(WorkOf(s.objs[item.o], item.g))
  {}

  /** A step that replaces only the running top frame. */
  lemma TopStepKeepsInv(s: State, t: Lwp, s': State)
    requires Inv(s) && 0 < t < |s.stacks| && s.stacks[t] != [] && Top(s.stacks[t]).Running? && t < |s'.stacks| &&
             s'.stacks[t] != []
    requires var stack := s.stacks[t]; var item := Top(stack).item;
             && Local(s, s', t, item.o) && item.o < |s'.objs| == |s.objs| && ObjOk(s', item.o)
             && FrameOk(s', t, Top(s'.stacks[t])) && s'.stacks[t] == Pop(stack) + [Top(s'.stacks[t])]
             && Top(s'.stacks[t]).Running? && Top(s'.stacks[t]).item == item && Top(s'.stacks[t]).gen == Top(stack).gen
    ensures Inv(s')
  {
    hide ObjOk, FrameOk;
    var stack := s.stacks[t];
    TopRuns(s, t);
    LowerFrames(s, s', t, |stack| - 1, Top(stack).item.o);
    SameShape(stack, Top(s'.stacks[t]));
    CombineInv(s, s', t, Top(stack).item.o);
  }

  lemma ReturnObj(s: State, t: Lwp, s': State)
    requires Inv(s) && StepOf(s, t, Return, s')
    ensures var stack := s.stacks[t]; var item := Top(stack).item;
            && Local(s, s', t, item.o) && ObjOk(s', item.o)
            && FrameOk(s', t, Top(s'.stacks[t])) && s'.stacks[t] == Pop(stack) + [Top(s'.stacks[t])]
            && Top(s'.stacks[t]).Running? && Top(s'.stacks[t]).item == item && Top(s'.stacks[t]).gen == Top(stack).gen
  {
    var stack := s.stacks[t];
    TopRuns(s, t);
    hide StackOk;
    var item, k := Top(stack).item, Top(stack).call.value;
    assert item == Item(item.o, item.g);
    var e := Event(item, k, false);
    forall x: Item
      ensures Events(s.trace + [e], x) == Events(s.trace, x) + if x == item then [e] else []
    {
      EventsAppend(s.trace, e, x);
    }
    assert Complete(s', item);
    forall g | g != item.g ensures Complete(s', Item(item.o, g)) { assert Complete(s, Item(item.o, g)); }
  }

  lemma ExitObj(s: State, t: Lwp, s': State)
    requires Inv(s) && StepOf(s, t, Exit, s')
    ensures Local(s, s', t, Top(s.stacks[t]).item.o) && ObjOk(s', Top(s.stacks[t]).item.o)
    ensures s.gen == Top(s.stacks[t]).gen ==> FrameOk(s', t, Top(s'.stacks[t]))
  {
    var stack := s.stacks[t];
    TopRuns(s, t);
    hide StackOk;
    var item := Top(stack).item;
    assert item == Item(item.o, item.g);
    forall g ensures Complete(s', Item(item.o, g)) && WfWork(WorkOf(s'.objs[item.o], g)) {
      assert Complete(s, Item(item.o, g));
    }
  }

  lemma ExitKeepsInv(s: State, t: Lwp, s': State)
    requires Inv(s) && StepOf(s, t, Exit, s')
    ensures Inv(s')
  {
    var stack := s.stacks[t];
    TopRuns(s, t);
    ExitObj(s, t, s');
    hide ObjOk, FrameOk;
    LowerFrames(s, s', t, |stack| - 1, Top(stack).item.o);
    var st := s'.stacks[t];
    forall d | 0 <= d < |st| ensures FrameOk(s', t, st[d]) {
      if st[d] != stack[d] { assert st[d] == Top(st); }
    }
    forall d | 0 <= d < |st| && st[d].Running? ensures d > 0 && Below(st[d - 1], st[d]) {
      assert st[d] == stack[d] && st[d - 1] == stack[d - 1];
    }
    CombineInv(s, s', t, Top(stack).item.o);
  }

  // ---- the theorems ---------------------------------------------------------------------------------------

  /** Every step of every thread keeps the invariant. */
  lemma StepKeepsInv(s: State, s': State)
    requires Inv(s) && Step(s, s')
    ensures Inv(s')
  {
    var t: Lwp, a :| StepOf(s, t, a, s');
    hide Inv, Local, ObjOk, FrameOk, Enabled, NewObjs, NewStack, NewTrace;
    match a {
      case Enter => EnterKeepsInv(s, t, s');
      case Take => TakeObj(s, t, s'); TakeBasics(s, t, s'); TopStepKeepsInv(s, t, s');
      case Return => ReturnObj(s, t, s'); TakeBasics(s, t, s'); TopStepKeepsInv(s, t, s');
      case Exit => ExitKeepsInv(s, t, s');
      case _ => QuietKeepsInv(s, t, a, s');
    }
  }

  lemma TakeBasics(s: State, t: Lwp, s': State)
    requires StepOf(s, t, Take, s') || StepOf(s, t, Return, s')
    ensures s.stacks[t] != [] && Top(s.stacks[t]).Running? && |s'.stacks| == |s.stacks| && s'.stacks[t] != []
    ensures Top(s.stacks[t]).item.o < |s.objs| == |s'.objs|
  {}

  lemma {:induction false} RunInv(run: seq<State>, i: nat)
    requires IsRun(run) && i < |run|
    ensures Inv(run[i])
  {
    if i > 0 {
      hide Inv, Step;
      RunInv(run, i - 1);
      assert StepAt(run, i - 1);
      StepKeepsInv(run[i - 1], run[i]);
    }
  }

  lemma {:induction false} InOrderPrefix(item: Item, calls: seq<bool>, m: nat, n: nat)
    requires m <= n
    ensures InOrder(item, calls, m) <= InOrder(item, calls, n)
  {
    if m < n { InOrderPrefix(item, calls, m, n - 1); }
  }

  /** What "in order" means: each function is entered and returns before the next, with growing indices. */
  lemma {:induction false} InOrderMeaning(item: Item, calls: seq<bool>, n: nat) returns (ks: seq<nat>)
    ensures Pairs(InOrder(item, calls, n), ks, item)
    ensures forall i, j :: 0 <= i < j < |ks| ==> ks[i] < ks[j]
    ensures forall k: nat :: k in ks <==> k < n && k < |calls| && calls[k]
  {
    ks := [];
    if n > 0 {
      ks := InOrderMeaning(item, calls, n - 1);
      if n <= |calls| && calls[n - 1] {
        AppendPair(InOrder(item, calls, n - 1), ks, item, n - 1);
        ks := ks + [n - 1];
      }
    }
  }

  /** These events are the entries ks, each entered and returned before the next. */
  ghost predicate Pairs(es: seq<Event>, ks: seq<nat>, item: Item) {
    |es| == 2 * |ks| &&
    forall j :: 0 <= j < |ks| ==> es[2 * j] == Event(item, ks[j], true) && es[2 * j + 1] == Event(item, ks[j], false)
  }

  lemma AppendPair(es: seq<Event>, ks: seq<nat>, item: Item, k: nat)
    requires Pairs(es, ks, item) && forall i :: i in ks ==> i < k
    ensures Pairs(es + [Event(item, k, true), Event(item, k, false)], ks + [k], item)
    ensures (forall i, j :: 0 <= i < j < |ks| ==> ks[i] < ks[j]) ==>
              forall i, j :: 0 <= i < j < |ks + [k]| ==> (ks + [k])[i] < (ks + [k])[j]
    ensures forall i: nat :: i in ks + [k] <==> i in ks || i == k
  {
    assert forall i :: 0 <= i < |ks| ==> ks[i] in ks;
  }

  /**
   Exactly once: across all restarts and threads, the functions of an object are entered and
   return in array order, each at most once and none before its predecessor returned.
   */
  lemma RunsInOrder(run: seq<State>, i: nat, item: Item)
    requires IsRun(run) && i < |run| && item.o < |run[i].objs|
    ensures Events(run[i].trace, item) <= InOrder(item, WorkOf(run[i].objs[item.o], item.g).calls,
                   |WorkOf(run[i].objs[item.o], item.g).calls|)
  {
    RunInv(run, i);
    var s := run[i];
    assert ObjOk(s, item.o) && item == Item(item.o, item.g);
    var w := WorkOf(s.objs[item.o], item.g);
    assert WfWork(w);
    InOrderPrefix(item, w.calls, Taken(w), |w.calls|);
    if !Complete(s, item) {
      var k: nat :| Inside(s, item, k);
      assert InOrder(item, w.calls, k) + [Event(item, k, true)] <= InOrder(item, w.calls, k + 1);
    }
  }

  /** Everything of the group was run to its end. */
  ghost predicate AllRun(s: State, item: Item) {
    item.o < |s.objs| &&
    (var w := WorkOf(s.objs[item.o], item.g); Drained(w) && Events(s.trace, item) == InOrder(item, w.calls, |w.calls|))
  }

  predicate SamePass(f: Frame, pass: Frame) {
    f.Pass? && pass.Pass? && f.items == pass.items && f.gen == pass.gen && f.force == pass.force && f.job == pass.job
  }

  /** In step j of the run, this pass, at depth d of the stack of t, left the item out because its object was in use. */
  ghost predicate LeftOut(run: seq<State>, j: nat, t: Lwp, d: nat, pass: Frame, item: Item) {
    && j + 1 < |run| && StepOf(run[j], t, Skip, run[j + 1]) && d == |run[j].stacks[t]| - 1 &&
       SamePass(run[j].stacks[t][d], pass)
    && run[j].stacks[t][d].items[run[j].stacks[t][d].i] == item && item.g.Fini? && !pass.force &&
       run[j].objs[item.o].inUse
  }

  lemma SkippedFrom(s: State, u: Lwp, a: Action, s': State, t: Lwp, d: nat, item: Item)
    requires StepOf(s, u, a, s') && t < |s'.stacks| && d < |s'.stacks[t]| && s'.stacks[t][d].Pass? &&
             item in s'.stacks[t][d].skipped
    ensures d < |s.stacks[t]| && SamePass(s.stacks[t][d], s'.stacks[t][d])
    ensures item in s.stacks[t][d].skipped ||
            (u == t && a.Skip? && d == |s.stacks[t]| - 1 && s.stacks[t][d].items[s.stacks[t][d].i] == item)
  {
    hide ItemsOf, WorkOf, NewObjs, NewTrace;
  }

  lemma {:induction false} SkippedBefore(run: seq<State>, i: nat, t: Lwp, d: nat, item: Item) returns (j: nat)
    requires IsRun(run) && i < |run| && t < |run[i].stacks| && d < |run[i].stacks[t]| && run[i].stacks[t][d].Pass?
    requires item in run[i].stacks[t][d].skipped
    ensures j < i && LeftOut(run, j, t, d, run[i].stacks[t][d], item)
  {
    assert i > 0;
    assert StepAt(run, i - 1);
    var u: Lwp, a :| StepOf(run[i - 1], u, a, run[i]);
    SkippedFrom(run[i - 1], u, a, run[i], t, d, item);
    if item in run[i - 1].stacks[t][d].skipped { j := SkippedBefore(run, i - 1, t, d, item); } else { j := i - 1; }
  }

  /**
   A pass that reached its end without a restart leaves nothing outstanding: of every item that
   it listed, all functions were run to their end, or it is a destructor item, the pass is not
   forced, and the object was in use when the pass came to it.
   */
  lemma PassLeavesNothing(run: seq<State>, i: nat, t: Lwp, item: Item)
    requires IsRun(run) && i < |run| && t < |run[i].stacks| && TopIsPass(run[i].stacks[t])
    requires var pass := Top(run[i].stacks[t]); pass.i == |pass.items| && item in pass.items
    ensures var d := |run[i].stacks[t]| - 1;
            AllRun(run[i], item) || exists j :: 0 <= j < i && LeftOut(run, j, t, d, run[i].stacks[t][d], item)
  {
    RunInv(run, i);
    var s := run[i];
    var d := |s.stacks[t]| - 1;
    assert StackOk(s, t, s.stacks[t]);
    assert FrameOk(s, t, s.stacks[t][d]);
    var pass := s.stacks[t][d];
    if item in pass.ran {
      RanIsRun(s, item);
    } else {
      var j := SkippedBefore(run, i, t, d, item);
    }
  }

  lemma RanIsRun(s: State, item: Item)
    requires Inv(s) && Finished(s, item)
    ensures AllRun(s, item)
  {
    assert ObjOk(s, item.o);
    assert WfWork(WorkOf(s.objs[item.o], item.g));
  }

  /** A forced pass leaves nothing out, and neither does a pass of constructors or resolvers. */
  lemma ForcedLeavesNothing(run: seq<State>, i: nat, t: Lwp, item: Item)
    requires IsRun(run) && i < |run| && t < |run[i].stacks| && TopIsPass(run[i].stacks[t])
    requires var pass := Top(run[i].stacks[t]);
             pass.i == |pass.items| && item in pass.items && (pass.force || !item.g.Fini?)
    ensures AllRun(run[i], item)
  {
    PassLeavesNothing(run, i, t, item);
  }

  /** At most one thread is inside the functions of an object, and only in one of them. */
  lemma OneInside(run: seq<State>, i: nat, t: Lwp, d: nat, u: Lwp, e: nat)
    requires IsRun(run) && i < |run| && t < |run[i].stacks| && d < |run[i].stacks[t]| && u < |run[i].stacks| &&
             e < |run[i].stacks[u]|
    requires run[i].stacks[t][d].Running? && run[i].stacks[u][e].Running? &&
             run[i].stacks[t][d].item.o == run[i].stacks[u][e].item.o
    ensures t == u && d == e
  {
    RunInv(run, i);
    assert StackOk(run[i], t, run[i].stacks[t]) && StackOk(run[i], u, run[i].stacks[u]);
    assert FrameOk(run[i], t, run[i].stacks[t][d]) && FrameOk(run[i], u, run[i].stacks[u][e]);
  }
}

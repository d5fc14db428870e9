/**
 The order of constructors, resolvers and destructors across objects, told from what a pass was
 started for: resolvers before constructors, DF_1_INITFIRST objects before the others, the others
 in the order of the list, and for destructors the other way round.
 */
module InitPhases {
  import opened InitRuns
  import opened Options

  // ---- a pass goes over what it was started for ---------------------------------------------------

  ghost predicate JobOk(s: State, f: Frame) {
    f.Pass? ==> f.items == ItemsOf(s.objs, f.job) && OnObjs(s.objs, f.items)
  }

  ghost predicate JobsOk(s: State) {
    forall t: Lwp, d: nat :: t < |s.stacks| && d < |s.stacks[t]| ==> JobOk(s, s.stacks[t][d])
  }

  /** Objects stay where they are and keep their mark. */
  ghost predicate MarksStay(objs: seq<Obj>, objs': seq<Obj>) {
    |objs| <= |objs'| && forall o: Id :: o < |objs| ==> objs'[o].initfirst == objs[o].initfirst
  }

  lemma StepMarks(s: State, t: Lwp, a: Action, s': State)
    requires StepOf(s, t, a, s')
    ensures MarksStay(s.objs, s'.objs)
  {
    hide NewStack, NewTrace, ItemsOf, GoesOn;
  }

  lemma {:induction false} SelectStays(objs: seq<Obj>, objs': seq<Obj>, list: seq<Id>, initfirst: bool)
    requires MarksStay(objs, objs') && forall o :: o in list ==> o < |objs|
    ensures Select(objs', list, initfirst) == Select(objs, list, initfirst)
  {
    if list != [] {
      assert list[0] in list && forall o :: o in list[1..] ==> o in list;
      SelectStays(objs, objs', list[1..], initfirst);
    }
  }

  /** Everything on the list is an object. */
  lemma ListOnObjs(objs: seq<Obj>, job: Job)
    requires OnObjs(objs, ItemsOf(objs, job))
    ensures forall o :: o in job.list ==> o < |objs|
  {
    var n := |job.list|;
    var items := ItemsOf(objs, job);
    forall k | 0 <= k < n ensures job.list[k] < |objs| {
      assert items[|items| - n + k].o == job.list[k];
    }
  }

  lemma ItemsStay(objs: seq<Obj>, objs': seq<Obj>, job: Job)
    requires OnObjs(objs, ItemsOf(objs, job)) && MarksStay(objs, objs')
    ensures ItemsOf(objs', job) == ItemsOf(objs, job) && OnObjs(objs', ItemsOf(objs', job))
  {
    ListOnObjs(objs, job);
    SelectStays(objs, objs', job.list, true);
    SelectStays(objs, objs', job.list, false);
  }

  /** A step leaves a pass what it is, or it starts it. */
  lemma PassFrom(s: State, u: Lwp, a: Action, s': State, t: Lwp, d: nat)
    requires StepOf(s, u, a, s') && t < |s'.stacks| && d < |s'.stacks[t]| && s'.stacks[t][d].Pass?
    ensures |s'.stacks| == |s.stacks|
    ensures if d < |s.stacks[t]| && SamePass(s.stacks[t][d], s'.stacks[t][d]) then true
            else Starts(s, u, a, s', t, d)
  {
    hide ItemsOf, WorkOf, NewObjs, NewTrace;
  }

  /** The step starts or restarts the pass at depth d of the stack of t. */
  ghost predicate Starts(s: State, u: Lwp, a: Action, s': State, t: Lwp, d: nat) {
    && u == t && t < |s'.stacks| && d == |s'.stacks[t]| - 1 && s'.stacks[t][d].Pass? && s'.stacks[t][d].i == 0
    && s'.stacks[t][d].gen == s.gen && s'.stacks[t][d].items == ItemsOf(s.objs, s'.stacks[t][d].job)
    && OnObjs(s.objs, s'.stacks[t][d].items)
    && match s'.stacks[t][d].job
       case InitJob(main, list) => a == StartInit(main, list) || a == RestartInit(main, list)
       case FiniJob(list) => a == StartFini(list, s'.stacks[t][d].force) || a == RestartFini(list)
  }

  lemma JobStays(s: State, u: Lwp, a: Action, s': State, t: Lwp, d: nat)
    requires StepOf(s, u, a, s') && JobsOk(s) && t < |s'.stacks| && d < |s'.stacks[t]|
    ensures JobOk(s', s'.stacks[t][d])
  {
    if s'.stacks[t][d].Pass? {
      PassFrom(s, u, a, s', t, d);
      StepMarks(s, u, a, s');
      hide StepOf, ItemsOf;
      if d < |s.stacks[t]| && SamePass(s.stacks[t][d], s'.stacks[t][d]) { assert JobOk(s, s.stacks[t][d]); }
      ItemsStay(s.objs, s'.objs, s'.stacks[t][d].job);
    }
  }

  lemma {:induction false} RunJobs(run: seq<State>, i: nat)
    requires IsRun(run) && i < |run|
    ensures JobsOk(run[i])
  {
    if i > 0 {
      hide StepOf, JobOk;
      RunJobs(run, i - 1);
      assert StepAt(run, i - 1);
      var u: Lwp, a :| StepOf(run[i - 1], u, a, run[i]);
      forall t: Lwp, d: nat | t < |run[i].stacks| && d < |run[i].stacks[t]| ensures JobOk(run[i], run[i].stacks[t][d]) {
        JobStays(run[i - 1], u, a, run[i], t, d);
      }
    }
  }

  /** What a pass is for is what it was last started or restarted with, in one earlier step. */
  lemma {:induction false} StartedBefore(run: seq<State>, i: nat, t: Lwp, d: nat) returns (j: nat, a: Action)
    requires IsRun(run) && i < |run| && t < |run[i].stacks| && d < |run[i].stacks[t]| && run[i].stacks[t][d].Pass?
    ensures j < i && StepOf(run[j], t, a, run[j + 1]) && Starts(run[j], t, a, run[j + 1], t, d)
    ensures SamePass(run[j + 1].stacks[t][d], run[i].stacks[t][d])
  {
    assert i > 0;
    assert StepAt(run, i - 1);
    hide StepOf, Starts;
    var u: Lwp, b :| StepOf(run[i - 1], u, b, run[i]);
    PassFrom(run[i - 1], u, b, run[i], t, d);
    if d < |run[i - 1].stacks[t]| && SamePass(run[i - 1].stacks[t][d], run[i].stacks[t][d]) {
      j, a := StartedBefore(run, i - 1, t, d);
    } else {
      j, a := i - 1, b;
      StartsBy(run[j], u, a, run[i], t, d);
    }
  }

  lemma StartsBy(s: State, u: Lwp, a: Action, s': State, t: Lwp, d: nat)
    requires Starts(s, u, a, s', t, d)
    ensures u == t && s'.stacks[t][d].Pass?
  {}

  // ---- where things are in a pass --------------------------------------------------------------------

  lemma {:induction false} SelectIs(objs: seq<Obj>, list: seq<Id>, initfirst: bool)
    ensures forall o :: o in Select(objs, list, initfirst) <==>
                          o in list && o < |objs| && objs[o].initfirst == initfirst
  {
    if list != [] {
      SelectIs(objs, list[1..], initfirst);
      assert list == [list[0]] + list[1..];
    }
  }

  lemma SelectHead(objs: seq<Obj>, list: seq<Id>, initfirst: bool)
    requires list != []
    ensures Select(objs, list, initfirst) ==
            (if list[0] < |objs| && objs[list[0]].initfirst == initfirst then [list[0]] else []) +
            Select(objs, list[1..], initfirst)
  {}

  /** What comes before the first place of o on the list is selected before o is. */
  lemma {:induction false} SelectBefore(objs: seq<Obj>, list: seq<Id>, initfirst: bool, a: nat, b: nat, k: nat)
    returns (j: nat)
    requires a < b < |list| && list[b] !in list[..b]
    requires k < |Select(objs, list, initfirst)| && Select(objs, list, initfirst)[k] == list[b]
    requires list[a] < |objs| && objs[list[a]].initfirst == initfirst
    ensures j < k && Select(objs, list, initfirst)[j] == list[a]
  {
    SelectHead(objs, list, initfirst);
    hide Select;
    assert list[..b][0] == list[0] && list[0] != list[b];
    if a == 0 {
      j := 0;
    } else {
      var n := if list[0] < |objs| && objs[list[0]].initfirst == initfirst then 1 else 0;
      assert list[1..][..b - 1] == list[..b][1..];
      var i := SelectBefore(objs, list[1..], initfirst, a - 1, b - 1, k - n);
      j := i + n;
    }
  }

  lemma InitItemsAt(objs: seq<Obj>, main: Id, list: seq<Id>)
    ensures var items, n, m := ItemsOf(objs, InitJob(main, list)), |list|, |Select(objs, list, true)|;
            && |items| == 2 * n + 1 + m && items[n] == Item(main, Ifunc)
            && (forall k :: 0 <= k < n ==> items[k] == Item(list[k], Ifunc))
            && (forall k :: n < k <= n + m ==> items[k] == Item(Select(objs, list, true)[k - n - 1], Init))
            && (forall k :: n + m < k <= 2 * n + m ==> items[k] == Item(list[k - n - 1 - m], Init))
  {
    hide Select;
    var a, b, c := Each(list, Ifunc) + [Item(main, Ifunc)], Each(Select(objs, list, true), Init), Each(list, Init);
    assert ItemsOf(objs, InitJob(main, list)) == a + b + c;
    hide ItemsOf;
    PartsAt(a, b, c);
    EachAt(list, Ifunc);
    EachAt(Select(objs, list, true), Init);
    EachAt(list, Init);
    hide Each;
  }

  lemma EachAt(list: seq<Id>, g: Group)
    ensures |Each(list, g)| == |list| && forall k :: 0 <= k < |list| ==> Each(list, g)[k] == Item(list[k], g)
  {}

  lemma PartsAt(a: seq<Item>, b: seq<Item>, c: seq<Item>)
    ensures |a + b + c| == |a| + |b| + |c|
    ensures forall k :: 0 <= k < |a| ==> (a + b + c)[k] == a[k]
    ensures forall k :: |a| <= k < |a| + |b| ==> (a + b + c)[k] == b[k - |a|]
    ensures forall k :: |a| + |b| <= k < |a| + |b| + |c| ==> (a + b + c)[k] == c[k - |a| - |b|]
  {}

  lemma FiniItemsAt(objs: seq<Obj>, list: seq<Id>)
    ensures var items, m := ItemsOf(objs, FiniJob(list)), |Select(objs, list, false)|;
            && |items| == m + |list|
            && (forall k :: 0 <= k < m ==> items[k] == Item(Select(objs, list, false)[k], Fini))
            && (forall k :: m <= k < m + |list| ==> items[k] == Item(list[k - m], Fini))
  {}

  /** Everything that a pass has behind it was run to its end, or left out in an earlier step. */
  ghost predicate Done(run: seq<State>, i: nat, t: Lwp, item: Item)
    requires i < |run| && t < |run[i].stacks| && run[i].stacks[t] != []
  {
    var d := |run[i].stacks[t]| - 1;
    AllRun(run[i], item) || exists j :: 0 <= j < i && LeftOut(run, j, t, d, run[i].stacks[t][d], item)
  }

  lemma BehindIsDone(run: seq<State>, i: nat, t: Lwp, k: nat)
    requires IsRun(run) && i < |run| && t < |run[i].stacks| && TopIsPass(run[i].stacks[t])
    requires k < Top(run[i].stacks[t]).i && k < |Top(run[i].stacks[t]).items|
    ensures Done(run, i, t, Top(run[i].stacks[t]).items[k])
    ensures !Top(run[i].stacks[t]).items[k].g.Fini? || Top(run[i].stacks[t]).force ==>
              AllRun(run[i], Top(run[i].stacks[t]).items[k])
  {
    RunInv(run, i);
    var s := run[i];
    var d := |s.stacks[t]| - 1;
    assert StackOk(s, t, s.stacks[t]);
    assert FrameOk(s, t, s.stacks[t][d]);
    var pass := s.stacks[t][d];
    if pass.items[k] in pass.ran {
      RanIsRun(s, pass.items[k]);
    } else {
      var j := SkippedBefore(run, i, t, d, pass.items[k]);
    }
  }

  lemma RunBehind(run: seq<State>, i: nat, t: Lwp, k: nat, item: Item)
    requires IsRun(run) && i < |run| && t < |run[i].stacks| && TopIsPass(run[i].stacks[t])
    requires k < Top(run[i].stacks[t]).i && k < |Top(run[i].stacks[t]).items|
    requires Top(run[i].stacks[t]).items[k] == item && !item.g.Fini?
    ensures AllRun(run[i], item)
  {
    BehindIsDone(run, i, t, k);
  }

  // ---- the theorems -----------------------------------------------------------------------------------

  /** Thread t enters the item in step i. */
  ghost predicate Enters(run: seq<State>, i: nat, t: Lwp, item: Item) {
    && i + 1 < |run| && StepOf(run[i], t, Enter, run[i + 1]) && TopIsPass(run[i].stacks[t])
    && run[i + 1].stacks[t] != [] && Top(run[i + 1].stacks[t]).Running? && Top(run[i + 1].stacks[t]).item == item
  }

  /** The item that is entered is the one that the pass is at. */
  lemma EntersAt(run: seq<State>, i: nat, t: Lwp, item: Item)
    requires IsRun(run) && Enters(run, i, t, item)
    ensures i < |run| && t < |run[i].stacks| && TopIsPass(run[i].stacks[t])
    ensures var pass := Top(run[i].stacks[t]);
            pass.i < |pass.items| && pass.items[pass.i] == item && PassIs(run[i], pass)
  {
    TopPassIs(run, i, t);
  }

  /** The items of the pass are those of its job, and these are on objects. */
  ghost predicate PassIs(s: State, pass: Frame) {
    pass.Pass? && pass.items == ItemsOf(s.objs, pass.job) && forall o :: o in pass.job.list ==> o < |s.objs|
  }

  lemma TopPassIs(run: seq<State>, i: nat, t: Lwp)
    requires IsRun(run) && i < |run| && t < |run[i].stacks| && TopIsPass(run[i].stacks[t])
    ensures PassIs(run[i], Top(run[i].stacks[t]))
  {
    RunJobs(run, i);
    assert JobOk(run[i], run[i].stacks[t][|run[i].stacks[t]| - 1]);
    ListOnObjs(run[i].objs, Top(run[i].stacks[t]).job);
  }

  /** The parts of a pass of constructors. */
  lemma InitPlace(objs: seq<Obj>, main: Id, list: seq<Id>, k: nat)
    requires k < |ItemsOf(objs, InitJob(main, list))|
    ensures var item, n, first := ItemsOf(objs, InitJob(main, list))[k], |list|, Select(objs, list, true);
            if k <= n then item.g.Ifunc? && (item.o == main || item.o in list)
            else if k <= n + |first| then item.g.Init? && item.o == first[k - n - 1]
            else item.g.Init? && k - n - 1 - |first| < n && item.o == list[k - n - 1 - |first|]
  {
    InitItemsAt(objs, main, list);
    hide ItemsOf, Select;
  }

  /** A pass of constructors enters resolvers of listed objects and the main program, and constructors of the former. */
  lemma InitEntersListed(run: seq<State>, i: nat, t: Lwp, item: Item)
    requires IsRun(run) && Enters(run, i, t, item) && Top(run[i].stacks[t]).job.InitJob?
    ensures var job := Top(run[i].stacks[t]).job;
            !item.g.Fini? && (item.o in job.list || (item.g.Ifunc? && item.o == job.main))
  {
    EntersAt(run, i, t, item);
    var pass := Top(run[i].stacks[t]);
    SelectIs(run[i].objs, pass.job.list, true);
    hide ItemsOf, Select, StepOf;
    InitPlace(run[i].objs, pass.job.main, pass.job.list, pass.i);
    var first := Select(run[i].objs, pass.job.list, true);
    assert |pass.job.list| < pass.i <= |pass.job.list| + |first| ==> item.o in first;
  }

  /** All resolvers are behind a pass that has come to constructors. */
  lemma ResolversBehind(run: seq<State>, i: nat, t: Lwp, x: Id)
    requires IsRun(run) && i < |run| && t < |run[i].stacks| && TopIsPass(run[i].stacks[t])
    requires var pass := Top(run[i].stacks[t]);
             PassIs(run[i], pass) && pass.job.InitJob? && pass.i > |pass.job.list| &&
             (x in pass.job.list || x == pass.job.main)
    ensures AllRun(run[i], Item(x, Ifunc))
  {
    var pass := Top(run[i].stacks[t]);
    var list, main := pass.job.list, pass.job.main;
    InitItemsAt(run[i].objs, main, list);
    hide ItemsOf, Select, AllRun, IsRun;
    if x == main {
      RunBehind(run, i, t, |list|, Item(x, Ifunc));
    } else {
      var k :| 0 <= k < |list| && list[k] == x;
      RunBehind(run, i, t, k, Item(x, Ifunc));
    }
  }

  /** The INITFIRST constructors are behind a pass that has come to the others. */
  lemma FirstBehind(run: seq<State>, i: nat, t: Lwp, x: Id)
    requires IsRun(run) && i < |run| && t < |run[i].stacks| && TopIsPass(run[i].stacks[t])
    requires var pass := Top(run[i].stacks[t]);
             PassIs(run[i], pass) && pass.job.InitJob? && x in pass.job.list && run[i].objs[x].initfirst &&
             pass.i > |pass.job.list| + |Select(run[i].objs, pass.job.list, true)|
    ensures AllRun(run[i], Item(x, Init))
  {
    var pass := Top(run[i].stacks[t]);
    var list, first := pass.job.list, Select(run[i].objs, pass.job.list, true);
    InitItemsAt(run[i].objs, pass.job.main, list);
    SelectIs(run[i].objs, list, true);
    hide ItemsOf, Select, AllRun, IsRun;
    var k :| 0 <= k < |first| && first[k] == x;
    RunBehind(run, i, t, |list| + 1 + k, Item(x, Init));
  }

  /**
   When a pass comes to the constructors of an object, all resolvers of the listed objects and of
   the main program have run; unless the object is INITFIRST, so have the constructors of all
   listed INITFIRST objects.
   */
  lemma ResolversFirst(run: seq<State>, i: nat, t: Lwp, o: Id)
    requires IsRun(run) && Enters(run, i, t, Item(o, Init)) && Top(run[i].stacks[t]).job.InitJob?
    ensures var job := Top(run[i].stacks[t]).job;
            && (forall x :: x in job.list || x == job.main ==> AllRun(run[i], Item(x, Ifunc)))
            && o in job.list && o < |run[i].objs|
            && (!run[i].objs[o].initfirst ==>
                  forall x :: x in job.list && x < |run[i].objs| && run[i].objs[x].initfirst ==>
                    AllRun(run[i], Item(x, Init)))
  {
    EntersAt(run, i, t, Item(o, Init));
    InitEntersListed(run, i, t, Item(o, Init));
    var pass, objs := Top(run[i].stacks[t]), run[i].objs;
    var list, main := pass.job.list, pass.job.main;
    var first := Select(objs, list, true);
    InitPlace(objs, main, list, pass.i);
    SelectIs(objs, list, true);
    hide ItemsOf, Select, StepOf, AllRun, IsRun, Enters;
    forall x | x in list || x == main ensures AllRun(run[i], Item(x, Ifunc)) { ResolversBehind(run, i, t, x); }
    if !objs[o].initfirst {
      assert pass.i > |list| + |first|;
      forall x | x in list && objs[x].initfirst ensures AllRun(run[i], Item(x, Init)) { FirstBehind(run, i, t, x); }
    }
  }

  /** Constructors run in the order of the list among the INITFIRST objects and among the others. */
  lemma ConstructorsInOrder(run: seq<State>, i: nat, t: Lwp, a: nat, b: nat)
    requires IsRun(run) && i < |run| && t < |run[i].stacks| && TopIsPass(run[i].stacks[t])
    requires Top(run[i].stacks[t]).job.InitJob? && a < b < |Top(run[i].stacks[t]).job.list|
    requires var list := Top(run[i].stacks[t]).job.list;
             && list[b] !in list[..b] && Enters(run, i, t, Item(list[b], Init))
             && list[a] < |run[i].objs| && list[b] < |run[i].objs|
             && run[i].objs[list[a]].initfirst == run[i].objs[list[b]].initfirst
    ensures AllRun(run[i], Item(Top(run[i].stacks[t]).job.list[a], Init))
  {
    var pass := Top(run[i].stacks[t]);
    var list := pass.job.list;
    EntersAt(run, i, t, Item(list[b], Init));
    hide ItemsOf, StepOf, AllRun, IsRun, Enters;
    var j := EarlierPlace(run[i].objs, pass.job.main, list, a, b, pass.i);
    RunBehind(run, i, t, j, Item(list[a], Init));
  }

  lemma EarlierPlace(objs: seq<Obj>, main: Id, list: seq<Id>, a: nat, b: nat, i: nat) returns (j: nat)
    requires a < b < |list| && list[b] !in list[..b] && list[a] < |objs| && list[b] < |objs|
    requires objs[list[a]].initfirst == objs[list[b]].initfirst
    requires i < |ItemsOf(objs, InitJob(main, list))| && ItemsOf(objs, InitJob(main, list))[i] == Item(list[b], Init)
    ensures j < i && ItemsOf(objs, InitJob(main, list))[j] == Item(list[a], Init)
  {
    var n, m := |list|, |Select(objs, list, true)|;
    InitPlace(objs, main, list, i);
    hide ItemsOf, Select;
    if i <= n + m {
      j := EarlierFirst(objs, main, list, a, b, i);
    } else {
      NotBefore(list, b, i - n - 1 - m);
      InitItemsAt(objs, main, list);
      j := n + 1 + m + a;
    }
  }

  lemma EarlierFirst(objs: seq<Obj>, main: Id, list: seq<Id>, a: nat, b: nat, i: nat) returns (j: nat)
    requires a < b < |list| && list[b] !in list[..b] && list[a] < |objs| && list[b] < |objs|
    requires objs[list[a]].initfirst == objs[list[b]].initfirst
    requires |list| < i <= |list| + |Select(objs, list, true)| && Select(objs, list, true)[i - |list| - 1] == list[b]
    ensures j < i < |ItemsOf(objs, InitJob(main, list))| && ItemsOf(objs, InitJob(main, list))[j] == Item(list[a], Init)
  {
    var first := Select(objs, list, true);
    SelectIs(objs, list, true);
    assert first[i - |list| - 1] in first;
    hide Select, ItemsOf;
    var k := SelectBefore(objs, list, true, a, b, i - |list| - 1);
    InitItemsAt(objs, main, list);
    j := |list| + 1 + k;
  }

  lemma NotBefore(list: seq<Id>, b: nat, k: nat)
    requires b < |list| && k < |list| && list[b] !in list[..b] && list[k] == list[b]
    ensures b <= k
  {
    assert forall j :: 0 <= j < b ==> list[..b][j] == list[j];
  }

  /** At the end of a pass of constructors every resolver and constructor that it was for has run. */
  lemma InitPassComplete(run: seq<State>, i: nat, t: Lwp)
    requires IsRun(run) && i < |run| && t < |run[i].stacks| && TopIsPass(run[i].stacks[t])
    requires var pass := Top(run[i].stacks[t]); pass.i == |pass.items| && pass.job.InitJob?
    ensures var job := Top(run[i].stacks[t]).job;
            && AllRun(run[i], Item(job.main, Ifunc))
            && forall x :: x in job.list ==> AllRun(run[i], Item(x, Ifunc)) && AllRun(run[i], Item(x, Init))
  {
    TopPassIs(run, i, t);
    var pass, objs := Top(run[i].stacks[t]), run[i].objs;
    var list, main := pass.job.list, pass.job.main;
    InitItemsAt(objs, main, list);
    hide ItemsOf, AllRun, IsRun;
    var n, m := |list|, |Select(objs, list, true)|;
    ResolversBehind(run, i, t, main);
    forall x | x in list ensures AllRun(run[i], Item(x, Ifunc)) && AllRun(run[i], Item(x, Init)) {
      ResolversBehind(run, i, t, x);
      var k :| 0 <= k < |list| && list[k] == x;
      RunBehind(run, i, t, n + 1 + m + k, Item(x, Init));
    }
  }

  // ---- destructors --------------------------------------------------------------------------------------

  lemma DoneBehind(run: seq<State>, i: nat, t: Lwp, k: nat, item: Item)
    requires IsRun(run) && i < |run| && t < |run[i].stacks| && TopIsPass(run[i].stacks[t])
    requires k < Top(run[i].stacks[t]).i && k < |Top(run[i].stacks[t]).items| && Top(run[i].stacks[t]).items[k] == item
    ensures Done(run, i, t, item) && (Top(run[i].stacks[t]).force ==> AllRun(run[i], item))
  {
    BehindIsDone(run, i, t, k);
  }

  lemma FiniPlace(objs: seq<Obj>, list: seq<Id>, k: nat)
    requires k < |ItemsOf(objs, FiniJob(list))|
    ensures var item, others := ItemsOf(objs, FiniJob(list))[k], Select(objs, list, false);
            item.g.Fini? &&
            if k < |others| then item.o == others[k] else k - |others| < |list| && item.o == list[k - |others|]
  {
    FiniItemsAt(objs, list);
    hide ItemsOf, Select;
  }

  /**
   A pass of destructors enters destructors of listed objects only.  When it comes to an INITFIRST
   object, it is done with all listed objects that are not: their destructors were run to the end,
   or left out in an earlier step because the object was in use.
   */
  lemma InitfirstLast(run: seq<State>, i: nat, t: Lwp, item: Item)
    requires IsRun(run) && Enters(run, i, t, item) && Top(run[i].stacks[t]).job.FiniJob?
    ensures var list := Top(run[i].stacks[t]).job.list;
            && item.g.Fini? && item.o in list && item.o < |run[i].objs|
            && (run[i].objs[item.o].initfirst ==>
                  forall x :: x in list && x < |run[i].objs| && !run[i].objs[x].initfirst ==>
                    Done(run, i, t, Item(x, Fini)))
  {
    EntersAt(run, i, t, item);
    var pass, objs := Top(run[i].stacks[t]), run[i].objs;
    var list, others := pass.job.list, Select(objs, pass.job.list, false);
    FiniItemsAt(objs, list);
    FiniPlace(objs, list, pass.i);
    SelectIs(objs, list, false);
    hide ItemsOf, Select, StepOf, Done, AllRun, IsRun, Enters;
    if pass.i < |others| { assert item.o in others; }
    if objs[item.o].initfirst {
      forall x | x in list && !objs[x].initfirst ensures Done(run, i, t, Item(x, Fini)) {
        var k :| 0 <= k < |others| && others[k] == x;
        DoneBehind(run, i, t, k, Item(x, Fini));
      }
    }
  }

  /** Destructors run in the order of the list among the INITFIRST objects and among the others. */
  lemma DestructorsInOrder(run: seq<State>, i: nat, t: Lwp, a: nat, b: nat)
    requires IsRun(run) && i < |run| && t < |run[i].stacks| && TopIsPass(run[i].stacks[t])
    requires Top(run[i].stacks[t]).job.FiniJob? && a < b < |Top(run[i].stacks[t]).job.list|
    requires var list := Top(run[i].stacks[t]).job.list;
             && list[b] !in list[..b] && Enters(run, i, t, Item(list[b], Fini))
             && list[a] < |run[i].objs| && list[b] < |run[i].objs|
             && run[i].objs[list[a]].initfirst == run[i].objs[list[b]].initfirst
    ensures Done(run, i, t, Item(Top(run[i].stacks[t]).job.list[a], Fini))
  {
    var pass, objs := Top(run[i].stacks[t]), run[i].objs;
    var list := pass.job.list;
    EntersAt(run, i, t, Item(list[b], Fini));
    var others := Select(objs, list, false);
    FiniItemsAt(objs, list);
    FiniPlace(objs, list, pass.i);
    SelectIs(objs, list, false);
    hide ItemsOf, StepOf, Done, AllRun, IsRun, Enters;
    if pass.i < |others| {
      assert others[pass.i] in others;
      var j := SelectBefore(objs, list, false, a, b, pass.i);
      DoneBehind(run, i, t, j, Item(list[a], Fini));
    } else {
      hide Select;
      NotBefore(list, b, pass.i - |others|);
      DoneBehind(run, i, t, |others| + a, Item(list[a], Fini));
    }
  }

  /** At the end of a pass of destructors it is done with every listed object; a forced one has run everything. */
  lemma FiniPassComplete(run: seq<State>, i: nat, t: Lwp)
    requires IsRun(run) && i < |run| && t < |run[i].stacks| && TopIsPass(run[i].stacks[t])
    requires var pass := Top(run[i].stacks[t]); pass.i == |pass.items| && pass.job.FiniJob?
    ensures var pass := Top(run[i].stacks[t]);
            forall x :: x in pass.job.list ==>
              Done(run, i, t, Item(x, Fini)) && (pass.force ==> AllRun(run[i], Item(x, Fini)))
  {
    TopPassIs(run, i, t);
    var pass, objs := Top(run[i].stacks[t]), run[i].objs;
    var list, others := pass.job.list, Select(objs, pass.job.list, false);
    FiniItemsAt(objs, list);
    hide ItemsOf, Select, Done, AllRun, IsRun;
    forall x | x in list
      ensures Done(run, i, t, Item(x, Fini)) && (pass.force ==> AllRun(run[i], Item(x, Fini)))
    {
      var k :| 0 <= k < |list| && list[k] == x;
      DoneBehind(run, i, t, |others| + k, Item(x, Fini));
    }
  }

  // ---- nothing is refused ---------------------------------------------------------------------------------

  /** Thread t can do a next. */
  ghost predicate Can(s: State, t: Lwp, a: Action) {
    0 < t < |s.stacks| && s.lock == (if a.Acquire? || a.Return? then 0 else t) && Enabled(s, t, a)
  }

  /**
   A pass can go on: at its end it can end; while the generation is unchanged it leaves its next
   item out, if that is a destructor of an object in use and the pass not forced, or enters it,
   unless somebody else is inside or it is no longer in use.  (After a change: PassesStart.)
   */
  lemma PassGoesOn(run: seq<State>, i: nat, t: Lwp)
    requires IsRun(run) && i < |run| && 0 < t < |run[i].stacks| && run[i].lock == t && TopIsPass(run[i].stacks[t])
    ensures var pass, s := Top(run[i].stacks[t]), run[i];
            if pass.i == |pass.items| then Can(s, t, EndPass)
            else if pass.gen == s.gen then
              pass.i < |pass.items| && pass.items[pass.i].o < |s.objs| &&
              var item := pass.items[pass.i];
              var ob := s.objs[item.o];
              if item.g.Fini? && ob.inUse && !pass.force then Can(s, t, Skip)
              else ob.initfinilock == 0 && (item.g.Fini? || ob.inUse) ==> Can(s, t, Enter)
            else true
  {
    RunInv(run, i);
    var s := run[i];
    assert StackOk(s, t, s.stacks[t]);
    assert FrameOk(s, t, s.stacks[t][|s.stacks[t]| - 1]);
    hide Inv, StackOk, FrameOk, ItemsOf;
  }

  lemma SelectOnObjs(objs: seq<Obj>, list: seq<Id>, initfirst: bool)
    ensures forall o :: o in Select(objs, list, initfirst) ==> o < |objs|
  {}

  lemma EachOnObjs(objs: seq<Obj>, list: seq<Id>, g: Group)
    requires forall o :: o in list ==> o < |objs|
    ensures OnObjs(objs, Each(list, g))
  {
    forall k | 0 <= k < |list| ensures Each(list, g)[k].o < |objs| {
      assert list[k] in list;
    }
  }

  lemma JoinOnObjs(objs: seq<Obj>, a: seq<Item>, b: seq<Item>)
    requires OnObjs(objs, a) && OnObjs(objs, b)
    ensures OnObjs(objs, a + b)
  {}

  lemma JobsOnObjs(objs: seq<Obj>, main: Id, list: seq<Id>)
    requires main < |objs| && forall o :: o in list ==> o < |objs|
    ensures OnObjs(objs, ItemsOf(objs, InitJob(main, list))) && OnObjs(objs, ItemsOf(objs, FiniJob(list)))
  {
    var first, others := Select(objs, list, true), Select(objs, list, false);
    SelectOnObjs(objs, list, true);
    SelectOnObjs(objs, list, false);
    EachOnObjs(objs, list, Ifunc);
    EachOnObjs(objs, list, Init);
    EachOnObjs(objs, list, Fini);
    EachOnObjs(objs, first, Init);
    EachOnObjs(objs, others, Fini);
    assert OnObjs(objs, [Item(main, Ifunc)]);
    hide OnObjs, Each, Select;
    JoinOnObjs(objs, Each(list, Ifunc), [Item(main, Ifunc)]);
    JoinOnObjs(objs, Each(list, Ifunc) + [Item(main, Ifunc)], Each(first, Init));
    JoinOnObjs(objs, Each(list, Ifunc) + [Item(main, Ifunc)] + Each(first, Init), Each(list, Init));
    JoinOnObjs(objs, Each(others, Fini), Each(list, Fini));
  }

  /**
   Whoever is inside an object goes on to its next entry as long as there is one: the init or fini
   function itself in any case, everything else while the generation is unchanged; then it leaves.
   */
  lemma RunGoesOn(run: seq<State>, i: nat, t: Lwp)
    requires IsRun(run) && i < |run| && 0 < t < |run[i].stacks| && run[i].stacks[t] != [] &&
             Top(run[i].stacks[t]).Running?
    ensures var s, f := run[i], Top(run[i].stacks[t]);
            && f.item.o < |s.objs|
            && (f.call.Some? && s.lock == 0 ==> Can(s, t, Return))
            && (f.call.None? && s.lock == t ==>
                  var w := WorkOf(s.objs[f.item.o], f.item.g);
                  var more := if w.firstLeft > 0 then !f.item.g.Ifunc? || s.gen == f.gen
                              else w.secondLeft > 0 && s.gen == f.gen;
                  if more then Can(s, t, Take) else Can(s, t, Exit))
  {
    RunInv(run, i);
    TopRuns(run[i], t);
    assert Top(run[i].stacks[t]).item.o < |run[i].objs|;
    hide Inv, FrameOk, ObjOk, IsRun;
    RunCan(run[i], t);
  }

  lemma RunCan(s: State, t: Lwp)
    requires 0 < t < |s.stacks| && |s.stacks[t]| > 1 && Top(s.stacks[t]).Running? &&
             s.stacks[t][|s.stacks[t]| - 2].Pass? && Top(s.stacks[t]).item.o < |s.objs|
    ensures var f := Top(s.stacks[t]);
            && (f.call.Some? && s.lock == 0 ==> Can(s, t, Return))
            && (f.call.None? && s.lock == t ==>
                  var w := WorkOf(s.objs[f.item.o], f.item.g);
                  var more := if w.firstLeft > 0 then !f.item.g.Ifunc? || s.gen == f.gen
                              else w.secondLeft > 0 && s.gen == f.gen;
                  if more then Can(s, t, Take) else Can(s, t, Exit))
  {
    hide WorkOf, ItemsOf;
  }

  /** Passes can be started, and restarted, over any objects. */
  lemma PassesStart(run: seq<State>, i: nat, t: Lwp, main: Id, list: seq<Id>, force: bool)
    requires IsRun(run) && i < |run| && 0 < t < |run[i].stacks|
    requires main < |run[i].objs| && forall o :: o in list ==> o < |run[i].objs|
    ensures run[i].lock == 0 ==> Can(run[i], t, Acquire)
    ensures run[i].lock == t ==>
              Can(run[i], t, Release) && Can(run[i], t, StartInit(main, list)) && Can(run[i], t, StartFini(list, force))
    ensures run[i].lock == t && TopIsPass(run[i].stacks[t]) ==>
              Can(run[i], t, RestartInit(main, list)) && Can(run[i], t, RestartFini(list))
  {
    JobsOnObjs(run[i].objs, main, list);
    hide ItemsOf;
  }

  /** What a thread can do it does in one step. */
  lemma CanStep(s: State, t: Lwp, a: Action) returns (s': State)
    requires Can(s, t, a)
    ensures StepOf(s, t, a, s')
  {
    var calls := a.Take? && CallsNow(s, s.stacks[t]);
    s' := State(if a.Release? || calls then 0 else t, if a.Change? then s.gen + 1 else s.gen, NewObjs(s, t, a),
                s.stacks[t := NewStack(s, t, a)], NewTrace(s, t, a));
  }

  /**
   Functions run without the lock: whoever calls one drops it and whoever returns from one has it
   again.  Only a change moves the generation, and every other thread is left where it is.
   */
  lemma LockAndGeneration(run: seq<State>, i: nat, t: Lwp, a: Action)
    requires IsRun(run) && i + 1 < |run| && StepOf(run[i], t, a, run[i + 1])
    ensures t < |run[i + 1].stacks| == |run[i].stacks| && run[i].lock == if a.Acquire? || a.Return? then 0 else t
    ensures a.Return? ==> Top(run[i].stacks[t]).Running? && Top(run[i].stacks[t]).call.Some?
    ensures var inside := run[i + 1].stacks[t] != [] && Top(run[i + 1].stacks[t]).Running? &&
                          Top(run[i + 1].stacks[t]).call.Some?;
            a.Take? ==> run[i + 1].lock == if inside then 0 else t
    ensures !a.Take? ==> run[i + 1].lock == if a.Release? then 0 else t
    ensures run[i + 1].gen == run[i].gen + if a.Change? then 1 else 0
    ensures forall u: Lwp :: u < |run[i].stacks| && u != t ==> run[i + 1].stacks[u] == run[i].stacks[u]
  {
    hide IsRun, NewObjs, NewTrace, GoesOn, ItemsOf, WorkOf;
  }

  /** A pass moves on by one item when it leaves it out or was through with it while nothing changed. */
  lemma PassAdvances(run: seq<State>, i: nat, t: Lwp, a: Action)
    requires IsRun(run) && i + 1 < |run| && StepOf(run[i], t, a, run[i + 1]) && (a.Skip? || a.Exit?)
    ensures TopIsPass(run[i + 1].stacks[t])
    ensures var stack, pass' := run[i].stacks[t], Top(run[i + 1].stacks[t]);
            && stack != [] && (a.Exit? ==> |stack| > 1)
            && (a.Skip? ==> Top(stack).Pass? && SamePass(Top(stack), pass') && pass'.i == Top(stack).i + 1)
            && (a.Exit? ==>
                  var pass := stack[|stack| - 2];
                  && pass.Pass? && SamePass(pass, pass') && Top(stack).Running?
                  && pass'.i == pass.i + if Top(stack).gen == run[i].gen then 1 else 0)
  {
    hide IsRun, NewObjs, NewTrace, GoesOn, ItemsOf, WorkOf;
  }
}

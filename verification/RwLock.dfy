/**
 The linker's shared/exclusive lock (_rtld_shared_enter, _rtld_shared_exit,
 _rtld_exclusive_enter, _rtld_exclusive_exit) as a state machine.

 Every atomic access of a thread to the lock word or to one of the two waiter words is one
 step, and the steps of arbitrarily many threads interleave freely.  Threads sleep with
 park/unpark: unpark leaves one sticky permit, park consumes it, and park may also return
 spuriously.  A thread may call an entry point while it already holds the lock.
 */
module RwLock {

  const MASK: nat := 0x8000_0000       // RTLD_EXCLUSIVE_MASK
  const WORD: nat := 0x1_0000_0000     // the lock word is a 32-bit unsigned

  /** An lwp id; 0 is "nobody". */
  type Lwp = nat

  /** Where a thread is; `w` is the waiter it displaced from a waiter word. */
  datatype Pc =
    | Idle
      // _rtld_shared_enter
    | SLoad | SCas(cur: nat) | SSwap | SCheckMutex(w: Lwp) | SCheckWaiter(w: Lwp)
    | SPark(w: Lwp) | SClear(w: Lwp) | SUnpark(w: Lwp)
      // _rtld_shared_exit
    | SExitLoad | SExitDec | SExitReadX | SExitUnparkX(w: Lwp)
      // _rtld_exclusive_enter
    | XTry | XSwap | XCheck(w: Lwp) | XPark(w: Lwp) | XClear(w: Lwp) | XUnpark(w: Lwp)
      // _rtld_exclusive_exit
    | XExitStore | XExitReadX | XExitUnparkX(w: Lwp) | XExitReadS | XExitUnparkS(w: Lwp)

  /** `shared` counts the shared holds of the thread, `excl` says it holds the lock exclusively. */
  datatype Thread = Thread(pc: Pc, shared: nat, excl: bool, permit: bool)

  /** threads[t] is the thread with lwp id t; slot 0 stands for "nobody" and never moves.  `died` called _rtld_die. */
  datatype State = State(mutex: nat, waiterX: Lwp, waiterS: Lwp, threads: seq<Thread>, died: Lwp)

  /** What a step does when the code does not determine it. */
  datatype Choice = SharedEnter | SharedExit | ExclusiveEnter | ExclusiveExit | Spurious | Go

  // ---- the steps -------------------------------------------------------------------------

  /** What one step does: the new words, the new state of the thread, and whom it unparks (0: nobody). */
  datatype Effect = Effect(mutex: nat, waiterX: Lwp, waiterS: Lwp, me: Thread, wake: Lwp, died: bool)

  // `self | MASK` is t + MASK and `word & MASK` is word >= MASK, as ids are below 2^31.

  function DoSharedEnter(t: Lwp, th: Thread, mutex: nat, waiterX: Lwp, waiterS: Lwp, spurious: bool): Effect {
    var e := Effect(mutex, waiterX, waiterS, th, 0, false);
    match th.pc
    case SLoad =>
      if mutex < MASK then e.(me := th.(pc := SCas(mutex)))
      else if mutex == t + MASK then e.(died := true)
      else e.(me := th.(pc := SSwap))
    case SCas(cur) =>
      if mutex == cur then e.(mutex := (cur + 1) % WORD, me := th.(pc := Idle, shared := th.shared + 1))
      else e.(me := th.(pc := SLoad))
    case SSwap => e.(waiterS := t, me := th.(pc := SCheckMutex(waiterS)))
    case SCheckMutex(w) => e.(me := th.(pc := if mutex >= MASK then SPark(w) else SCheckWaiter(w)))
    case SCheckWaiter(w) => e.(me := th.(pc := if waiterX != 0 then SPark(w) else SClear(w)))
    case SPark(w) => if th.permit || spurious then e.(me := th.(pc := SClear(w), permit := false)) else e
    case SClear(w) => e.(waiterS := if waiterS == t then 0 else waiterS, me := th.(pc := SUnpark(w)))
    case SUnpark(w) => e.(me := th.(pc := SLoad), wake := w)
    case _ => e
  }

  function DoSharedExit(th: Thread, mutex: nat, waiterX: Lwp, waiterS: Lwp): Effect {
    var e := Effect(mutex, waiterX, waiterS, th, 0, false);
    match th.pc
    case SExitLoad =>
      if mutex >= MASK then e.(me := th.(pc := Idle, shared := Pred(th.shared)))
      else e.(me := th.(pc := SExitDec))
    case SExitDec =>
      var m := (mutex + WORD - 1) % WORD;
      e.(mutex := m, me := th.(pc := if m == 0 then SExitReadX else Idle, shared := Pred(th.shared)))
    case SExitReadX => e.(me := th.(pc := if waiterX != 0 then SExitUnparkX(waiterX) else Idle))
    case SExitUnparkX(w) => e.(me := th.(pc := Idle), wake := w)
    case _ => e
  }

  function DoExclusiveEnter(t: Lwp, th: Thread, mutex: nat, waiterX: Lwp, waiterS: Lwp, spurious: bool): Effect {
    var e := Effect(mutex, waiterX, waiterS, th, 0, false);
    match th.pc
    case XTry =>
      if mutex == 0 then e.(mutex := t + MASK, me := th.(pc := Idle, excl := true))
      else e.(me := th.(pc := XSwap))
    case XSwap => e.(waiterX := t, me := th.(pc := XCheck(waiterX)))
    case XCheck(w) =>
      if mutex == t + MASK then e.(died := true)
      else e.(me := th.(pc := if mutex != 0 then XPark(w) else XClear(w)))
    case XPark(w) => if th.permit || spurious then e.(me := th.(pc := XClear(w), permit := false)) else e
    case XClear(w) => e.(waiterX := if waiterX == t then 0 else waiterX, me := th.(pc := XUnpark(w)))
    case XUnpark(w) => e.(me := th.(pc := XTry), wake := w)
    case _ => e
  }

  function DoExclusiveExit(th: Thread, mutex: nat, waiterX: Lwp, waiterS: Lwp): Effect {
    var e := Effect(mutex, waiterX, waiterS, th, 0, false);
    match th.pc
    case XExitStore => e.(mutex := 0, me := th.(pc := XExitReadX, excl := false))
    case XExitReadX => e.(me := th.(pc := if waiterX != 0 then XExitUnparkX(waiterX) else XExitReadS))
    case XExitUnparkX(w) => e.(me := th.(pc := XExitReadS), wake := w)
    case XExitReadS => e.(me := th.(pc := if waiterS != 0 then XExitUnparkS(waiterS) else Idle))
    case XExitUnparkS(w) => e.(me := th.(pc := Idle), wake := w)
    case _ => e
  }

  /** Outside the lock code a thread may call an entry point, the exits only as a holder. */
  function DoCall(th: Thread, mutex: nat, waiterX: Lwp, waiterS: Lwp, c: Choice): Effect {
    var e := Effect(mutex, waiterX, waiterS, th, 0, false);
    match c
    case SharedEnter => e.(me := th.(pc := SLoad))
    case SharedExit => if th.shared > 0 then e.(me := th.(pc := SExitLoad)) else e
    case ExclusiveEnter => e.(me := th.(pc := XTry))
    case ExclusiveExit => if th.excl then e.(me := th.(pc := XExitStore)) else e
    case _ => e
  }

  /** One step of thread t, which is in state th.  A choice that does not apply changes nothing. */
  function Do(t: Lwp, th: Thread, mutex: nat, waiterX: Lwp, waiterS: Lwp, c: Choice): Effect {
    if th.pc.Idle? then DoCall(th, mutex, waiterX, waiterS, c)
    else if InSharedEnter(th.pc) then DoSharedEnter(t, th, mutex, waiterX, waiterS, c.Spurious?)
    else if InSharedExit(th.pc) then DoSharedExit(th, mutex, waiterX, waiterS)
    else if InExclusiveEnter(th.pc) then DoExclusiveEnter(t, th, mutex, waiterX, waiterS, c.Spurious?)
    else DoExclusiveExit(th, mutex, waiterX, waiterS)
  }

  predicate InSharedEnter(pc: Pc) { pc.SLoad? || pc.SCas? || pc.SSwap? || !ViewOf(S, pc).Out? }
  predicate InSharedExit(pc: Pc) { pc.SExitLoad? || pc.SExitDec? || pc.SExitReadX? || pc.SExitUnparkX? }
  predicate InExclusiveEnter(pc: Pc) { pc.XTry? || pc.XSwap? || !ViewOf(X, pc).Out? }

  function Pred(n: nat): nat { if n > 0 then n - 1 else 0 }

  /** The state after thread t did e; unparking leaves a permit. */
  function Apply(s: State, t: Lwp, e: Effect): State
    requires t < |s.threads|
  {
    var ts := s.threads[t := e.me];
    State(e.mutex, e.waiterX, e.waiterS,
          if 0 < e.wake < |ts| then ts[e.wake := ts[e.wake].(permit := true)] else ts, if e.died then t else 0)
  }

  /** One step of thread t in state s; a process that died takes no more steps. */
  ghost predicate StepOf(s: State, t: Lwp, c: Choice, s': State) {
    && 0 < t < |s.threads| && s.died == 0
    && s' == Apply(s, t, Do(t, s.threads[t], s.mutex, s.waiterX, s.waiterS, c))
  }

  ghost predicate Step(s: State, s': State) {
    exists t: Lwp, c :: StepOf(s, t, c, s')
  }

  function SharedHolds(ts: seq<Thread>): nat {
    if ts == [] then 0 else SharedHolds(ts[..|ts| - 1]) + ts[|ts| - 1].shared
  }

  ghost predicate Init(s: State) {
    && 0 < |s.threads| <= MASK
    && (forall i :: 0 <= i < |s.threads| ==> s.threads[i] == Thread(Idle, 0, false, false))
    && s == State(0, 0, 0, s.threads, 0)
  }

  ghost predicate StepAt(run: seq<State>, i: nat)
    requires i + 1 < |run|
  {
    Step(run[i], run[i + 1])
  }

  /** A run from an initial state in which there are always fewer than 2^31 shared holds. */
  ghost predicate IsRun(run: seq<State>) {
    && 0 < |run| && Init(run[0])
    && (forall i: nat :: i + 1 < |run| ==> StepAt(run, i))
    && (forall i :: 0 <= i < |run| ==> SharedHolds(run[i].threads) < MASK)
  }

  // ---- the invariant: who is inside ------------------------------------------------------

  predicate WfThread(t: Lwp, th: Thread) {
    && (th.pc.SExitLoad? || th.pc.SExitDec? ==> th.shared > 0)
    && (th.pc.XExitStore? ==> th.excl)
    && (th.pc.SCas? ==> th.pc.cur < MASK)
    && (t == 0 ==> th.pc.Idle? && th.shared == 0 && !th.excl)
  }

  ghost predicate Wf(s: State) {
    && 0 < |s.threads| <= MASK
    && (forall t: Lwp :: t < |s.threads| ==> WfThread(t, s.threads[t]))
  }

  /** The lock word tells exactly who is inside. */
  ghost predicate WordExact(s: State) {
    if s.mutex >= MASK then
      && 0 < s.mutex - MASK < |s.threads|
      && (forall t: Lwp :: t < |s.threads| ==> (s.threads[t].excl <==> t == s.mutex - MASK))
      && SharedHolds(s.threads) == 0
    else
      && (forall t: Lwp :: t < |s.threads| ==> !s.threads[t].excl)
      && s.mutex == SharedHolds(s.threads)
  }

  /** Entering either way; at this point the code looks whether the thread itself holds the lock exclusively. */
  predicate Reenters(pc: Pc) { pc.SLoad? || pc.XCheck? }

  /** _rtld_die is reached only by the thread that holds the lock exclusively, entering again. */
  ghost predicate DiesHolding(s: State) {
    s.died != 0 ==>
      s.mutex == s.died + MASK && s.died < |s.threads| && s.threads[s.died].excl && Reenters(s.threads[s.died].pc)
  }

  // ---- the invariant: the two chains of waiters ------------------------------------------

  datatype Side = X | S

  /** A thread seen from one chain: it sleeps or is about to, has woken, or is about to unpark w. */
  datatype View = Out | Waiting(w: Lwp) | Clearing(w: Lwp) | Waking(w: Lwp)

  function ViewOf(side: Side, pc: Pc): View {
    match pc
    case SCheckMutex(w) => if side.S? then Waiting(w) else Out
    case SCheckWaiter(w) => if side.S? then Waiting(w) else Out
    case SPark(w) => if side.S? then Waiting(w) else Out
    case SClear(w) => if side.S? then Clearing(w) else Out
    case SUnpark(w) => if side.S? then Waking(w) else Out
    case XCheck(w) => if side.X? then Waiting(w) else Out
    case XPark(w) => if side.X? then Waiting(w) else Out
    case XClear(w) => if side.X? then Clearing(w) else Out
    case XUnpark(w) => if side.X? then Waking(w) else Out
    case _ => Out
  }

  function Word(side: Side, s: State): Lwp { if side.X? then s.waiterX else s.waiterS }

  /** A non-zero waiter word names a thread between its swap and its clear. */
  ghost predicate Named(side: Side, s: State) {
    var word := Word(side, s);
    word != 0 ==> word < |s.threads| && (var v := ViewOf(side, s.threads[word].pc); v.Waiting? || v.Clearing?)
  }

  /** The order of the swaps so far: at[t] is the time of the latest swap of thread t. */
  datatype History = History(at: seq<nat>, now: nat)

  ghost predicate ValidHistory(s: State, h: History) {
    && |h.at| == |s.threads|
    && (forall t: Lwp :: t < |h.at| ==> h.at[t] < h.now)
  }

  /** q remembers t as the waiter it displaced, in a swap later than t's own, and will unpark it. */
  predicate Owes(side: Side, s: State, h: History, q: Lwp, t: Lwp)
    requires |h.at| == |s.threads|
  {
    q < |s.threads| && t < |s.threads| &&
    var v := ViewOf(side, s.threads[q].pc);
    !v.Out? && v.w == t && h.at[t] < h.at[q]
  }

  /** Every thread about to sleep is named by the waiter word or owed a wakeup by a later waiter. */
  ghost predicate Covered(side: Side, s: State, h: History)
    requires ValidHistory(s, h)
  {
    forall t: Lwp :: t < |s.threads| && ViewOf(side, s.threads[t].pc).Waiting? && !s.threads[t].permit ==>
      Word(side, s) == t || exists q: Lwp :: Owes(side, s, h, q, t)
  }

  // ---- the invariant: who wakes the thread named in a waiter word -------------------------

  /** Released the lock and has yet to look at, or to wake, the exclusive waiter u. */
  predicate WillWakeX(pc: Pc, u: Lwp) {
    pc.SExitReadX? || pc.XExitReadX? || pc == SExitUnparkX(u) || pc == XExitUnparkX(u)
  }

  predicate SleepsX(th: Thread) { th.pc.XPark? && !th.permit }
  predicate SleepsS(th: Thread) { th.pc.SPark? && !th.permit }

  /** If the lock is free, somebody is about to wake a sleeping thread named in waiterX. */
  ghost predicate FreeWakesX(s: State) {
    s.mutex == 0 && 0 < s.waiterX < |s.threads| && SleepsX(s.threads[s.waiterX]) ==>
      exists r: Lwp :: r < |s.threads| && WillWakeX(s.threads[r].pc, s.waiterX)
  }

  /** On its way through the exclusive lock and has yet to wake the shared waiter u. */
  predicate WillWakeS(th: Thread, u: Lwp) {
    || th.excl || !ViewOf(X, th.pc).Out? || th.pc.XTry? || th.pc.XSwap?
    || th.pc.XExitStore? || th.pc.XExitReadX? || th.pc.XExitUnparkX? || th.pc.XExitReadS?
    || th.pc == XExitUnparkS(u)
  }

  ghost predicate WriterWakesS(s: State) {
    0 < s.waiterS < |s.threads| && SleepsS(s.threads[s.waiterS]) ==>
      exists x: Lwp :: x < |s.threads| && WillWakeS(s.threads[x], s.waiterS)
  }

  ghost predicate Inv(s: State, h: History) {
    && Wf(s) && WordExact(s) && DiesHolding(s) && ValidHistory(s, h)
    && Named(X, s) && Named(S, s) && Covered(X, s, h) && Covered(S, s, h)
    && FreeWakesX(s) && WriterWakesS(s)
  }

  // ---- what a step may do, one thread and one concern at a time ---------------------------

  /** The lock word and the holds of the thread that moves. */
  ghost predicate WordMove(t: Lwp, th: Thread, m: nat, me: Thread, m': nat) {
    || (m' == m && me.shared == th.shared && me.excl == th.excl)
    || (m < MASK && m' == m + 1 && me.shared == th.shared + 1 && me.excl == th.excl)
    || (th.shared > 0 && m' == (m + WORD - 1) % WORD && me.shared == th.shared - 1 && me.excl == th.excl)
    || (th.shared > 0 && m >= MASK && m' == m && me.shared == th.shared - 1 && me.excl == th.excl)
    || (m == 0 && m' == t + MASK && me.shared == th.shared && me.excl)
    || (th.excl && m' == 0 && me.shared == th.shared && !me.excl)
  }

  /** One chain of waiters, its waiter word, and the permit of the thread that moves. */
  ghost predicate ChainMove(t: Lwp, v: View, word: Lwp, p: bool, v': View, word': Lwp, p': bool, wake: Lwp) {
    || (v' == v && word' == word && (v.Waiting? ==> p' == p))
    || (v.Out? && v' == Waiting(word) && word' == t)
    || (v.Waiting? && v' == Clearing(v.w) && word' == word)
    || (v.Clearing? && v' == Waking(v.w) && word' == if word == t then 0 else word)
    || (v.Waking? && v'.Out? && word' == word && wake == v.w)
  }

  /** A thread joins a chain only by its swap, coming from outside both chains. */
  predicate Swaps(pc: Pc) { pc.SSwap? || pc.XSwap? }

  ghost predicate WakeXMove(t: Lwp, th: Thread, m: nat, wx: Lwp, e: Effect) {
    && (m != 0 && e.mutex == 0 ==> WillWakeX(e.me.pc, wx))
    && (WillWakeX(th.pc, wx) && wx != 0 ==> WillWakeX(e.me.pc, wx) || e.wake == wx)
    && (SleepsX(e.me) && !SleepsX(th) ==> m != 0 && e.mutex == m)
    && (e.waiterX != wx ==> e.waiterX == 0 || (e.waiterX == t && e.me.pc.XCheck?))
  }

  ghost predicate WakeSMove(t: Lwp, th: Thread, m: nat, wx: Lwp, ws: Lwp, e: Effect) {
    && (WillWakeS(th, ws) && ws != 0 ==> WillWakeS(e.me, ws) || e.wake == ws)
    && (SleepsS(e.me) && !SleepsS(th) ==> (m >= MASK || wx != 0) && e.me.excl == th.excl && ViewOf(X, th.pc).Out?)
    && (e.waiterS != ws ==> e.waiterS == 0 || (e.waiterS == t && e.me.pc.SCheckMutex?))
  }

  ghost predicate HoldsMove(t: Lwp, th: Thread, m: nat, e: Effect) {
    WfThread(t, e.me) && WordMove(t, th, m, e.me, e.mutex) &&
    (e.died ==> m == t + MASK && e.mutex == m && Reenters(e.me.pc))
  }

  ghost predicate ChainsMove(t: Lwp, th: Thread, wx: Lwp, ws: Lwp, e: Effect) {
    && ChainMove(t, ViewOf(X, th.pc), wx, th.permit, ViewOf(X, e.me.pc), e.waiterX, e.me.permit, e.wake)
    && ChainMove(t, ViewOf(S, th.pc), ws, th.permit, ViewOf(S, e.me.pc), e.waiterS, e.me.permit, e.wake)
    && (ViewOf(X, th.pc).Out? && !ViewOf(X, e.me.pc).Out? ==> Swaps(th.pc))
    && (ViewOf(S, th.pc).Out? && !ViewOf(S, e.me.pc).Out? ==> Swaps(th.pc))
  }

  /** All of it: what a step of thread t with effect e may do. */
  ghost predicate Allowed(t: Lwp, th: Thread, m: nat, wx: Lwp, ws: Lwp, e: Effect) {
    HoldsMove(t, th, m, e) && ChainsMove(t, th, wx, ws, e) && WakeXMove(t, th, m, wx, e) &&
    WakeSMove(t, th, m, wx, ws, e)
  }

  lemma CallAllowed(t: Lwp, th: Thread, m: nat, wx: Lwp, ws: Lwp, c: Choice)
    requires t > 0 && WfThread(t, th) && th.pc.Idle?
    ensures Allowed(t, th, m, wx, ws, DoCall(th, m, wx, ws, c))
  {}

  lemma SharedEnterHolds(t: Lwp, th: Thread, m: nat, wx: Lwp, ws: Lwp, spurious: bool)
    requires t > 0 && WfThread(t, th) && InSharedEnter(th.pc)
    ensures HoldsMove(t, th, m, DoSharedEnter(t, th, m, wx, ws, spurious))
  {}

  lemma SharedEnterChains(t: Lwp, th: Thread, m: nat, wx: Lwp, ws: Lwp, spurious: bool)
    requires t > 0 && WfThread(t, th) && InSharedEnter(th.pc)
    ensures ChainsMove(t, th, wx, ws, DoSharedEnter(t, th, m, wx, ws, spurious))
  {}

  lemma SharedEnterWakesX(t: Lwp, th: Thread, m: nat, wx: Lwp, ws: Lwp, spurious: bool)
    requires t > 0 && WfThread(t, th) && InSharedEnter(th.pc)
    ensures WakeXMove(t, th, m, wx, DoSharedEnter(t, th, m, wx, ws, spurious))
  {}

  lemma SharedEnterWakesS(t: Lwp, th: Thread, m: nat, wx: Lwp, ws: Lwp, spurious: bool)
    requires t > 0 && WfThread(t, th) && InSharedEnter(th.pc)
    ensures WakeSMove(t, th, m, wx, ws, DoSharedEnter(t, th, m, wx, ws, spurious))
  {}

  lemma SharedEnterAllowed(t: Lwp, th: Thread, m: nat, wx: Lwp, ws: Lwp, spurious: bool)
    requires t > 0 && WfThread(t, th) && InSharedEnter(th.pc)
    ensures Allowed(t, th, m, wx, ws, DoSharedEnter(t, th, m, wx, ws, spurious))
  {
    hide HoldsMove, ChainsMove, WakeXMove, WakeSMove, DoSharedEnter;
    SharedEnterHolds(t, th, m, wx, ws, spurious);
    SharedEnterChains(t, th, m, wx, ws, spurious);
    SharedEnterWakesX(t, th, m, wx, ws, spurious);
    SharedEnterWakesS(t, th, m, wx, ws, spurious);
  }

  lemma SharedExitAllowed(t: Lwp, th: Thread, m: nat, wx: Lwp, ws: Lwp)
    requires t > 0 && WfThread(t, th) && InSharedExit(th.pc)
    ensures Allowed(t, th, m, wx, ws, DoSharedExit(th, m, wx, ws))
  {}

  lemma ExclusiveEnterHolds(t: Lwp, th: Thread, m: nat, wx: Lwp, ws: Lwp, spurious: bool)
    requires t > 0 && WfThread(t, th) && InExclusiveEnter(th.pc)
    ensures HoldsMove(t, th, m, DoExclusiveEnter(t, th, m, wx, ws, spurious))
  {}

  lemma ExclusiveEnterChains(t: Lwp, th: Thread, m: nat, wx: Lwp, ws: Lwp, spurious: bool)
    requires t > 0 && WfThread(t, th) && InExclusiveEnter(th.pc)
    ensures ChainsMove(t, th, wx, ws, DoExclusiveEnter(t, th, m, wx, ws, spurious))
  {}

  lemma ExclusiveEnterWakesX(t: Lwp, th: Thread, m: nat, wx: Lwp, ws: Lwp, spurious: bool)
    requires t > 0 && WfThread(t, th) && InExclusiveEnter(th.pc)
    ensures WakeXMove(t, th, m, wx, DoExclusiveEnter(t, th, m, wx, ws, spurious))
  {}

  lemma ExclusiveEnterWakesS(t: Lwp, th: Thread, m: nat, wx: Lwp, ws: Lwp, spurious: bool)
    requires t > 0 && WfThread(t, th) && InExclusiveEnter(th.pc)
    ensures WakeSMove(t, th, m, wx, ws, DoExclusiveEnter(t, th, m, wx, ws, spurious))
  {}

  lemma ExclusiveEnterAllowed(t: Lwp, th: Thread, m: nat, wx: Lwp, ws: Lwp, spurious: bool)
    requires t > 0 && WfThread(t, th) && InExclusiveEnter(th.pc)
    ensures Allowed(t, th, m, wx, ws, DoExclusiveEnter(t, th, m, wx, ws, spurious))
  {
    hide HoldsMove, ChainsMove, WakeXMove, WakeSMove, DoExclusiveEnter;
    ExclusiveEnterHolds(t, th, m, wx, ws, spurious);
    ExclusiveEnterChains(t, th, m, wx, ws, spurious);
    ExclusiveEnterWakesX(t, th, m, wx, ws, spurious);
    ExclusiveEnterWakesS(t, th, m, wx, ws, spurious);
  }

  lemma ExclusiveExitAllowed(t: Lwp, th: Thread, m: nat, wx: Lwp, ws: Lwp)
    requires t > 0 && WfThread(t, th)
    requires !th.pc.Idle? && !InSharedEnter(th.pc) && !InSharedExit(th.pc) && !InExclusiveEnter(th.pc)
    ensures Allowed(t, th, m, wx, ws, DoExclusiveExit(th, m, wx, ws))
  {}

  lemma DoAllowed(t: Lwp, th: Thread, m: nat, wx: Lwp, ws: Lwp, c: Choice)
    requires t > 0 && WfThread(t, th)
    ensures Allowed(t, th, m, wx, ws, Do(t, th, m, wx, ws, c))
  {
    if th.pc.Idle? { CallAllowed(t, th, m, wx, ws, c); }
    else if InSharedEnter(th.pc) { SharedEnterAllowed(t, th, m, wx, ws, c.Spurious?); }
    else if InSharedExit(th.pc) { SharedExitAllowed(t, th, m, wx, ws); }
    else if InExclusiveEnter(th.pc) { ExclusiveEnterAllowed(t, th, m, wx, ws, c.Spurious?); }
    else { ExclusiveExitAllowed(t, th, m, wx, ws); }
  }

  // ---- such a step keeps the invariant ----------------------------------------------------

  lemma {:induction false} SharedHoldsUpdate(ts: seq<Thread>, t: nat, th: Thread)
    requires t < |ts|
    ensures SharedHolds(ts[t := th]) == SharedHolds(ts) - ts[t].shared + th.shared
    ensures SharedHolds(ts) >= ts[t].shared
  {
    var n := |ts| - 1;
    if t == n {
      assert ts[t := th][..n] == ts[..n];
    } else {
      assert ts[t := th][..n] == ts[..n][t := th];
      SharedHoldsUpdate(ts[..n], t, th);
    }
  }

  lemma {:induction false} NoHolds(ts: seq<Thread>)
    requires forall i :: 0 <= i < |ts| ==> ts[i].shared == 0
    ensures SharedHolds(ts) == 0
  {
    if ts != [] { NoHolds(ts[..|ts| - 1]); }
  }

  lemma HoldsAfter(s: State, t: Lwp, e: Effect)
    requires t < |s.threads|
    ensures SharedHolds(Apply(s, t, e).threads) == SharedHolds(s.threads) - s.threads[t].shared + e.me.shared
    ensures SharedHolds(s.threads) >= s.threads[t].shared
  {
    SharedHoldsUpdate(s.threads, t, e.me);
    var ts := s.threads[t := e.me];
    if 0 < e.wake < |ts| { SharedHoldsUpdate(ts, e.wake, ts[e.wake].(permit := true)); }
  }

  lemma KeepsWord(s: State, t: Lwp, e: Effect)
    requires Wf(s) && WordExact(s) && 0 < t < |s.threads|
    requires WordMove(t, s.threads[t], s.mutex, e.me, e.mutex) && WfThread(t, e.me)
    requires e.died ==> s.mutex == t + MASK && e.mutex == s.mutex && Reenters(e.me.pc)
    requires SharedHolds(Apply(s, t, e).threads) < MASK
    ensures Wf(Apply(s, t, e)) && WordExact(Apply(s, t, e)) && DiesHolding(Apply(s, t, e))
  {
    HoldsAfter(s, t, e);
    var s' := Apply(s, t, e);
    assert forall u: Lwp :: u < |s.threads| && u != t ==> s'.threads[u].excl == s.threads[u].excl;
  }

  /** The history after t moved: a swap gets the next time stamp. */
  function Record(h: History, t: Lwp, swaps: bool): History {
    if swaps && t < |h.at| then History(h.at[t := h.now], h.now + 1) else h
  }

  lemma KeepsChain(side: Side, s: State, h: History, t: Lwp, e: Effect, swaps: bool)
    requires 0 < t < |s.threads| && Wf(s) && ValidHistory(s, h) && Named(side, s) && Covered(side, s, h)
    requires ChainMove(t, ViewOf(side, s.threads[t].pc), Word(side, s), s.threads[t].permit,
                       ViewOf(side, e.me.pc), if side.X? then e.waiterX else e.waiterS, e.me.permit, e.wake)
    requires swaps ==> ViewOf(side, s.threads[t].pc).Out?
    requires ViewOf(side, s.threads[t].pc).Out? && !ViewOf(side, e.me.pc).Out? ==> swaps
    ensures var s', h' := Apply(s, t, e), Record(h, t, swaps);
            ValidHistory(s', h') && Named(side, s') && Covered(side, s', h')
  {
    var s', h' := Apply(s, t, e), Record(h, t, swaps);
    forall u: Lwp | u < |s'.threads| && ViewOf(side, s'.threads[u].pc).Waiting? && !s'.threads[u].permit
      ensures Word(side, s') == u || exists q: Lwp :: Owes(side, s', h', q, u)
    {
      if u != t || ViewOf(side, s.threads[t].pc).Waiting? {
        assert !s.threads[u].permit;
        if Word(side, s) == u {
          if Word(side, s') != u { assert Owes(side, s', h', t, u); }
        } else {
          var q: Lwp :| Owes(side, s, h, q, u);
          assert Owes(side, s', h', q, u);
        }
      }
    }
  }

  lemma KeepsWakeX(s: State, t: Lwp, e: Effect)
    requires 0 < t < |s.threads| && FreeWakesX(s)
    requires WakeXMove(t, s.threads[t], s.mutex, s.waiterX, e)
    ensures FreeWakesX(Apply(s, t, e))
  {
    var s' := Apply(s, t, e);
    var u := s'.waiterX;
    if s'.mutex == 0 && 0 < u < |s'.threads| && SleepsX(s'.threads[u]) {
      if s.mutex != 0 {
        assert WillWakeX(s'.threads[t].pc, u);
      } else {
        assert SleepsX(s.threads[u]);
        var r: Lwp :| r < |s.threads| && WillWakeX(s.threads[r].pc, u);
        assert WillWakeX(s'.threads[r].pc, u);
      }
    }
  }

  lemma KeepsWakeS(s: State, t: Lwp, e: Effect)
    requires 0 < t < |s.threads| && WriterWakesS(s) && WordExact(s) && Named(X, s)
    requires WakeSMove(t, s.threads[t], s.mutex, s.waiterX, s.waiterS, e)
    ensures WriterWakesS(Apply(s, t, e))
  {
    var s' := Apply(s, t, e);
    var u := s'.waiterS;
    if 0 < u < |s'.threads| && SleepsS(s'.threads[u]) {
      if SleepsS(s.threads[u]) {
        var x: Lwp :| x < |s.threads| && WillWakeS(s.threads[x], u);
        assert WillWakeS(s'.threads[x], u);
      } else if s.mutex >= MASK {
        assert WillWakeS(s'.threads[s.mutex - MASK], u);
      } else {
        assert WillWakeS(s'.threads[s.waiterX], u);
      }
    }
  }

  lemma EffectKeepsInv(s: State, h: History, t: Lwp, e: Effect)
    requires Inv(s, h) && 0 < t < |s.threads|
    requires Allowed(t, s.threads[t], s.mutex, s.waiterX, s.waiterS, e)
    requires SharedHolds(Apply(s, t, e).threads) < MASK
    ensures Inv(Apply(s, t, e), Record(h, t, Swaps(s.threads[t].pc)))
  {
    KeepsWord(s, t, e);
    KeepsChain(X, s, h, t, e, Swaps(s.threads[t].pc));
    KeepsChain(S, s, h, t, e, Swaps(s.threads[t].pc));
    KeepsWakeX(s, t, e);
    KeepsWakeS(s, t, e);
  }

  /** Every step of every thread keeps the invariant. */
  lemma StepKeepsInv(s: State, h: History, s': State) returns (h': History)
    requires Inv(s, h) && Step(s, s') && SharedHolds(s'.threads) < MASK
    ensures Inv(s', h')
  {
    var t: Lwp, c :| StepOf(s, t, c, s');
    assert WfThread(t, s.threads[t]);
    DoAllowed(t, s.threads[t], s.mutex, s.waiterX, s.waiterS, c);
    EffectKeepsInv(s, h, t, Do(t, s.threads[t], s.mutex, s.waiterX, s.waiterS, c));
    h' := Record(h, t, Swaps(s.threads[t].pc));
  }

  lemma InitInv(s: State) returns (h: History)
    requires Init(s)
    ensures Inv(s, h)
  {
    h := History(seq(|s.threads|, _ => 0), 1);
    NoHolds(s.threads);
  }

  lemma {:induction false} RunInv(run: seq<State>, i: nat) returns (h: History)
    requires IsRun(run) && i < |run|
    ensures Inv(run[i], h)
  {
    if i == 0 {
      h := InitInv(run[0]);
    } else {
      var h0 := RunInv(run, i - 1);
      assert StepAt(run, i - 1);
      h := StepKeepsInv(run[i - 1], h0, run[i]);
    }
  }

  // ---- the theorems ----------------------------------------------------------------------

  /**
   Mutual exclusion, in every reachable state: the word is owner + 2^31 with exactly that
   writer inside and no reader, or exactly the number of shared holds with no writer inside.
   */
  lemma MutualExclusion(run: seq<State>, i: nat)
    requires IsRun(run) && i < |run|
    ensures WordExact(run[i])
    ensures forall t: Lwp, u: Lwp ::
              t < |run[i].threads| && u < |run[i].threads| && t != u && run[i].threads[t].excl ==>
              !run[i].threads[u].excl && SharedHolds(run[i].threads) == 0
  {
    var h := RunInv(run, i);
  }

  /** A shared holder that calls _rtld_shared_exit never takes the early return. */
  lemma EarlyReturnNeverFires(run: seq<State>, i: nat, t: Lwp)
    requires IsRun(run) && i < |run| && t < |run[i].threads|
    requires run[i].threads[t].pc.SExitLoad? || run[i].threads[t].pc.SExitDec?
    ensures 0 < run[i].mutex < MASK
  {
    var h := RunInv(run, i);
    assert WfThread(t, run[i].threads[t]);
    SharedHoldsUpdate(run[i].threads, t, run[i].threads[t]);
  }

  /**
   The deadlock check kills the process only when the thread named in the word enters its own
   exclusive lock again.
   */
  lemma DiesOnlyOnRecursion(run: seq<State>, i: nat)
    requires IsRun(run) && i < |run| && run[i].died != 0
    ensures run[i].mutex == run[i].died + MASK && run[i].died < |run[i].threads|
    ensures run[i].threads[run[i].died].excl && Reenters(run[i].threads[run[i].died].pc)
  {
    var h := RunInv(run, i);
  }

  /** ... and always then: it does not sleep on itself. */
  lemma RecursionDies(run: seq<State>, i: nat, t: Lwp, c: Choice)
    requires IsRun(run) && i + 1 < |run| && t < |run[i].threads| && run[i].threads[t].excl &&
             Reenters(run[i].threads[t].pc)
    requires StepOf(run[i], t, c, run[i + 1])
    ensures run[i + 1].died == t
  {
    var h := RunInv(run, i);
  }

  /** A non-zero waiter word names a thread still between its swap and its clear. */
  lemma WaiterWordsNameWaiters(run: seq<State>, i: nat)
    requires IsRun(run) && i < |run|
    ensures Named(X, run[i]) && Named(S, run[i])
  {
    var h := RunInv(run, i);
  }

  /** Nothing moves any more by itself: every thread is outside the lock code or asleep without a permit. */
  ghost predicate Quiescent(s: State) {
    forall t: Lwp :: t < |s.threads| ==> s.threads[t].pc.Idle? || SleepsX(s.threads[t]) || SleepsS(s.threads[t])
  }

  /**
   Each thread of the chain displaced the one before it from the waiter word and sleeps itself;
   the word names the last.
   */
  ghost predicate WaiterChain(side: Side, s: State, chain: seq<Lwp>) {
    && chain != [] && chain[|chain| - 1] == Word(side, s)
    && (forall k :: 0 <= k < |chain| ==> 0 < chain[k] < |s.threads| && ViewOf(side, s.threads[chain[k]].pc).Waiting?)
    && (forall k :: 0 < k < |chain| ==> ViewOf(side, s.threads[chain[k]].pc) == Waiting(chain[k - 1]))
  }

  lemma {:induction false} ChainReachesWord(side: Side, s: State, h: History, t: Lwp) returns (chain: seq<Lwp>)
    requires Inv(s, h) && Quiescent(s) && t < |s.threads| && ViewOf(side, s.threads[t].pc).Waiting?
    ensures WaiterChain(side, s, chain) && chain[0] == t
    decreases h.now - h.at[t]
  {
    assert WfThread(t, s.threads[t]);
    if Word(side, s) == t {
      chain := [t];
    } else {
      var q: Lwp :| Owes(side, s, h, q, t);
      var rest := ChainReachesWord(side, s, h, q);
      chain := [t] + rest;
    }
  }

  lemma QuiescentWriters(s: State, h: History, t: Lwp)
    requires Inv(s, h) && Quiescent(s) && t < |s.threads| && s.threads[t].pc.XPark?
    ensures s.mutex != 0
  {
    var chain := ChainReachesWord(X, s, h, t);
    assert ViewOf(X, s.threads[s.waiterX].pc).Waiting?;
  }

  lemma QuiescentReaders(s: State, h: History, t: Lwp)
    requires Inv(s, h) && Quiescent(s) && t < |s.threads| && s.threads[t].pc.SPark?
    ensures exists x: Lwp :: x < |s.threads| && (s.threads[x].excl || s.threads[x].pc.XPark?)
  {
    var chain := ChainReachesWord(S, s, h, t);
    assert ViewOf(S, s.threads[s.waiterS].pc).Waiting?;
    hide Wf, WordExact, Covered, ValidHistory, Named;
    var x: Lwp :| x < |s.threads| && WillWakeS(s.threads[x], s.waiterS);
  }

  lemma QuiescentInv(s: State, h: History)
    requires Inv(s, h) && Quiescent(s)
    ensures forall t: Lwp :: t < |s.threads| && s.threads[t].pc.XPark? ==> s.mutex != 0
    ensures forall t: Lwp :: t < |s.threads| && s.threads[t].pc.SPark? ==>
              s.mutex >= MASK || (s.mutex != 0 && exists x: Lwp :: x < |s.threads| && s.threads[x].pc.XPark?)
  {
    assert WordExact(s);
    forall t: Lwp | t < |s.threads| && s.threads[t].pc.XPark? ensures s.mutex != 0 { QuiescentWriters(s, h, t); }
    hide Inv, Quiescent;
    forall t: Lwp | t < |s.threads| && s.threads[t].pc.SPark?
      ensures s.mutex >= MASK || (s.mutex != 0 && exists x: Lwp :: x < |s.threads| && s.threads[x].pc.XPark?)
    {
      QuiescentReaders(s, h, t);
    }
  }

  /**
   No lost wakeup.  If every thread is idle or asleep without a permit, then a sleeping writer
   sleeps because somebody holds the lock, and a sleeping reader because a writer holds it or
   a sleeping writer waits for whoever holds it.  In particular nobody sleeps when it is free.
   */
  lemma NoLostWakeup(run: seq<State>, i: nat)
    requires IsRun(run) && i < |run| && Quiescent(run[i])
    ensures forall t: Lwp :: t < |run[i].threads| && run[i].threads[t].pc.XPark? ==> run[i].mutex != 0
    ensures forall t: Lwp :: t < |run[i].threads| && run[i].threads[t].pc.SPark? ==>
              run[i].mutex >= MASK ||
              (run[i].mutex != 0 && exists x: Lwp :: x < |run[i].threads| && run[i].threads[x].pc.XPark?)
    ensures run[i].mutex == 0 ==> forall t: Lwp :: t < |run[i].threads| ==> run[i].threads[t].pc.Idle?
  {
    var h := RunInv(run, i);
    QuiescentInv(run[i], h);
  }

  // ---- getting in and out -----------------------------------------------------------------------

  ghost predicate StepBy(s: State, t: Lwp, s': State) { exists c :: StepOf(s, t, c, s') }

  ghost predicate MovedBy(run: seq<State>, k: nat, t: Lwp)
    requires k + 1 < |run|
  {
    StepBy(run[k], t, run[k + 1])
  }

  /** From place i on, the next n steps are steps of thread t. */
  ghost predicate Solo(run: seq<State>, i: nat, n: nat, t: Lwp) {
    i + n < |run| && forall k: nat :: i <= k < i + n ==> MovedBy(run, k, t)
  }

  /** In _rtld_shared_enter, and neither asleep nor about to sleep behind a waiting writer. */
  predicate AwakeS(s: State, t: Lwp)
    requires t < |s.threads|
  {
    var th := s.threads[t];
    || th.pc.SLoad? || th.pc.SCas? || th.pc.SClear? || th.pc.SUnpark? || (th.pc.SPark? && th.permit)
    || ((th.pc.SSwap? || th.pc.SCheckMutex? || th.pc.SCheckWaiter?) && (s.waiterX == 0 || th.permit))
  }

  /** The steps that are left when no writer is inside and nobody else moves. */
  function StepsS(s: State, t: Lwp): nat
    requires t < |s.threads|
  {
    var sleep := if s.waiterX == 0 then 0 else 1;
    match s.threads[t].pc
    case SCas(cur) => if cur == s.mutex then 1 else 3
    case SLoad => 2
    case SUnpark(_) => 3
    case SClear(_) => 4
    case SPark(_) => 5
    case SCheckWaiter(_) => 5 + sleep
    case SCheckMutex(_) => 6 + sleep
    case SSwap => 7 + sleep
    case _ => 0
  }

  lemma SharedSolo(s: State, t: Lwp, c: Choice, s': State)
    requires StepOf(s, t, c, s') && AwakeS(s, t) && s.mutex < MASK
    ensures s'.died == 0 && |s'.threads| == |s.threads| && s'.threads[t].excl == s.threads[t].excl
    ensures if StepsS(s, t) > 1 then
              && AwakeS(s', t) && StepsS(s', t) == StepsS(s, t) - 1 && s'.mutex == s.mutex
              && s'.threads[t].shared == s.threads[t].shared
            else
              s'.threads[t].pc.Idle? && s'.threads[t].shared == s.threads[t].shared + 1 && s'.mutex == s.mutex + 1
  {}

  /**
   A reader gets in past any number of readers: without a writer inside, a thread that is awake in
   _rtld_shared_enter and moves alone is outside again after at most eight steps, with one more hold.
   */
  lemma {:induction false} SharedGetsIn(run: seq<State>, i: nat, t: Lwp)
    requires IsRun(run) && i < |run| && 0 < t < |run[i].threads| && run[i].mutex < MASK && AwakeS(run[i], t)
    requires Solo(run, i, StepsS(run[i], t), t)
    ensures 1 <= StepsS(run[i], t) <= 8 && (run[i].threads[t].pc.SLoad? ==> StepsS(run[i], t) == 2)
    ensures var s' := run[i + StepsS(run[i], t)];
            && s'.died == 0 && |s'.threads| == |run[i].threads| && s'.mutex == run[i].mutex + 1
            && s'.threads[t].pc.Idle? && s'.threads[t].shared == run[i].threads[t].shared + 1
            && s'.threads[t].excl == run[i].threads[t].excl
    decreases StepsS(run[i], t)
  {
    assert MovedBy(run, i, t);
    var c :| StepOf(run[i], t, c, run[i + 1]);
    SharedSolo(run[i], t, c, run[i + 1]);
    if StepsS(run[i], t) > 1 {
      hide StepsS, AwakeS, StepOf;
      SharedGetsIn(run, i + 1, t);
    }
  }

  /** In _rtld_exclusive_enter and not asleep. */
  predicate AwakeX(s: State, t: Lwp)
    requires t < |s.threads|
  {
    var th := s.threads[t];
    || th.pc.XTry? || th.pc.XSwap? || th.pc.XCheck? || th.pc.XClear? || th.pc.XUnpark?
    || (th.pc.XPark? && th.permit)
  }

  function StepsX(s: State, t: Lwp): nat
    requires t < |s.threads|
  {
    match s.threads[t].pc
    case XTry => 1
    case XUnpark(_) => 2
    case XClear(_) => 3
    case XPark(_) => 4
    case XCheck(_) => 4
    case XSwap => 5
    case _ => 0
  }

  lemma ExclusiveSolo(s: State, t: Lwp, c: Choice, s': State)
    requires StepOf(s, t, c, s') && AwakeX(s, t) && s.mutex == 0
    ensures s'.died == 0 && |s'.threads| == |s.threads| && s'.threads[t].shared == s.threads[t].shared
    ensures if StepsX(s, t) > 1 then AwakeX(s', t) && StepsX(s', t) == StepsX(s, t) - 1 && s'.mutex == 0
            else s'.threads[t].pc.Idle? && s'.threads[t].excl && s'.mutex == t + MASK
  {
    hide DoSharedEnter, DoSharedExit, DoExclusiveExit, DoCall;
  }

  /** A writer gets into a free lock: awake and alone it is outside again after at most five steps, and owns it. */
  lemma {:induction false} ExclusiveGetsIn(run: seq<State>, i: nat, t: Lwp)
    requires IsRun(run) && i < |run| && 0 < t < |run[i].threads| && run[i].mutex == 0 && AwakeX(run[i], t)
    requires Solo(run, i, StepsX(run[i], t), t)
    ensures 1 <= StepsX(run[i], t) <= 5 && (run[i].threads[t].pc.XTry? ==> StepsX(run[i], t) == 1)
    ensures var s' := run[i + StepsX(run[i], t)];
            && s'.died == 0 && |s'.threads| == |run[i].threads| && s'.mutex == t + MASK
            && s'.threads[t].pc.Idle? && s'.threads[t].excl && s'.threads[t].shared == run[i].threads[t].shared
    decreases StepsX(run[i], t)
  {
    assert MovedBy(run, i, t);
    var c :| StepOf(run[i], t, c, run[i + 1]);
    ExclusiveSolo(run[i], t, c, run[i + 1]);
    if StepsX(run[i], t) > 1 {
      hide StepsX, AwakeX, StepOf;
      ExclusiveGetsIn(run, i + 1, t);
    }
  }

  predicate InExit(pc: Pc) {
    InSharedExit(pc) ||
    pc.XExitStore? || pc.XExitReadX? || pc.XExitUnparkX? || pc.XExitReadS? || pc.XExitUnparkS?
  }

  /** The steps that are at most left in an exit, whatever others do meanwhile. */
  function StepsOut(pc: Pc): nat {
    match pc
    case SExitLoad => 4
    case SExitDec => 3
    case SExitReadX => 2
    case SExitUnparkX(_) => 1
    case XExitStore => 5
    case XExitReadX => 4
    case XExitUnparkX(_) => 3
    case XExitReadS => 2
    case XExitUnparkS(_) => 1
    case _ => 0
  }

  /**
   The exits do not wait: every step of a thread in one brings it closer to the end, whatever the
   others do in between, and gives up one hold on the way.
   */
  lemma ExitsFinish(run: seq<State>, i: nat, t: Lwp)
    requires IsRun(run) && i + 1 < |run| && 0 < t < |run[i].threads| && InExit(run[i].threads[t].pc)
    requires MovedBy(run, i, t)
    ensures var th, th' := run[i].threads[t], run[i + 1].threads[t];
            && (InExit(th'.pc) || th'.pc.Idle?) && StepsOut(th'.pc) < StepsOut(th.pc) <= 5 && run[i + 1].died == 0
            && th'.shared == th.shared - (if th.pc.SExitDec? then 1 else 0)
            && th'.excl == (th.excl && !th.pc.XExitStore?)
            && (th.pc.SExitLoad? ==> th'.pc.SExitDec?) && (th'.pc.Idle? ==> !th.pc.SExitLoad? && !th.pc.XExitStore?)
  {
    var c :| StepOf(run[i], t, c, run[i + 1]);
    if run[i].threads[t].pc.SExitLoad? { EarlyReturnNeverFires(run, i, t); }
    var h := RunInv(run, i);
    assert WfThread(t, run[i].threads[t]);
    hide Inv, IsRun;
    ExitSolo(run[i], t, c, run[i + 1]);
  }

  lemma ExitSolo(s: State, t: Lwp, c: Choice, s': State)
    requires StepOf(s, t, c, s') && InExit(s.threads[t].pc) && WfThread(t, s.threads[t])
    requires s.threads[t].pc.SExitLoad? ==> s.mutex < MASK
    ensures |s'.threads| == |s.threads| && s'.died == 0
    ensures var th, th' := s.threads[t], s'.threads[t];
            && (InExit(th'.pc) || th'.pc.Idle?) && StepsOut(th'.pc) < StepsOut(th.pc) <= 5
            && th'.shared == th.shared - (if th.pc.SExitDec? then 1 else 0)
            && th'.excl == (th.excl && !th.pc.XExitStore?)
            && (th.pc.SExitLoad? ==> th'.pc.SExitDec?) && (th'.pc.Idle? ==> !th.pc.SExitLoad? && !th.pc.XExitStore?)
  {
    hide DoSharedEnter, DoExclusiveEnter, DoCall;
  }

  /** Whoever finds the lock held by another goes to sleep, if nobody woke it before: a reader behind a writer, */
  lemma ReaderSleeps(run: seq<State>, i: nat, t: Lwp)
    requires IsRun(run) && i < |run| && 0 < t < |run[i].threads| && Solo(run, i, 3, t)
    requires run[i].threads[t].pc.SLoad? && !run[i].threads[t].permit
    requires run[i].mutex >= MASK && !run[i].threads[t].excl
    ensures run[i + 3].died == 0 && t < |run[i + 3].threads| && SleepsS(run[i + 3].threads[t]) &&
            run[i + 3].mutex == run[i].mutex && run[i + 3].waiterS == t
  {
    var h := RunInv(run, i);
    assert MovedBy(run, i, t) && MovedBy(run, i + 1, t) && MovedBy(run, i + 2, t);
    hide Inv, IsRun, Solo, MovedBy;
    var c1 :| StepOf(run[i], t, c1, run[i + 1]);
    var c2 :| StepOf(run[i + 1], t, c2, run[i + 2]);
    var c3 :| StepOf(run[i + 2], t, c3, run[i + 3]);
    TowardsSleep(run[i], t, c1, run[i + 1]);
    TowardsSleep(run[i + 1], t, c2, run[i + 2]);
    TowardsSleep(run[i + 2], t, c3, run[i + 3]);
  }

  /** and a writer behind anybody. */
  lemma WriterSleeps(run: seq<State>, i: nat, t: Lwp)
    requires IsRun(run) && i < |run| && 0 < t < |run[i].threads| && Solo(run, i, 3, t)
    requires run[i].threads[t].pc.XTry? && !run[i].threads[t].permit
    requires run[i].mutex != 0 && !run[i].threads[t].excl
    ensures run[i + 3].died == 0 && t < |run[i + 3].threads| && SleepsX(run[i + 3].threads[t]) &&
            run[i + 3].mutex == run[i].mutex && run[i + 3].waiterX == t
  {
    var h := RunInv(run, i);
    assert MovedBy(run, i, t) && MovedBy(run, i + 1, t) && MovedBy(run, i + 2, t);
    hide Inv, IsRun, Solo, MovedBy;
    var c1 :| StepOf(run[i], t, c1, run[i + 1]);
    var c2 :| StepOf(run[i + 1], t, c2, run[i + 2]);
    var c3 :| StepOf(run[i + 2], t, c3, run[i + 3]);
    TowardsSleep(run[i], t, c1, run[i + 1]);
    TowardsSleep(run[i + 1], t, c2, run[i + 2]);
    TowardsSleep(run[i + 2], t, c3, run[i + 3]);
  }

  /** The next place on the way to sleep. */
  lemma TowardsSleep(s: State, t: Lwp, c: Choice, s': State)
    requires StepOf(s, t, c, s') && s.mutex != t + MASK && !s.threads[t].permit
    ensures var pc, th' := s.threads[t].pc, s'.threads[t];
            && ((s.mutex >= MASK && (pc.SLoad? || pc.SSwap? || pc.SCheckMutex?)) ||
                (s.mutex != 0 && (pc.XTry? || pc.XSwap? || pc.XCheck?)) ==>
                  s'.mutex == s.mutex && s'.died == 0 && |s'.threads| == |s.threads| && !th'.permit)
            && (s.mutex >= MASK && pc.SLoad? ==> th'.pc.SSwap?)
            && (s.mutex >= MASK && pc.SSwap? ==> th'.pc.SCheckMutex? && s'.waiterS == t)
            && (s.mutex >= MASK && pc.SCheckMutex? ==> th'.pc.SPark? && s'.waiterS == s.waiterS)
            && (s.mutex != 0 && pc.XTry? ==> th'.pc.XSwap?)
            && (s.mutex != 0 && pc.XSwap? ==> th'.pc.XCheck? && s'.waiterX == t)
            && (s.mutex != 0 && pc.XCheck? ==> th'.pc.XPark? && s'.waiterX == s.waiterX)
  {
    hide DoSharedExit, DoExclusiveExit, DoCall;
  }

  // ---- permits and calls ------------------------------------------------------------------------

  /** About to unpark u. */
  predicate Unparks(pc: Pc, u: Lwp) {
    pc == SUnpark(u) || pc == XUnpark(u) || pc == SExitUnparkX(u) || pc == XExitUnparkX(u) || pc == XExitUnparkS(u)
  }

  /** A thread gets a permit exactly in a step of one that is about to unpark it. */
  lemma PermitsFromUnparks(run: seq<State>, i: nat, t: Lwp, c: Choice, u: Lwp)
    requires IsRun(run) && i + 1 < |run| && StepOf(run[i], t, c, run[i + 1]) && 0 < u < |run[i].threads|
    ensures u < |run[i + 1].threads|
    ensures !run[i].threads[u].permit ==> (run[i + 1].threads[u].permit <==> Unparks(run[i].threads[t].pc, u))
  {
    hide IsRun;
    UnparkStep(run[i], t, c, run[i + 1], u);
  }

  lemma UnparkStep(s: State, t: Lwp, c: Choice, s': State, u: Lwp)
    requires StepOf(s, t, c, s') && 0 < u < |s.threads|
    ensures |s'.threads| == |s.threads|
    ensures !s.threads[u].permit ==> (s'.threads[u].permit <==> Unparks(s.threads[t].pc, u))
  {
    DoWakes(t, s.threads[t], s.mutex, s.waiterX, s.waiterS, c, u);
    hide Do, Unparks;
  }

  lemma EnterWakes(t: Lwp, th: Thread, m: nat, wx: Lwp, ws: Lwp, spurious: bool, u: Lwp)
    requires u > 0 && (InSharedEnter(th.pc) || InExclusiveEnter(th.pc))
    ensures var e := if InSharedEnter(th.pc) then DoSharedEnter(t, th, m, wx, ws, spurious)
                     else DoExclusiveEnter(t, th, m, wx, ws, spurious);
            (e.wake == u <==> Unparks(th.pc, u)) && (e.me.permit ==> th.permit)
  {}

  lemma ExitWakes(th: Thread, m: nat, wx: Lwp, ws: Lwp, c: Choice, u: Lwp)
    requires u > 0 && !InSharedEnter(th.pc) && !InExclusiveEnter(th.pc)
    ensures var e := if th.pc.Idle? then DoCall(th, m, wx, ws, c)
                     else if InSharedExit(th.pc) then DoSharedExit(th, m, wx, ws)
                     else DoExclusiveExit(th, m, wx, ws);
            (e.wake == u <==> Unparks(th.pc, u)) && (e.me.permit ==> th.permit)
  {}

  lemma DoWakes(t: Lwp, th: Thread, m: nat, wx: Lwp, ws: Lwp, c: Choice, u: Lwp)
    requires u > 0
    ensures var e := Do(t, th, m, wx, ws, c);
            (e.wake == u <==> Unparks(th.pc, u)) && (e.me.permit ==> th.permit)
  {
    if !th.pc.Idle? && (InSharedEnter(th.pc) || InExclusiveEnter(th.pc)) {
      EnterWakes(t, th, m, wx, ws, c.Spurious?, u);
      if !InSharedEnter(th.pc) { assert !InSharedExit(th.pc); }
    } else {
      ExitWakes(th, m, wx, ws, c, u);
    }
    hide DoSharedEnter, DoExclusiveEnter, DoSharedExit, DoExclusiveExit, DoCall, Unparks;
  }

  /** A sleeper stays where it is without a permit, unless it wakes for no reason; waking uses the permit up. */
  lemma ParkConsumes(run: seq<State>, i: nat, t: Lwp, c: Choice)
    requires IsRun(run) && i + 1 < |run| && StepOf(run[i], t, c, run[i + 1])
    requires run[i].threads[t].pc.SPark? || run[i].threads[t].pc.XPark?
    ensures var th, th' := run[i].threads[t], run[i + 1].threads[t];
            if !th.permit && !c.Spurious? then run[i + 1] == run[i]
            else !th'.permit && (if th.pc.SPark? then th'.pc.SClear? else th'.pc.XClear?)
  {
    hide IsRun, DoSharedExit, DoExclusiveExit, DoCall;
    assert run[i].threads[t := run[i].threads[t]] == run[i].threads;
  }

  /** An idle thread may call either enter, and the exit that belongs to what it holds. */
  lemma CallsGo(run: seq<State>, i: nat, t: Lwp, c: Choice)
    requires IsRun(run) && i + 1 < |run| && StepOf(run[i], t, c, run[i + 1]) && run[i].threads[t].pc.Idle?
    ensures var th := run[i].threads[t];
            var pc := if c.SharedEnter? then SLoad
                      else if c.ExclusiveEnter? then XTry
                      else if c.SharedExit? && th.shared > 0 then SExitLoad
                      else if c.ExclusiveExit? && th.excl then XExitStore
                      else Idle;
            run[i + 1] == run[i].(threads := run[i].threads[t := th.(pc := pc)])
  {
    hide IsRun, DoSharedEnter, DoSharedExit, DoExclusiveEnter, DoExclusiveExit;
  }
}

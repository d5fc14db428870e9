/**
 Access to thread-local variables: the per-thread vectors (DTVs), which grow lazily, and the
 two ways of reaching a variable, through __tls_get_addr and through a fixed distance from the
 TCB (_rtld_tls_get_addr, _rtld_tls_module_allocate, __tls_get_addr, the TLS relocations, and
 the bump of generation and maximum index in _rtld_map_object).
 */
module TlsAccess {
  import opened Options

  type Id = nat
  type Lwp = nat

  /** The TLS fields of a loaded object. */
  datatype Mod = Mod(tlsindex: nat, tlsStatic: bool, tlsDynamic: bool, tlsoffset: nat)

  /** The module after dynamic storage was made for idx, if that is its index and it is not static. */
  function Marked(m: Mod, idx: nat): Mod {
    if m.tlsindex == idx && !m.tlsStatic then m.(tlsDynamic := true) else m
  }

  /** A thread: its TCB and its vector; slot 0 is for the generation, |dtv| - 1 is DTV_MAX_INDEX. */
  datatype Thread = Thread(tcb: nat, dtv: seq<nat>)

  /** generation is _rtld_tls_dtv_generation, maxIndex is _rtld_tls_max_index. */
  datatype State = State(generation: nat, maxIndex: nat, objs: map<Id, Mod>, threads: map<Lwp, Thread>)

  /** The pointer that a vector holds for a module, 0 if none. */
  function Entry(th: Thread, i: nat): nat { if i < |th.dtv| then th.dtv[i] else 0 }

  // ---- the invariant ------------------------------------------------------------------------

  ghost predicate ModOk(m: Mod, maxIndex: nat) {
    m.tlsindex <= maxIndex && !(m.tlsStatic && m.tlsDynamic) && (m.tlsindex == 0 ==> m.tlsoffset == 0 && !m.tlsDynamic)
  }

  /**
   Slot 0 holds the generation of the vector, which is also its maximum index, or the TCB
   address that an object without TLS left there; neither the TCB nor a block is at address 0.
   */
  ghost predicate ThreadOk(th: Thread, generation: nat, maxIndex: nat) {
    && 1 <= |th.dtv| <= maxIndex + 1 && generation < th.tcb
    && (th.dtv[0] == |th.dtv| - 1 || th.dtv[0] == th.tcb)
  }

  /** A vector entry of a static module is its place below the TCB; an untouched module has none. */
  ghost predicate EntryOk(m: Mod, th: Thread) {
    && (m.tlsStatic ==> m.tlsoffset < th.tcb)
    && (m.tlsindex > 0 && m.tlsStatic ==> Entry(th, m.tlsindex) == 0 || Entry(th, m.tlsindex) == th.tcb - m.tlsoffset)
    && (m.tlsindex > 0 && !m.tlsStatic && !m.tlsDynamic ==> Entry(th, m.tlsindex) == 0)
  }

  ghost predicate DistinctIndices(objs: map<Id, Mod>) {
    forall o, p :: o in objs && p in objs && o != p && objs[o].tlsindex > 0 ==> objs[o].tlsindex != objs[p].tlsindex
  }

  ghost predicate Sound(s: State) {
    && s.generation == s.maxIndex && DistinctIndices(s.objs)
    && (forall o :: o in s.objs ==> ModOk(s.objs[o], s.maxIndex))
    && (forall t :: t in s.threads ==> ThreadOk(s.threads[t], s.generation, s.maxIndex))
    && (forall o, t :: o in s.objs && t in s.threads ==> EntryOk(s.objs[o], s.threads[t]))
  }

  /** No address of a variable that was handed out changes. */
  ghost predicate Stable(s: State, s': State) {
    forall t, i :: t in s.threads && i > 0 && Entry(s.threads[t], i) != 0 ==>
      t in s'.threads && s'.threads[t].tcb == s.threads[t].tcb && Entry(s'.threads[t], i) == Entry(s.threads[t], i)
  }

  /** Nothing changes but the entry of t for idx; a vector may be replaced by one that reads the same. */
  ghost predicate OnlyEntry(s: State, s': State, t: Lwp, idx: nat) {
    && s'.generation == s.generation && s'.maxIndex == s.maxIndex && s'.threads.Keys == s.threads.Keys
    && t in s.threads && s'.threads[t].tcb == s.threads[t].tcb
    && (forall u :: u in s.threads && u != t ==> s'.threads[u] == s.threads[u])
    && (forall i :: i > 0 && i != idx ==> Entry(s'.threads[t], i) == Entry(s.threads[t], i))
  }

  /**
   What an access of t to module idx answers, told from the state before; p is what the heap
   returns.  An entry that is there is used and nothing is marked.  Otherwise the entry becomes the
   place of a static module below the TCB, or the new storage p of another, which is then marked;
   without a module there is no answer.
   */
  ghost predicate Answers(s: State, s': State, t: Lwp, idx: nat, p: nat, offset: nat, r: Option<nat>) {
    && OnlyEntry(s, s', t, idx)
    && if Entry(s.threads[t], idx) != 0 then
         && r == Some(Entry(s.threads[t], idx) + offset) && s'.objs == s.objs
         && Entry(s'.threads[t], idx) == Entry(s.threads[t], idx)
       else
         && s'.objs.Keys == s.objs.Keys && (forall o :: o in s.objs ==> s'.objs[o] == Marked(s.objs[o], idx))
         && ((forall o :: o in s.objs ==> s.objs[o].tlsindex != idx) ==> r == None && Entry(s'.threads[t], idx) == 0)
         && forall o :: o in s.objs && s.objs[o].tlsindex == idx ==>
              && s'.objs[o].tlsDynamic == (s.objs[o].tlsDynamic || !s.objs[o].tlsStatic)
              && Entry(s'.threads[t], idx) ==
                 (if s.objs[o].tlsStatic then s.threads[t].tcb - s.objs[o].tlsoffset else p)
              && r == Some(Entry(s'.threads[t], idx) + offset)
  }

  // ---- the vector grows -----------------------------------------------------------------------

  /** The vector that replaces one of an older generation: entries copied, the rest NULL. */
  function Regrown(th: Thread, generation: nat, maxIndex: nat): Thread
    requires |th.dtv| >= 1
  {
    var toCopy := if |th.dtv| - 1 > maxIndex then maxIndex else |th.dtv| - 1;
    th.(dtv := [generation] + th.dtv[1..1 + toCopy] + seq(maxIndex - toCopy, _ => 0))
  }

  /** A vector whose slot 0 equals the global generation is long enough, because both counters move together. */
  lemma CurrentIsLongEnough(s: State, t: Lwp)
    requires Sound(s) && t in s.threads && s.threads[t].dtv[0] == s.generation
    ensures |s.threads[t].dtv| == s.maxIndex + 1
  {}

  lemma SetThreadSound(s: State, t: Lwp, th: Thread)
    requires Sound(s) && ThreadOk(th, s.generation, s.maxIndex) && forall o :: o in s.objs ==> EntryOk(s.objs[o], th)
    ensures Sound(s.(threads := s.threads[t := th]))
  {}

  class Tls {
    var generation: nat
    var maxIndex: nat
    var objs: map<Id, Mod>
    var threads: map<Lwp, Thread>

    ghost function Now(): State
      reads this
    {
      State(generation, maxIndex, objs, threads)
    }

    /** At startup: the main program, which has index 1 if it has TLS, and no threads yet. */
    constructor (main: Id, hasTls: bool)
      ensures Sound(Now()) && objs.Keys == {main} && threads == map[] && maxIndex == 1
      ensures objs[main] == Mod(if hasTls then 1 else 0, false, false, 0)
    {
      generation, maxIndex := 1, 1;
      objs := map[main := Mod(if hasTls then 1 else 0, false, false, 0)];
      threads := map[];
    }

    /** _rtld_map_object for an object with a TLS segment. */
    method LoadTls(o: Id)
      requires Sound(Now()) && o !in objs && forall t :: t in threads ==> generation + 1 < threads[t].tcb
      modifies this`generation, this`maxIndex, this`objs
      ensures Sound(Now()) && objs == old(objs)[o := Mod(maxIndex, false, false, 0)] && maxIndex == old(maxIndex) + 1
    {
      LoadedSound(Now(), o);
      generation := generation + 1;
      maxIndex := maxIndex + 1;
      objs := objs[o := Mod(maxIndex, false, false, 0)];
    }

    /** ... and for one without. */
    method LoadPlain(o: Id)
      requires Sound(Now()) && o !in objs
      modifies this`objs
      ensures Sound(Now()) && objs == old(objs)[o := Mod(0, false, false, 0)]
    {
      objs := objs[o := Mod(0, false, false, 0)];
    }

    /**
     _rtld_tls_offset_allocate, where the layout answers with an offset or, for late objects with
     initial data or without room, with a refusal; -1 also if dynamic storage was handed out.
     */
    method OffsetAllocate(o: Id, layout: Option<nat>) returns (status: int)
      requires Sound(Now()) && o in objs && (objs[o].tlsindex == 0 ==> layout == Some(0))
      requires layout.Some? ==> forall t :: t in threads ==> layout.value < threads[t].tcb
      modifies this`objs
      ensures Sound(Now()) && objs.Keys == old(objs.Keys) && forall p :: p in objs && p != o ==> objs[p] == old(objs)[p]
      ensures status == if old(objs)[o].tlsDynamic || (!old(objs)[o].tlsStatic && layout.None?) then -1 else 0
      ensures objs[o] == if old(objs)[o].tlsDynamic || old(objs)[o].tlsStatic || layout.None? then old(objs)[o]
                         else old(objs)[o].(tlsStatic := true, tlsoffset := layout.value)
    {
      if objs[o].tlsDynamic { return -1; }
      if objs[o].tlsStatic { return 0; }
      if layout.None? { return -1; }
      objs := objs[o := objs[o].(tlsStatic := true, tlsoffset := layout.value)];
      status := 0;
    }

    /** dlclose: the object goes, its index and its offset are never used again. */
    method Unload(o: Id)
      requires Sound(Now())
      modifies this`objs
      ensures Sound(Now()) && objs == old(objs) - {o} && threads == old(threads)
    {
      objs := objs - {o};
    }

    /** The vector part of _rtld_tls_allocate_locked: static modules are entered, and modules without TLS hit slot 0. */
    method AllocateThread(t: Lwp, tcb: nat, objlist: seq<Id>)
      requires Sound(Now()) && t !in threads && generation < tcb && (forall o :: o in objlist <==> o in objs)
      requires forall o :: o in objs && objs[o].tlsStatic ==> objs[o].tlsoffset < tcb
      modifies this`threads
      ensures Sound(Now()) && threads.Keys == old(threads.Keys) + {t} && threads[t].tcb == tcb
      ensures forall u :: u in old(threads) ==> threads[u] == old(threads)[u]
      ensures forall o ::
                o in objs && objs[o].tlsStatic && objs[o].tlsindex > 0 ==>
                  Entry(threads[t], objs[o].tlsindex) == tcb - objs[o].tlsoffset
    {
      hide Sound, Filled, Entry;
      ghost var s := Now();
      var dtv: seq<nat> := [generation] + seq(maxIndex, _ => 0);
      NothingFilled(s, objlist, tcb, dtv);
      for k := 0 to |objlist|
        modifies {}
        invariant Filled(s, objlist, k, tcb, dtv)
      {
        FillStep(s, objlist, k, tcb, dtv);
        var m := objs[objlist[k]];
        if m.tlsStatic { dtv := dtv[m.tlsindex := tcb - m.tlsoffset]; }
      }
      NewThreadSound(s, t, Thread(tcb, dtv), objlist);
      threads := threads[t := Thread(tcb, dtv)];
    }

    /**
     _rtld_tls_module_allocate: p is what the heap returns if dynamic storage is needed; None if
     no object has the index.
     */
    method ModuleAllocate(t: Lwp, idx: nat, p: nat, objlist: seq<Id>) returns (r: Option<nat>)
      requires Sound(Now()) && t in threads && idx > 0 && p != 0 && (forall o :: o in objlist <==> o in objs)
      requires Entry(threads[t], idx) == 0
      modifies this`objs
      ensures objs.Keys == old(objs.Keys)
      ensures r.None? <==> forall o :: o in old(objs) ==> old(objs)[o].tlsindex != idx
      ensures r.None? ==> objs == old(objs)
      ensures forall o :: o in objs ==> objs[o] == Marked(old(objs)[o], idx)
      ensures forall o :: o in objs && objs[o].tlsindex == idx ==>
                r == Some(if objs[o].tlsStatic then threads[t].tcb - objs[o].tlsoffset else p)
      ensures r.Some? ==> r.value != 0
    {
      var k := 0;
      while k < |objlist| && objs[objlist[k]].tlsindex != idx
        modifies {}
        invariant 0 <= k <= |objlist| && forall j :: 0 <= j < k ==> objs[objlist[j]].tlsindex != idx
      {
        k := k + 1;
      }
      if k == |objlist| { return None; }
      var o := objlist[k];
      assert o in objs && EntryOk(objs[o], threads[t]);
      if objs[o].tlsStatic { return Some(threads[t].tcb - objs[o].tlsoffset); }
      objs := objs[o := objs[o].(tlsDynamic := true)];
      r := Some(p);
    }

    /** The first part of _rtld_tls_get_addr: a vector of an older generation is replaced. */
    method Refresh(t: Lwp, ghost idx: nat)
      requires Sound(Now()) && t in threads && idx > 0
      modifies this`threads
      ensures Sound(Now()) && Stable(old(Now()), Now()) && OnlyEntry(old(Now()), Now(), t, idx) && t in threads
      ensures threads.Keys == old(threads.Keys) && |threads[t].dtv| == maxIndex + 1 &&
              Entry(threads[t], idx) == Entry(old(threads)[t], idx)
    {
      hide Sound, Stable, OnlyEntry;
      ghost var s := Now();
      SoundThread(s, t);
      if threads[t].dtv[0] != generation {
        RegrownSound(s, t);
        RegrownReads(s, t, idx);
        threads := threads[t := Regrown(threads[t], generation, maxIndex)];
      } else {
        CurrentIsLongEnough(s, t);
        StableReflexive(s);
        SameReads(s, t, idx);
      }
    }

    /** _rtld_tls_get_addr, the slow path. */
    method GetAddrSlow(t: Lwp, idx: nat, offset: nat, p: nat, objlist: seq<Id>) returns (r: Option<nat>)
      requires Sound(Now()) && t in threads && 0 < idx <= maxIndex && p != 0 &&
               (forall o :: o in objlist <==> o in objs)
      modifies this`objs, this`threads
      ensures Sound(Now()) && Stable(old(Now()), Now()) && objs.Keys == old(objs.Keys) &&
              threads.Keys == old(threads.Keys)
      ensures Answers(old(Now()), Now(), t, idx, p, offset, r)
      ensures r.Some? ==> Entry(threads[t], idx) != 0 && r.value == Entry(threads[t], idx) + offset
      ensures r.None? ==> forall o :: o in objs ==> objs[o].tlsindex != idx
      ensures forall o ::
                o in objs && objs[o].tlsindex == idx && objs[o].tlsStatic ==>
                  r == Some(threads[t].tcb - objs[o].tlsoffset + offset)
    {
      hide Sound, Stable, OnlyEntry;
      ghost var s0 := Now();
      Refresh(t, idx);
      ghost var s1 := Now();
      if threads[t].dtv[idx] == 0 {
        var q := ModuleAllocate(t, idx, p, objlist);
        OnlyEntryObjs(s0, s1, t, idx, objs);
        if q.None? { return None; }
        EnteredSound(s1, objs, t, idx, q.value);
        EnteredReads(s0, s1, objs, t, idx, q.value);
        StableTransitive(s0, s1,
                         State(generation, maxIndex, objs,
                               threads[t := Thread(threads[t].tcb, threads[t].dtv[idx := q.value])]));
        threads := threads[t := Thread(threads[t].tcb, threads[t].dtv[idx := q.value])];
      }
      StaticEntries(Now(), t, idx);
      r := Some(threads[t].dtv[idx] + offset);
    }

    /** __tls_get_addr: the fast path reads the vector without the lock. */
    method GetAddr(t: Lwp, idx: nat, offset: nat, p: nat, objlist: seq<Id>) returns (r: Option<nat>)
      requires Sound(Now()) && t in threads && 0 < idx <= maxIndex && p != 0 &&
               (forall o :: o in objlist <==> o in objs)
      modifies this`objs, this`threads
      ensures Sound(Now()) && Stable(old(Now()), Now()) && objs.Keys == old(objs.Keys) &&
              threads.Keys == old(threads.Keys)
      ensures Answers(old(Now()), Now(), t, idx, p, offset, r)
      ensures r.Some? ==> Entry(threads[t], idx) != 0 && r.value == Entry(threads[t], idx) + offset
      ensures r.None? ==> forall o :: o in objs ==> objs[o].tlsindex != idx
      ensures forall o ::
                o in objs && objs[o].tlsindex == idx && objs[o].tlsStatic ==>
                  r == Some(threads[t].tcb - objs[o].tlsoffset + offset)
    {
      hide Sound, Stable, OnlyEntry;
      var dtv := threads[t].dtv;
      if idx < |dtv| && dtv[idx] != 0 {
        StableReflexive(Now());
        SameReads(Now(), t, idx);
        StaticEntries(Now(), t, idx);
        return Some(dtv[idx] + offset);
      }
      r := GetAddrSlow(t, idx, offset, p, objlist);
    }
  }

  // ---- lemmas about the steps -------------------------------------------------------------------

  /** Module m puts v into slot i of the vector of a thread with this TCB. */
  predicate EntersAs(m: Mod, i: nat, tcb: nat, v: nat) {
    m.tlsStatic && m.tlsindex == i && m.tlsoffset <= tcb && v == tcb - m.tlsoffset
  }

  /** One of the first k objects puts v into slot i. */
  ghost predicate Source(s: State, objlist: seq<Id>, k: nat, i: nat, tcb: nat, v: nat) {
    exists j :: 0 <= j < k && j < |objlist| && objlist[j] in s.objs && EntersAs(s.objs[objlist[j]], i, tcb, v)
  }

  ghost predicate OnlyStatic(s: State, objlist: seq<Id>, k: nat, tcb: nat, dtv: seq<nat>) {
    forall i :: 0 < i < |dtv| ==> dtv[i] == 0 || Source(s, objlist, k, i, tcb, dtv[i])
  }

  ghost predicate AllStatic(s: State, objlist: seq<Id>, k: nat, tcb: nat, dtv: seq<nat>) {
    forall j ::
      0 <= j < k && j < |objlist| && objlist[j] in s.objs && s.objs[objlist[j]].tlsStatic &&
      s.objs[objlist[j]].tlsindex > 0 ==>
      s.objs[objlist[j]].tlsindex < |dtv| && dtv[s.objs[objlist[j]].tlsindex] == tcb - s.objs[objlist[j]].tlsoffset
  }

  /**
   The vector after the first k objects: static modules among them are entered, and nothing
   else is; an object without TLS may have put the TCB address into slot 0.
   */
  ghost predicate Filled(s: State, objlist: seq<Id>, k: nat, tcb: nat, dtv: seq<nat>) {
    && |dtv| == s.maxIndex + 1 && (dtv[0] == s.generation || dtv[0] == tcb) && k <= |objlist| &&
       (forall o :: o in objlist ==> o in s.objs)
    && OnlyStatic(s, objlist, k, tcb, dtv) && AllStatic(s, objlist, k, tcb, dtv)
  }

  lemma NothingFilled(s: State, objlist: seq<Id>, tcb: nat, dtv: seq<nat>)
    requires dtv == [s.generation] + seq(s.maxIndex, _ => 0) && forall o :: o in objlist ==> o in s.objs
    ensures Filled(s, objlist, 0, tcb, dtv)
  {}

  lemma SourceStays(s: State, objlist: seq<Id>, k: nat, tcb: nat, dtv: seq<nat>)
    requires OnlyStatic(s, objlist, k, tcb, dtv)
    ensures OnlyStatic(s, objlist, k + 1, tcb, dtv)
  {
    forall i, v: nat | Source(s, objlist, k, i, tcb, v) ensures Source(s, objlist, k + 1, i, tcb, v) {}
  }

  /** Two places of the object list with the same positive index are the same object. */
  lemma SameIndexSameEntry(s: State, objlist: seq<Id>, j: nat, k: nat)
    requires Sound(s) && j < |objlist| && k < |objlist| && objlist[j] in s.objs && objlist[k] in s.objs
    requires s.objs[objlist[j]].tlsindex == s.objs[objlist[k]].tlsindex > 0
    ensures objlist[j] == objlist[k]
  {}

  lemma OnlyAfter(s: State, objlist: seq<Id>, k: nat, tcb: nat, dtv: seq<nat>, i: nat, v: nat)
    requires OnlyStatic(s, objlist, k, tcb, dtv) && i < |dtv| && Source(s, objlist, k, i, tcb, v)
    ensures OnlyStatic(s, objlist, k, tcb, dtv[i := v])
  {
    hide Source;
  }

  /** Entering object k overwrites no entry of an earlier object. */
  lemma AllAfter(s: State, objlist: seq<Id>, k: nat, tcb: nat, dtv: seq<nat>)
    requires Sound(s) && AllStatic(s, objlist, k, tcb, dtv) && k < |objlist| && objlist[k] in s.objs
    requires s.objs[objlist[k]].tlsindex < |dtv| && s.objs[objlist[k]].tlsoffset <= tcb
    ensures AllStatic(s, objlist, k + 1, tcb, dtv[s.objs[objlist[k]].tlsindex := tcb - s.objs[objlist[k]].tlsoffset])
  {
    var m := s.objs[objlist[k]];
    var dtv' := dtv[m.tlsindex := tcb - m.tlsoffset];
    forall j | 0 <= j < k + 1 && objlist[j] in s.objs && s.objs[objlist[j]].tlsStatic && s.objs[objlist[j]].tlsindex > 0
      ensures s.objs[objlist[j]].tlsindex < |dtv'| &&
              dtv'[s.objs[objlist[j]].tlsindex] == tcb - s.objs[objlist[j]].tlsoffset
    {
      if s.objs[objlist[j]].tlsindex == m.tlsindex { SameIndexSameEntry(s, objlist, j, k); }
    }
  }

  lemma FillStep(s: State, objlist: seq<Id>, k: nat, tcb: nat, dtv: seq<nat>)
    requires Sound(s) && Filled(s, objlist, k, tcb, dtv) && k < |objlist|
    requires forall o :: o in s.objs && s.objs[o].tlsStatic ==> s.objs[o].tlsoffset < tcb
    ensures objlist[k] in s.objs
    ensures var m := s.objs[objlist[k]];
            if m.tlsStatic then m.tlsindex < |dtv| && m.tlsoffset < tcb && Filled(s, objlist, k + 1, tcb,
                dtv[m.tlsindex := tcb - m.tlsoffset])
            else Filled(s, objlist, k + 1, tcb, dtv)
  {
    SoundMods(s);
    hide Sound, OnlyStatic;
    assert objlist[k] in objlist;
    var m := s.objs[objlist[k]];
    SourceStays(s, objlist, k, tcb, dtv);
    if m.tlsStatic {
      hide AllStatic;
      assert EntersAs(m, m.tlsindex, tcb, tcb - m.tlsoffset);
      assert Source(s, objlist, k + 1, m.tlsindex, tcb, tcb - m.tlsoffset);
      OnlyAfter(s, objlist, k + 1, tcb, dtv, m.tlsindex, tcb - m.tlsoffset);
      AllAfter(s, objlist, k, tcb, dtv);
    }
  }

  lemma SoundMods(s: State)
    requires Sound(s)
    ensures s.generation == s.maxIndex &&
            forall o ::
              o in s.objs ==>
                s.objs[o].tlsindex <= s.maxIndex && (s.objs[o].tlsindex == 0 ==> s.objs[o].tlsoffset == 0)
  {}

  lemma NewThreadSound(s: State, t: Lwp, th: Thread, objlist: seq<Id>)
    requires Sound(s) && s.generation < th.tcb && (forall o :: o in objlist <==> o in s.objs) &&
             Filled(s, objlist, |objlist|, th.tcb, th.dtv)
    requires forall o :: o in s.objs && s.objs[o].tlsStatic ==> s.objs[o].tlsoffset < th.tcb
    ensures Sound(s.(threads := s.threads[t := th]))
    ensures forall o ::
              o in s.objs && s.objs[o].tlsStatic && s.objs[o].tlsindex > 0 ==>
                Entry(th, s.objs[o].tlsindex) == th.tcb - s.objs[o].tlsoffset
  {
    forall o | o in s.objs
      ensures EntryOk(s.objs[o], th)
      ensures s.objs[o].tlsStatic && s.objs[o].tlsindex > 0 ==>
                Entry(th, s.objs[o].tlsindex) == th.tcb - s.objs[o].tlsoffset
    {
      var m := s.objs[o];
      assert ModOk(m, s.maxIndex);
      var k :| 0 <= k < |objlist| && objlist[k] == o;
      if m.tlsindex > 0 && th.dtv[m.tlsindex] != 0 {
        assert Source(s, objlist, |objlist|, m.tlsindex, th.tcb, th.dtv[m.tlsindex]);
        var j :| 0 <= j < |objlist| && objlist[j] in s.objs && EntersAs(s.objs[objlist[j]], m.tlsindex, th.tcb,
            th.dtv[m.tlsindex]);
        SameIndexSameEntry(s, objlist, j, k);
      }
    }
    SetThreadSound(s, t, th);
  }

  lemma SoundThread(s: State, t: Lwp)
    requires Sound(s) && t in s.threads
    ensures 1 <= |s.threads[t].dtv| <= s.maxIndex + 1
  {}

  lemma RegrownSound(s: State, t: Lwp)
    requires Sound(s) && t in s.threads && |s.threads[t].dtv| >= 1
    ensures var th := Regrown(s.threads[t], s.generation, s.maxIndex);
            |th.dtv| == s.maxIndex + 1 && Sound(s.(threads := s.threads[t := th])) &&
            Stable(s, s.(threads := s.threads[t := th]))
  {}

  lemma RegrownReads(s: State, t: Lwp, idx: nat)
    requires Sound(s) && t in s.threads && |s.threads[t].dtv| >= 1 && idx > 0
    ensures var s' := s.(threads := s.threads[t := Regrown(s.threads[t], s.generation, s.maxIndex)]);
            OnlyEntry(s, s', t, idx) && Entry(s'.threads[t], idx) == Entry(s.threads[t], idx)
  {
    assert ThreadOk(s.threads[t], s.generation, s.maxIndex);
    var th := Regrown(s.threads[t], s.generation, s.maxIndex);
    forall i | i > 0 ensures Entry(th, i) == Entry(s.threads[t], i) {}
  }

  lemma SameReads(s: State, t: Lwp, idx: nat)
    requires t in s.threads
    ensures OnlyEntry(s, s, t, idx)
  {}

  lemma OnlyEntryObjs(s: State, s': State, t: Lwp, idx: nat, objs: map<Id, Mod>)
    requires OnlyEntry(s, s', t, idx)
    ensures OnlyEntry(s, s'.(objs := objs), t, idx)
  {}

  lemma EnteredReads(s: State, s1: State, objs: map<Id, Mod>, t: Lwp, idx: nat, v: nat)
    requires OnlyEntry(s, s1, t, idx) && t in s1.threads && idx < |s1.threads[t].dtv|
    ensures OnlyEntry(s, State(s1.generation, s1.maxIndex, objs,
                               s1.threads[t := Thread(s1.threads[t].tcb, s1.threads[t].dtv[idx := v])]), t, idx)
  {}

  lemma StableReflexive(s: State)
    ensures Stable(s, s)
  {}

  lemma StableTransitive(a: State, b: State, c: State)
    requires Stable(a, b) && Stable(b, c)
    ensures Stable(a, c)
  {}

  /** The entry of a static module, once present, is its place below the TCB. */
  lemma StaticEntries(s: State, t: Lwp, idx: nat)
    requires Sound(s) && t in s.threads && idx > 0 && Entry(s.threads[t], idx) != 0
    ensures forall o ::
              o in s.objs && s.objs[o].tlsindex == idx && s.objs[o].tlsStatic ==>
                Entry(s.threads[t], idx) == s.threads[t].tcb - s.objs[o].tlsoffset
  {}

  /** Filling an empty entry of one thread, with the module marked dynamic unless it is static. */
  lemma EnteredSound(s: State, objs': map<Id, Mod>, t: Lwp, idx: nat, v: nat)
    requires Sound(s) && t in s.threads && 0 < idx < |s.threads[t].dtv| && s.threads[t].dtv[idx] == 0
    requires objs'.Keys == s.objs.Keys
    requires forall o :: o in s.objs ==> objs'[o] == Marked(s.objs[o], idx)
    requires forall o ::
               o in objs' && objs'[o].tlsindex == idx && objs'[o].tlsStatic ==>
                 v == s.threads[t].tcb - objs'[o].tlsoffset
    ensures var s' := State(s.generation, s.maxIndex, objs',
                            s.threads[t := Thread(s.threads[t].tcb, s.threads[t].dtv[idx := v])]);
            Sound(s') && Stable(s, s')
  {
    var th := Thread(s.threads[t].tcb, s.threads[t].dtv[idx := v]);
    var mid := s.(objs := objs');
    MarkedSound(s, objs', idx);
    assert ThreadOk(th, s.generation, s.maxIndex) by { assert ThreadOk(s.threads[t], s.generation, s.maxIndex); }
    forall o | o in objs' ensures EntryOk(objs'[o], th) { assert EntryOk(s.objs[o], s.threads[t]); }
    SetThreadSound(mid, t, th);
    hide Sound, Stable, ThreadOk, EntryOk, ModOk;
    EnteredStable(s, objs', t, idx, v);
    assert mid.(threads := mid.threads[t := th]) == State(s.generation, s.maxIndex, objs', s.threads[t := th]);
  }

  lemma EnteredStable(s: State, objs': map<Id, Mod>, t: Lwp, idx: nat, v: nat)
    requires t in s.threads && idx < |s.threads[t].dtv| && s.threads[t].dtv[idx] == 0
    ensures Stable(s,
                   State(s.generation, s.maxIndex, objs',
                         s.threads[t := Thread(s.threads[t].tcb, s.threads[t].dtv[idx := v])]))
  {}

  lemma MarkedSound(s: State, objs': map<Id, Mod>, idx: nat)
    requires Sound(s) && objs'.Keys == s.objs.Keys && idx > 0
    requires forall o :: o in s.objs ==> objs'[o] == Marked(s.objs[o], idx)
    ensures Sound(s.(objs := objs'))
  {}

  // ---- different storage --------------------------------------------------------------------------

  /** Accesses, loading, unloading and new threads: a sequence of states in which no address handed out changes. */
  ghost predicate Keeps(ss: seq<State>) { forall k :: 0 <= k < |ss| - 1 ==> Stable(ss[k], ss[k + 1]) }

  lemma {:induction false} EntryLasts(ss: seq<State>, k: nat, n: nat, t: Lwp, i: nat)
    requires Keeps(ss) && k <= n < |ss| && t in ss[k].threads && i > 0 && Entry(ss[k].threads[t], i) != 0
    ensures t in ss[n].threads && Entry(ss[n].threads[t], i) == Entry(ss[k].threads[t], i)
  {
    if k < n {
      EntryLasts(ss, k, n - 1, t, i);
      assert Stable(ss[n - 1], ss[n]);
    }
  }

  ghost predicate Accesses(s: State, s': State, t: Lwp, idx: nat, p: nat) {
    exists offset: nat, r :: Answers(s, s', t, idx, p, offset, r)
  }

  /** Step k is the first access of thread t to a module that is not static, for which the heap returned p. */
  ghost predicate FirstAccess(ss: seq<State>, k: nat, t: Lwp, idx: nat, p: nat) {
    && k + 1 < |ss| && t in ss[k].threads && idx > 0 && p != 0 && Entry(ss[k].threads[t], idx) == 0
    && (exists o :: o in ss[k].objs && ss[k].objs[o].tlsindex == idx && !ss[k].objs[o].tlsStatic)
    && Accesses(ss[k], ss[k + 1], t, idx, p)
  }

  /** Two first accesses are by different threads or to different modules, and each keeps the storage it was given. */
  lemma DifferentStorage(ss: seq<State>, k: nat, m: nat, n: nat, t: Lwp, i: nat, p: nat, u: Lwp, j: nat, q: nat)
    requires Keeps(ss) && k < m < n < |ss| && FirstAccess(ss, k, t, i, p) && FirstAccess(ss, m, u, j, q)
    ensures (t, i) != (u, j) && t in ss[n].threads && u in ss[n].threads
    ensures Entry(ss[n].threads[t], i) == p && Entry(ss[n].threads[u], j) == q
  {
    EntryLasts(ss, k + 1, m, t, i);
    EntryLasts(ss, k + 1, n, t, i);
    EntryLasts(ss, m + 1, n, u, j);
  }

  // ---- the two access models agree ---------------------------------------------------------------

  const WORD: nat := 0x1_0000_0000_0000_0000

  /** The value that an R_X86_64_TPOFF64 relocation stores, a 64-bit word. */
  function Tpoff64(value: nat, addend: int, m: Mod): nat { (value - m.tlsoffset + addend) % WORD }

  /** The values that R_X86_64_DTPMOD64 and R_X86_64_DTPOFF64 store. */
  function Dtpmod64(m: Mod): nat { m.tlsindex }
  function Dtpoff64(value: nat, addend: int): nat { (value + addend) % WORD }

  lemma WrapAgrees(x: int, y: int)
    ensures (x + y % WORD) % WORD == (x + y) % WORD
  {
    var q := y / WORD;
    assert x + y == (x + y % WORD) + WORD * q;
    var r := (x + y % WORD) / WORD;
    assert x + y == WORD * (r + q) + (x + y % WORD) % WORD;
  }

  /**
   For a static module, what __tls_get_addr returns for the words stored by DTPMOD64 and
   DTPOFF64 is the TCB plus the word stored by TPOFF64, in 64-bit arithmetic.
   */
  lemma ModelsAgree(s: State, t: Lwp, o: Id, value: nat, addend: int, addr: nat)
    requires Sound(s) && t in s.threads && o in s.objs && s.objs[o].tlsStatic && s.objs[o].tlsindex > 0
    requires Entry(s.threads[t], Dtpmod64(s.objs[o])) != 0
    requires addr == Entry(s.threads[t], Dtpmod64(s.objs[o])) + Dtpoff64(value, addend)
    ensures addr % WORD == (s.threads[t].tcb + Tpoff64(value, addend, s.objs[o])) % WORD
  {
    StaticEntries(s, t, s.objs[o].tlsindex);
    var tcb, off := s.threads[t].tcb, s.objs[o].tlsoffset;
    WrapAgrees(tcb - off, value + addend);
    WrapAgrees(tcb, value - off + addend);
  }

  /** No object is ever both static and dynamic, and indices of loaded objects stay in bounds. */
  lemma NeverBoth(s: State, o: Id)
    requires Sound(s) && o in s.objs
    ensures !(s.objs[o].tlsStatic && s.objs[o].tlsDynamic) && s.objs[o].tlsindex <= s.maxIndex
  {}

  lemma LoadedSound(s: State, o: Id)
    requires Sound(s) && o !in s.objs && forall t :: t in s.threads ==> s.generation + 1 < s.threads[t].tcb
    ensures Sound(State(s.generation + 1, s.maxIndex + 1, s.objs[o := Mod(s.maxIndex + 1, false, false, 0)], s.threads))
  {}
}

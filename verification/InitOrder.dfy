/**
 The order in which constructors and destructors run: the depth-first topological sort of the
 loaded objects by their DT_NEEDED entries (_rtld_initlist_visit and _rtld_initlist_tsort).
 */
module InitOrder {

  /** An Obj_Entry pointer; 0 is NULL. */
  type Id = nat
  const NULL: Id := 0

  datatype RelocState = NotYet | Ready | Done | Failed

  /**
   What the sort reads: the object list with the main program at its head, the DT_NEEDED
   entries of each object (NULL while not loaded), and the relocation states.
   */
  datatype Graph = Graph(objlist: seq<Id>, needed: map<Id, seq<Id>>, reloc: map<Id, RelocState>)

  predicate Relocated(g: Graph, o: Id) {
    o in g.reloc && (g.reloc[o].Done? || g.reloc[o].Failed?)
  }

  /** The objects the sort starts from: all but the main program. */
  function Tail(g: Graph): seq<Id> { if g.objlist == [] then [] else g.objlist[1..] }

  /**
   Every needed object is known, and a relocated one is on the list behind the main program:
   _rtld_load_by_name and _rtld_load_object search from there, and the linker's own entry,
   which they can also return, is never relocated.
   */
  ghost predicate WellFormed(g: Graph) {
    && g.objlist != [] && NULL !in g.needed
    && g.needed.Keys == g.reloc.Keys
    && (forall o :: o in g.objlist ==> o in g.needed)
    && (forall o, n :: Needs(g, o, n) ==> n in g.needed && (Relocated(g, n) ==> n in Tail(g)))
  }

  predicate Needs(g: Graph, o: Id, n: Id) { o in g.needed && n != NULL && n in g.needed[o] }

  ghost predicate Ranked(g: Graph, rank: Id -> nat) {
    forall o, n :: Needs(g, o, n) ==> rank(n) < rank(o)
  }

  ghost predicate Acyclic(g: Graph) { exists rank: Id -> nat :: Ranked(g, rank) }

  /** A chain of needed entries through relocated objects. */
  ghost predicate IsPath(g: Graph, p: seq<Id>) {
    && p != []
    && (forall i :: 0 <= i < |p| ==> Relocated(g, p[i]))
    && (forall i :: 0 <= i < |p| - 1 ==> Needs(g, p[i], p[i + 1]))
  }

  ghost predicate PathTo(g: Graph, locked: set<Id>, o: Id, p: seq<Id>) {
    IsPath(g, p) && p[0] == o && p[|p| - 1] in locked
  }

  /** o is locked itself or reaches a locked object through relocated objects. */
  ghost predicate Blocked(g: Graph, locked: set<Id>, o: Id) {
    exists p :: PathTo(g, locked, o, p)
  }

  /** A chain of needed entries through relocated objects leads from o to one whose init/fini lock the thread holds. */
  ghost predicate LeadsToHeld(g: Graph, initfinilock: map<Id, nat>, self: nat, o: Id) {
    exists p :: IsPath(g, p) && p[0] == o && p[|p| - 1] in initfinilock && initfinilock[p[|p| - 1]] == self
  }

  // ---- the sort as a function -------------------------------------------------------------

  /** The init_done and init_blocked flags of all objects, and the objects listed so far. */
  datatype Marks = Marks(done: set<Id>, blocked: set<Id>, order: seq<Id>)

  function Visited(g: Graph, m: Marks, o: Id): (r: (Marks, bool))
    requires WellFormed(g) && (o in g.needed || o == NULL)
    ensures m.done <= r.0.done
    decreases g.needed.Keys - m.done, 1, 0
  {
    if !Relocated(g, o) then (m, false)
    else if o in m.done then (m, o in m.blocked)
    else
      assert forall n :: n in g.needed[o] && n != NULL ==> Needs(g, o, n);
      var (m1, b) := VisitedNeeded(g, m.(done := m.done + {o}), g.needed[o]);
      if b then (m1.(blocked := m1.blocked + {o}), true)
      else (m1.(blocked := m1.blocked - {o}, order := m1.order + [o]), false)
  }

  function VisitedNeeded(g: Graph, m: Marks, ns: seq<Id>): (r: (Marks, bool))
    requires WellFormed(g) && (forall n :: n in ns ==> n in g.needed || n == NULL)
    ensures m.done <= r.0.done
    decreases g.needed.Keys - m.done, 2, |ns|
  {
    if ns == [] then (m, false)
    else
      var (m1, b1) := Visited(g, m, ns[0]);
      var (m2, b2) := VisitedNeeded(g, m1, ns[1..]);
      (m2, b1 || b2)
  }

  /** The flags before the visits: the objects whose init/fini this thread is running are marked. */
  function Start(locked: set<Id>): Marks { Marks(locked, locked, []) }

  function Order(g: Graph, locked: set<Id>): seq<Id>
    requires WellFormed(g)
  {
    VisitedNeeded(g, Start(locked), Tail(g)).0.order
  }

  /** The objects this thread runs init or fini functions for, as seen by a dlopen or dlclose. */
  function Locked(g: Graph, dl: bool, initfinilock: map<Id, nat>, self: nat): set<Id>
    requires forall o :: o in g.objlist ==> o in initfinilock
  {
    if dl then set o | o in Tail(g) && initfinilock[o] == self else {}
  }

  function Reverse(s: seq<Id>): seq<Id> {
    if s == [] then [] else [s[|s| - 1]] + Reverse(s[..|s| - 1])
  }

  // ---- the sort as the code does it -------------------------------------------------------

  /** The flags and the list that the visits update in place. */
  class Sorter {
    var initDone: set<Id>
    var initBlocked: set<Id>
    var list: seq<Id>

    /** The flags of the objects on the list, and the list, are those of m. */
    ghost predicate Shows(g: Graph, m: Marks, rev: bool)
      reads this
    {
      && (forall o :: o in Tail(g) ==> (o in initDone <==> o in m.done) && (o in initBlocked <==> o in m.blocked))
      && list == if rev then Reverse(m.order) else m.order
    }

    /** _rtld_initlist_visit. */
    method Visit(g: Graph, o: Id, rev: bool, ghost m: Marks) returns (blocked: bool)
      requires WellFormed(g) && (o in g.needed || o == NULL) && Shows(g, m, rev)
      requires Relocated(g, o) ==> o in Tail(g)
      modifies this
      ensures Shows(g, Visited(g, m, o).0, rev) && blocked == Visited(g, m, o).1
      ensures old(initDone) <= initDone
      decreases g.needed.Keys - initDone, 1
    {
      if !Relocated(g, o) { return false; }
      if o in initDone { return o in initBlocked; }
      initDone := initDone + {o};
      assert forall n :: n in g.needed[o] && n != NULL ==> Needs(g, o, n);
      ghost var m0 := m.(done := m.done + {o});
      blocked := VisitElms(g, g.needed[o], rev, m0);
      initBlocked := if blocked then initBlocked + {o} else initBlocked - {o};
      if !blocked {
        list := if rev then [o] + list else list + [o];
        ReverseAppend(VisitedNeeded(g, m0, g.needed[o]).0.order, o);
      }
    }

    /** The loop of _rtld_initlist_visit over the needed entries. */
    method VisitElms(g: Graph, elms: seq<Id>, rev: bool, ghost m: Marks) returns (blocked: bool)
      requires WellFormed(g) && Shows(g, m, rev)
      requires forall n :: n in elms && n != NULL ==> n in g.needed && (Relocated(g, n) ==> n in Tail(g))
      modifies this
      ensures Shows(g, VisitedNeeded(g, m, elms).0, rev) && blocked == VisitedNeeded(g, m, elms).1
      ensures old(initDone) <= initDone
      decreases g.needed.Keys - initDone, 2
    {
      blocked := false;
      ghost var cur := m;
      for i := 0 to |elms|
        invariant Shows(g, cur, rev) && old(initDone) <= initDone
        invariant VisitedNeeded(g, cur, elms[i..]).0 == VisitedNeeded(g, m, elms).0
        invariant (blocked || VisitedNeeded(g, cur, elms[i..]).1) == VisitedNeeded(g, m, elms).1
      {
        assert elms[i..][0] == elms[i] && elms[i..][1..] == elms[i + 1..];
        ghost var before := cur;
        cur := Visited(g, before, elms[i]).0;
        if elms[i] != NULL {
          var b := Visit(g, elms[i], rev, before);
          if b { blocked := true; }
        }
      }
    }

    /** Clears the flags of all objects but the main program. */
    method ClearFlags(tail: seq<Id>)
      modifies this`initDone, this`initBlocked
      ensures forall o :: o in tail ==> o !in initDone && o !in initBlocked
    {
      for i := 0 to |tail|
        invariant forall o :: o in tail[..i] ==> o !in initDone && o !in initBlocked
      {
        initDone, initBlocked := initDone - {tail[i]}, initBlocked - {tail[i]};
      }
    }

    /** Marks the objects whose init or fini functions this thread is running. */
    method MarkLocked(tail: seq<Id>, initfinilock: map<Id, nat>, self: nat)
      requires forall o :: o in tail ==> o in initfinilock && o !in initDone && o !in initBlocked
      modifies this`initDone, this`initBlocked
      ensures forall o ::
                o in tail ==> (o in initDone <==> initfinilock[o] == self) && (o in initBlocked <==> o in initDone)
    {
      for i := 0 to |tail|
        invariant forall o :: o in tail ==> (o in initDone <==> o in tail[..i] && initfinilock[o] == self)
        invariant forall o :: o in tail ==> (o in initBlocked <==> o in initDone)
      {
        if initfinilock[tail[i]] == self {
          initDone, initBlocked := initDone + {tail[i]}, initBlocked + {tail[i]};
        }
      }
    }

    /**
     _rtld_initlist_tsort; `dl` says that a dlopen or dlclose is in progress.  Told from its
     arguments: what it lists, what it leaves out and why, and in which order.
     */
    method Tsort(g: Graph, rev: bool, dl: bool, initfinilock: map<Id, nat>, self: nat)
      requires WellFormed(g) && (forall o :: o in g.objlist ==> o in initfinilock)
      requires list == []
      modifies this
      ensures var order := Order(g, Locked(g, dl, initfinilock, self));
              list == if rev then Reverse(order) else order
      ensures NoDuplicates(list) && forall o :: o in list ==> o in Tail(g) && Relocated(g, o)
      ensures dl ==> forall o :: o in list ==> initfinilock[o] != self
      ensures forall o :: o in Tail(g) && Relocated(g, o) && o !in list ==> dl && LeadsToHeld(g, initfinilock, self, o)
      ensures dl && Acyclic(g) ==> forall o :: o in list ==> !LeadsToHeld(g, initfinilock, self, o)
      ensures forall i, j ::
                0 <= i <= j < |list| && (if rev then Needs(g, list[j], list[i]) else Needs(g, list[i], list[j])) ==>
                  if rev then Reaches(g, list[i], list[j]) else Reaches(g, list[j], list[i])
    {
      hide Acyclic, Reaches, LeadsToHeld, Relocated;
      SortMeaning(g, dl, initfinilock, self);
      var tail := g.objlist[1..];
      ClearFlags(tail);
      if dl { MarkLocked(tail, initfinilock, self); }
      ghost var start := Start(Locked(g, dl, initfinilock, self));
      var _ := VisitElms(g, tail, rev, start);
    }
  }

  lemma ReverseAppend(s: seq<Id>, o: Id)
    ensures Reverse(s + [o]) == [o] + Reverse(s)
  {}

  // ---- blocking -------------------------------------------------------------------------

  lemma {:induction false} BlockedStep(g: Graph, locked: set<Id>, o: Id)
    requires WellFormed(g) && Relocated(g, o)
    ensures Blocked(g, locked, o) <==> o in locked || exists n :: Needs(g, o, n) && Blocked(g, locked, n)
  {
    if Blocked(g, locked, o) && o !in locked {
      var p :| PathTo(g, locked, o, p);
      assert PathTo(g, locked, p[1], p[1..]);
      assert Needs(g, o, p[1]);
    }
    if o in locked { assert PathTo(g, locked, o, [o]); }
    if n :| Needs(g, o, n) && Blocked(g, locked, n) {
      var p :| PathTo(g, locked, n, p);
      var q := [o] + p;
      forall i | 0 <= i < |q| - 1 ensures Needs(g, q[i], q[i + 1]) {
        if i > 0 { assert Needs(g, p[i - 1], p[i]); }
      }
      assert PathTo(g, locked, o, q);
    }
  }

  // ---- the visits of any graph --------------------------------------------------------------

  ghost predicate NoDuplicates(s: seq<Id>) { forall i, j :: 0 <= i < j < |s| ==> s[i] != s[j] }

  /** A chain of needed entries from a to b through relocated objects. */
  ghost predicate Reaches(g: Graph, a: Id, b: Id) {
    exists p :: IsPath(g, p) && p[0] == a && p[|p| - 1] == b
  }

  /** The objects whose visits may be in progress together: each needs the next, none is locked. */
  ghost predicate Chain(g: Graph, locked: set<Id>, c: seq<Id>) {
    && NoDuplicates(c)
    && (forall i :: 0 <= i < |c| ==> c[i] in Tail(g) && Relocated(g, c[i]) && c[i] !in locked)
    && (forall i :: 0 <= i < |c| - 1 ==> Needs(g, c[i], c[i + 1]))
  }

  /** The last object of the chain directly needs a blocked object that is not on the chain. */
  ghost predicate Escape(g: Graph, locked: set<Id>, c: seq<Id>)
    requires c != []
  {
    exists n :: Needs(g, c[|c| - 1], n) && n !in c && Blocked(g, locked, n)
  }

  /** Every blocked object can be found blocked, whichever chain of visits leads to it. */
  ghost predicate Escapes(g: Graph, locked: set<Id>) {
    forall c :: c != [] && Chain(g, locked, c) && Blocked(g, locked, c[|c| - 1]) ==> Escape(g, locked, c)
  }

  /** Finished: listed, or found to be blocked. */
  predicate Finished(m: Marks, o: Id) { o in m.order || o in m.blocked }

  /** An object is listed before one that it needs only if the two are on a cycle. */
  ghost predicate Ordered(g: Graph, s: seq<Id>) {
    forall i, j :: 0 <= i <= j < |s| && Needs(g, s[i], s[j]) ==> Reaches(g, s[j], s[i])
  }

  ghost predicate Flags(g: Graph, locked: set<Id>, m: Marks) {
    && m.blocked <= m.done && locked <= m.blocked
    && (forall o :: o in m.order ==> o in m.done && o !in m.blocked && o in Tail(g) && Relocated(g, o))
    && (forall o :: o in m.blocked && Relocated(g, o) ==> Blocked(g, locked, o))
    && (Escapes(g, locked) ==> forall o :: o in m.order ==> !Blocked(g, locked, o))
  }

  /** What listed objects need is finished, or is an object in progress that reaches them. */
  ghost predicate Settled(g: Graph, m: Marks, c: seq<Id>) {
    forall a, b :: a in m.order && Needs(g, a, b) && Relocated(g, b) ==> Finished(m, b) || (b in c && Reaches(g, b, a))
  }

  /** The flags and the list while the visits of exactly the objects of c are in progress. */
  ghost predicate During(g: Graph, locked: set<Id>, m: Marks, c: seq<Id>) {
    && Chain(g, locked, c) && Flags(g, locked, m) && NoDuplicates(m.order) && Ordered(g, m.order) && Settled(g, m, c)
    && (forall o :: o in c ==> o in m.done && !Finished(m, o))
    && (forall o :: o in m.done ==> Finished(m, o) || o in c)
  }

  /** A visit only adds. */
  ghost predicate Adds(m: Marks, m': Marks) {
    m.done <= m'.done && m.blocked <= m'.blocked && forall o :: o in m.order ==> o in m'.order
  }

  lemma ChainReaches(g: Graph, locked: set<Id>, c: seq<Id>, i: nat)
    requires Chain(g, locked, c) && i < |c|
    ensures Reaches(g, c[i], c[|c| - 1])
  {
    assert IsPath(g, c[i..]);
  }

  lemma BlockedRelocated(g: Graph, locked: set<Id>)
    ensures forall o :: Blocked(g, locked, o) ==> Relocated(g, o)
  {}

  /** A visit begins. */
  lemma Begin(g: Graph, locked: set<Id>, m: Marks, c: seq<Id>, o: Id)
    requires During(g, locked, m, c) && o !in m.done && Relocated(g, o) && o in Tail(g) &&
             (c != [] ==> Needs(g, c[|c| - 1], o))
    ensures During(g, locked, m.(done := m.done + {o}), c + [o])
  {
    hide Blocked, Reaches, Escapes, Ordered;
    var m0 := m.(done := m.done + {o});
    assert forall x :: Finished(m0, x) == Finished(m, x);
    assert forall x :: x in c + [o] <==> x in c || x == o;
  }

  /** The object is found blocked. */
  lemma EndBlocked(g: Graph, locked: set<Id>, m: Marks, c: seq<Id>, o: Id)
    requires During(g, locked, m, c + [o]) && Blocked(g, locked, o)
    ensures During(g, locked, m.(blocked := m.blocked + {o}), c)
  {
    hide Blocked, Reaches, Escapes, Ordered;
    ChainFront(g, locked, c, o);
    var m' := m.(blocked := m.blocked + {o});
    assert forall x :: Finished(m', x) <==> Finished(m, x) || x == o;
    assert forall x :: x in c + [o] <==> x in c || x == o;
  }

  lemma ChainFront(g: Graph, locked: set<Id>, c: seq<Id>, o: Id)
    requires Chain(g, locked, c + [o])
    ensures Chain(g, locked, c) && o !in c && o in Tail(g) && Relocated(g, o)
  {
    var d := c + [o];
    assert forall i :: 0 <= i < |c| ==> c[i] == d[i];
    assert d[|c|] == o;
  }

  /** What the object needs was visited, so it is finished or in progress above it. */
  lemma NeedsSettled(g: Graph, locked: set<Id>, m: Marks, c: seq<Id>, o: Id, b: Id)
    requires During(g, locked, m, c + [o]) && b in m.done
    ensures Finished(m, b) || b == o || (b in c && Reaches(g, b, o))
  {
    if !Finished(m, b) && b != o {
      var i :| 0 <= i < |c + [o]| && (c + [o])[i] == b;
      ChainReaches(g, locked, c + [o], i);
    }
  }

  lemma ListedOrdered(g: Graph, locked: set<Id>, m: Marks, c: seq<Id>, o: Id)
    requires During(g, locked, m, c + [o])
    ensures Ordered(g, m.order + [o]) && NoDuplicates(m.order + [o])
  {
    hide Blocked, Escapes, Chain;
    var s := m.order + [o];
    assert o in c + [o];
    forall i, j | 0 <= i <= j < |s| && Needs(g, s[i], s[j]) ensures Reaches(g, s[j], s[i]) {
      if j == |m.order| {
        assert Relocated(g, o) by { ChainFront(g, locked, c, o); }
        if i == j { assert IsPath(g, [o]); }
      }
    }
  }

  lemma ListedSettled(g: Graph, locked: set<Id>, m: Marks, c: seq<Id>, o: Id, m': Marks)
    requires During(g, locked, m, c + [o]) && (forall n :: Needs(g, o, n) && Relocated(g, n) ==> n in m.done)
    requires m'.order == m.order + [o] && m'.blocked == m.blocked
    ensures Settled(g, m', c)
  {
    forall a, b | a in m'.order && Needs(g, a, b) && Relocated(g, b)
      ensures Finished(m', b) || (b in c && Reaches(g, b, a))
    {
      hide Reaches, Blocked, Escapes, Chain, Flags, Ordered;
      assert Finished(m, b) ==> Finished(m', b);
      if a == o { NeedsSettled(g, locked, m, c, o, b); }
    }
  }

  lemma ListedFlags(g: Graph, locked: set<Id>, m: Marks, o: Id, m': Marks)
    requires Flags(g, locked, m) && o in m.done && o !in m.blocked && o in Tail(g) && Relocated(g, o)
    requires Escapes(g, locked) ==> !Blocked(g, locked, o)
    requires m'.order == m.order + [o] && m'.blocked == m.blocked && m'.done == m.done
    ensures Flags(g, locked, m')
  {
    hide Escapes, Blocked;
  }

  /** The object is listed. */
  lemma EndListed(g: Graph, locked: set<Id>, m: Marks, c: seq<Id>, o: Id)
    requires During(g, locked, m, c + [o]) && (Escapes(g, locked) ==> !Blocked(g, locked, o))
    requires forall n :: Needs(g, o, n) && Relocated(g, n) ==> n in m.done
    ensures During(g, locked, m.(blocked := m.blocked - {o}, order := m.order + [o]), c)
  {
    hide Blocked, Reaches, Escapes, Ordered, Chain, Settled, Flags;
    ListedOrdered(g, locked, m, c, o);
    ChainFront(g, locked, c, o);
    var m' := m.(blocked := m.blocked - {o}, order := m.order + [o]);
    assert o in c + [o];
    assert m'.blocked == m.blocked;
    ListedSettled(g, locked, m, c, o, m');
    ListedFlags(g, locked, m, o, m');
    assert forall x :: Finished(m', x) <==> Finished(m, x) || x == o;
    assert forall x :: x in c + [o] <==> x in c || x == o;
  }

  /** A blocked need outside the chain makes the object blocked; the chain's objects never do. */
  ghost predicate FindsBlock(g: Graph, locked: set<Id>, ns: seq<Id>, c: seq<Id>) {
    exists n :: n in ns && n != NULL && n !in c && Blocked(g, locked, n)
  }

  lemma {:induction false} VisitedDuring(g: Graph, locked: set<Id>, m: Marks, o: Id, c: seq<Id>)
    requires WellFormed(g) && (o in g.needed || o == NULL) && (Relocated(g, o) ==> o in Tail(g)) &&
             During(g, locked, m, c)
    requires o != NULL && c != [] ==> Needs(g, c[|c| - 1], o)
    ensures var (m', b) := Visited(g, m, o);
            && During(g, locked, m', c) && Adds(m, m') && (Relocated(g, o) ==> o in m'.done)
            && (b ==> Blocked(g, locked, o) && o !in c)
            && (Escapes(g, locked) && Blocked(g, locked, o) && o !in c ==> b)
    decreases g.needed.Keys - m.done, 1, 0
  {
    BlockedRelocated(g, locked);
    hide Blocked, Reaches, Ordered, Chain, Escapes, Settled;
    if Relocated(g, o) && o !in m.done {
      Begin(g, locked, m, c, o);
      assert forall n :: n in g.needed[o] && n != NULL <==> Needs(g, o, n);
      var m0 := m.(done := m.done + {o});
      VisitedNeededDuring(g, locked, m0, g.needed[o], c + [o]);
      var (m1, b) := VisitedNeeded(g, m0, g.needed[o]);
      VisitEnds(g, locked, m, o, c, m1, b);
    }
  }

  lemma VisitEnds(g: Graph, locked: set<Id>, m: Marks, o: Id, c: seq<Id>, m1: Marks, b: bool)
    requires WellFormed(g) && o in g.needed && Relocated(g, o) && o !in m.done && (forall x :: x in c ==> x in m.done)
    requires During(g, locked, m1, c + [o]) && Adds(m, m1) &&
             (forall n :: Needs(g, o, n) && Relocated(g, n) ==> n in m1.done)
    requires b ==> FindsBlock(g, locked, g.needed[o], c + [o])
    requires Escapes(g, locked) && FindsBlock(g, locked, g.needed[o], c + [o]) ==> b
    ensures var m' := if b then m1.(blocked := m1.blocked + {o}) else m1.(blocked := m1.blocked - {o},
                                    order := m1.order + [o]);
            During(g, locked, m', c) && Adds(m, m') && o in m'.done
    ensures (b ==> Blocked(g, locked, o)) && (Escapes(g, locked) && Blocked(g, locked, o) ==> b)
  {
    hide Blocked, Reaches, Escapes, Ordered, Settled, Flags;
    assert o in c + [o];
    assert Chain(g, locked, c + [o]);
    if Escapes(g, locked) && Blocked(g, locked, o) { EscapeFound(g, locked, c, o); }
    if b {
      BlockedStep(g, locked, o);
      EndBlocked(g, locked, m1, c, o);
    } else {
      EndListed(g, locked, m1, c, o);
      assert m1.blocked - {o} == m1.blocked;
    }
  }

  lemma EscapeFound(g: Graph, locked: set<Id>, c: seq<Id>, o: Id)
    requires Chain(g, locked, c + [o]) && Escapes(g, locked) && Blocked(g, locked, o) && o in g.needed
    ensures FindsBlock(g, locked, g.needed[o], c + [o])
  {
    var d := c + [o];
    assert d[|d| - 1] == o;
    assert Escape(g, locked, d);
  }

  lemma {:induction false} VisitedNeededDuring(g: Graph, locked: set<Id>, m: Marks, ns: seq<Id>, c: seq<Id>)
    requires WellFormed(g) && During(g, locked, m, c)
    requires forall n ::
               n in ns && n != NULL ==>
                 n in g.needed && (Relocated(g, n) ==> n in Tail(g)) && (c != [] ==> Needs(g, c[|c| - 1], n))
    ensures var (m', b) := VisitedNeeded(g, m, ns);
            && During(g, locked, m', c) && Adds(m, m') && (forall n :: n in ns && Relocated(g, n) ==> n in m'.done)
            && (b ==> FindsBlock(g, locked, ns, c)) && (Escapes(g, locked) && FindsBlock(g, locked, ns, c) ==> b)
    decreases g.needed.Keys - m.done, 2, |ns|
  {
    hide Blocked, During, Escapes;
    if ns != [] {
      VisitedDuring(g, locked, m, ns[0], c);
      var (m1, b1) := Visited(g, m, ns[0]);
      assert forall n :: n in ns[1..] ==> n in ns;
      VisitedNeededDuring(g, locked, m1, ns[1..], c);
      FindsFirst(g, locked, ns, c);
    }
  }

  lemma FindsFirst(g: Graph, locked: set<Id>, ns: seq<Id>, c: seq<Id>)
    requires ns != []
    ensures FindsBlock(g, locked, ns, c) <==>
              (ns[0] != NULL && ns[0] !in c && Blocked(g, locked, ns[0])) || FindsBlock(g, locked, ns[1..], c)
  {
    hide Blocked;
    assert forall n :: n in ns <==> n == ns[0] || n in ns[1..];
  }

  // ---- the theorems -----------------------------------------------------------------------

  /** The list holds exactly the relocated objects that are not blocked. */
  ghost predicate Exact(g: Graph, locked: set<Id>)
    requires WellFormed(g)
  {
    forall o :: o in Order(g, locked) <==> o in Tail(g) && Relocated(g, o) && !Blocked(g, locked, o)
  }

  lemma StartDuring(g: Graph, locked: set<Id>)
    requires WellFormed(g)
    ensures During(g, locked, Start(locked), [])
  {
    forall o | o in locked && Relocated(g, o) ensures Blocked(g, locked, o) { BlockedStep(g, locked, o); }
  }

  /**
   On any graph, each object is listed at most once, listed objects are relocated and not
   locked, a relocated object is left out only if it is blocked, and an object comes before
   one that it needs only if the two are on a cycle.
   */
  lemma OrderSafe(g: Graph, locked: set<Id>)
    requires WellFormed(g)
    ensures var order := Order(g, locked);
            && NoDuplicates(order) && Ordered(g, order)
            && (forall o :: o in order ==> o in Tail(g) && Relocated(g, o) && o !in locked)
            && (forall o :: o in Tail(g) && Relocated(g, o) && o !in order ==> Blocked(g, locked, o))
    ensures Escapes(g, locked) ==> Exact(g, locked)
  {
    hide Blocked, Reaches, Escapes;
    StartDuring(g, locked);
    VisitedNeededDuring(g, locked, Start(locked), Tail(g), []);
  }

  /** The same objects and the same needed entries, in any other order; the main program stays first. */
  ghost predicate Reordered(g: Graph, g': Graph) {
    && g'.reloc == g.reloc && g'.needed.Keys == g.needed.Keys && g.objlist != [] && g'.objlist != []
    && g'.objlist[0] == g.objlist[0] && multiset(Tail(g')) == multiset(Tail(g))
    && (forall o :: o in g.needed ==> multiset(g'.needed[o]) == multiset(g.needed[o]))
  }

  lemma ReorderedSame(g: Graph, g': Graph)
    requires Reordered(g, g')
    ensures forall o, n :: Needs(g', o, n) <==> Needs(g, o, n)
    ensures forall o :: (o in Tail(g') <==> o in Tail(g)) && (Relocated(g', o) <==> Relocated(g, o))
    ensures WellFormed(g) ==> WellFormed(g')
  {
    forall o ensures o in Tail(g') <==> o in Tail(g) { assert o in multiset(Tail(g')) <==> o in multiset(Tail(g)); }
    forall o, n ensures Needs(g', o, n) <==> Needs(g, o, n) {
      if o in g.needed { assert n in multiset(g'.needed[o]) <==> n in multiset(g.needed[o]); }
    }
    assert forall o :: o in g'.objlist ==> o == g'.objlist[0] || o in Tail(g');
  }

  lemma ReorderedBlocked(g: Graph, g': Graph, locked: set<Id>)
    requires Reordered(g, g')
    ensures forall o :: Blocked(g', locked, o) <==> Blocked(g, locked, o)
    ensures forall c :: Chain(g', locked, c) <==> Chain(g, locked, c)
  {
    ReorderedSame(g, g');
    hide Reordered;
    forall o ensures Blocked(g', locked, o) <==> Blocked(g, locked, o) {
      if Blocked(g, locked, o) { var p :| PathTo(g, locked, o, p); assert PathTo(g', locked, o, p); }
      if Blocked(g', locked, o) { var p :| PathTo(g', locked, o, p); assert PathTo(g, locked, o, p); }
    }
  }

  lemma ReorderedEscapes(g: Graph, g': Graph, locked: set<Id>)
    requires Reordered(g, g') && Escapes(g, locked)
    ensures Escapes(g', locked)
  {
    ReorderedSame(g, g');
    ReorderedBlocked(g, g', locked);
    hide Reordered, Blocked, Chain;
    forall c | c != [] && Chain(g', locked, c) && Blocked(g', locked, c[|c| - 1]) ensures Escape(g', locked, c) {
      assert Escape(g, locked, c);
    }
  }

  // ---- exactness fails for some order as soon as a chain has no escape -------------------------

  /** x moved to the front. */
  function First(s: seq<Id>, x: Id): seq<Id>
    requires x in s
  {
    if s[0] == x then s else [x, s[0]] + First(s[1..], x)[1..]
  }

  lemma {:induction false} FirstIs(s: seq<Id>, x: Id)
    requires x in s
    ensures First(s, x) != [] && First(s, x)[0] == x && multiset(First(s, x)) == multiset(s)
  {
    if s[0] != x {
      var t := s[1..];
      FirstIs(t, x);
      var f := First(t, x);
      assert s == [s[0]] + t && f == [x] + f[1..];
      assert multiset(First(s, x)) == multiset([x, s[0]]) + multiset(f[1..]);
      assert multiset(f) == multiset([x]) + multiset(f[1..]);
    }
  }

  /** The object that comes behind o on the chain. */
  function Next(c: seq<Id>, o: Id): Id {
    if |c| < 2 then NULL else if c[0] == o then c[1] else Next(c[1..], o)
  }

  lemma {:induction false} NextIs(c: seq<Id>, i: nat)
    requires NoDuplicates(c) && i < |c| - 1
    ensures Next(c, c[i]) == c[i + 1]
  {
    if i > 0 { NextIs(c[1..], i - 1); }
  }

  /** The graph in an order in which the visits go down the chain first. */
  function Steered(g: Graph, c: seq<Id>): Graph
    requires g.objlist != [] && c != [] && c[0] in Tail(g)
  {
    Graph([g.objlist[0]] + First(Tail(g), c[0]),
          map o | o in g.needed :: if Next(c, o) in g.needed[o] then First(g.needed[o], Next(c, o)) else g.needed[o],
          g.reloc)
  }

  lemma SteeredIs(g: Graph, locked: set<Id>, c: seq<Id>)
    requires g.objlist != [] && c != [] && Chain(g, locked, c)
    ensures Reordered(g, Steered(g, c)) && Tail(Steered(g, c)) != [] && Tail(Steered(g, c))[0] == c[0]
    ensures AllLead(Steered(g, c), c)
  {
    var g' := Steered(g, c);
    FirstIs(Tail(g), c[0]);
    assert Tail(g') == First(Tail(g), c[0]);
    forall o | o in g.needed ensures multiset(g'.needed[o]) == multiset(g.needed[o]) {
      if Next(c, o) in g.needed[o] { FirstIs(g.needed[o], Next(c, o)); }
    }
    forall i | 0 <= i < |c| - 1 ensures Leads(g', c[i], c[i + 1]) {
      NextIs(c, i);
      assert Needs(g, c[i], c[i + 1]);
      FirstIs(g.needed[c[i]], c[i + 1]);
    }
  }

  /** The first needed entry of o is n. */
  predicate Leads(g: Graph, o: Id, n: Id) { o in g.needed && g.needed[o] != [] && g.needed[o][0] == n }

  /** The visit of the last object of a chain without an escape finds nothing blocked and lists it. */
  lemma LastListed(g: Graph, locked: set<Id>, m: Marks, c: seq<Id>, o: Id)
    requires WellFormed(g) && Chain(g, locked, c + [o]) && During(g, locked, m, c) && !Escape(g, locked, c + [o]) &&
             o !in m.done
    ensures o in g.needed && o in Visited(g, m, o).0.order
  {
    var d := c + [o];
    assert d[|d| - 1] == o && d[|c|] == o;
    assert c != [] ==> Needs(g, d[|c| - 1], d[|c|]);
    hide Blocked, Reaches, Escapes;
    Begin(g, locked, m, c, o);
    hide During, Chain;
    assert forall n :: n in g.needed[o] && n != NULL <==> Needs(g, o, n);
    VisitedNeededDuring(g, locked, m.(done := m.done + {o}), g.needed[o], d);
  }

  /** A visit of an object that leads to n lists whatever the visit of n lists. */
  lemma PassedDown(g: Graph, locked: set<Id>, m: Marks, c: seq<Id>, o: Id, n: Id, x: Id)
    requires WellFormed(g) && During(g, locked, m, c) && o in Tail(g) && Relocated(g, o) && o !in m.done &&
             (c != [] ==> Needs(g, c[|c| - 1], o))
    requires Leads(g, o, n) && n != NULL && n in g.needed && x in Visited(g, m.(done := m.done + {o}), n).0.order
    ensures o in g.needed && x in Visited(g, m, o).0.order
  {
    hide Blocked, Reaches, Escapes;
    Begin(g, locked, m, c, o);
    hide During, Chain;
    var m0 := m.(done := m.done + {o});
    assert g.needed[o][0] in g.needed[o] && (forall k :: k in g.needed[o][1..] ==> k in g.needed[o]);
    assert forall k :: k in g.needed[o] && k != NULL <==> Needs(g, o, k);
    VisitedDuring(g, locked, m0, n, c + [o]);
    VisitedNeededDuring(g, locked, Visited(g, m0, n).0, g.needed[o][1..], c + [o]);
  }

  /** In this order every object of the chain leads to the next one. */
  ghost predicate AllLead(g: Graph, c: seq<Id>) { forall i :: 0 <= i < |c| - 1 ==> Leads(g, c[i], c[i + 1]) }

  /** The chain has not been visited from place k on. */
  ghost predicate Untouched(m: Marks, c: seq<Id>, k: nat) { forall i :: k <= i < |c| ==> c[i] !in m.done }

  lemma TouchOne(g: Graph, locked: set<Id>, m: Marks, c: seq<Id>, k: nat)
    requires WellFormed(g) && Chain(g, locked, c) && k < |c| - 1 && During(g, locked, m, c[..k]) && AllLead(g, c) &&
             Untouched(m, c, k)
    ensures var m0 := m.(done := m.done + {c[k]});
            && During(g, locked, m0, c[..k + 1]) && Untouched(m0, c, k + 1) && Leads(g, c[k], c[k + 1])
            && c[k] in g.needed && c[k + 1] in g.needed && c[k + 1] != NULL
            && (forall x :: x in Visited(g, m0, c[k + 1]).0.order ==> x in Visited(g, m, c[k]).0.order)
  {
    ChainAt(g, locked, c, k);
    assert c[..k + 1] == c[..k] + [c[k]];
    hide Chain, Visited, VisitedNeeded;
    Begin(g, locked, m, c[..k], c[k]);
    var m0 := m.(done := m.done + {c[k]});
    forall x | x in Visited(g, m0, c[k + 1]).0.order ensures x in Visited(g, m, c[k]).0.order {
      PassedDown(g, locked, m, c[..k], c[k], c[k + 1], x);
    }
  }

  /** The visits go down the chain and list its last object, because all blocks that it has are on the chain. */
  lemma {:induction false} Descends(g: Graph, locked: set<Id>, m: Marks, c: seq<Id>, k: nat)
    requires WellFormed(g) && Chain(g, locked, c) && k < |c| && During(g, locked, m, c[..k]) && !Escape(g, locked, c)
    requires AllLead(g, c) && Untouched(m, c, k)
    ensures c[k] in g.needed && c[|c| - 1] in Visited(g, m, c[k]).0.order
    decreases |c| - k
  {
    hide Visited, VisitedNeeded, Escape, Chain, During, WellFormed, AllLead;
    if k == |c| - 1 {
      assert c[..k] + [c[k]] == c;
      LastListed(g, locked, m, c[..k], c[k]);
    } else {
      hide Untouched;
      TouchOne(g, locked, m, c, k);
      Descends(g, locked, m.(done := m.done + {c[k]}), c, k + 1);
    }
  }

  lemma ChainAt(g: Graph, locked: set<Id>, c: seq<Id>, k: nat)
    requires Chain(g, locked, c) && k < |c| && WellFormed(g)
    ensures c[k] in Tail(g) && Relocated(g, c[k]) && c[k] != NULL && c[k] in g.needed &&
            forall i :: k < i < |c| ==> c[i] != c[k]
    ensures c[..k] != [] ==> Needs(g, c[..k][|c[..k]| - 1], c[k])
    ensures k < |c| - 1 ==> c[k + 1] in g.needed && c[k + 1] != NULL
  {
    if k > 0 { assert Needs(g, c[k - 1], c[k]); }
    if k < |c| - 1 { assert Needs(g, c[k], c[k + 1]); }
  }

  /** A chain without an escape: in the steered order a blocked object is listed. */
  lemma TrappedFails(g: Graph, locked: set<Id>, c: seq<Id>)
    requires WellFormed(g) && c != [] && Chain(g, locked, c) && Blocked(g, locked, c[|c| - 1]) && !Escape(g, locked, c)
    ensures Reordered(g, Steered(g, c)) && WellFormed(Steered(g, c)) && !Exact(Steered(g, c), locked)
  {
    var g' := Steered(g, c);
    SteeredIs(g, locked, c);
    ReorderedSame(g, g');
    ReorderedBlocked(g, g', locked);
    hide Blocked, Reaches, Escapes;
    hide Reordered;
    TrappedListed(g', locked, c);
  }

  /** A chain without an escape on which the visits go down first: its last object is listed. */
  lemma TrappedListed(g: Graph, locked: set<Id>, c: seq<Id>)
    requires WellFormed(g) && c != [] && Chain(g, locked, c) && !Escape(g, locked, c) && AllLead(g, c) &&
             Tail(g) != [] && Tail(g)[0] == c[0]
    ensures c[|c| - 1] in Order(g, locked)
  {
    hide Blocked, Reaches, Escapes;
    StartDuring(g, locked);
    hide During;
    assert c[..0] == [];
    Descends(g, locked, Start(locked), c, 0);
    VisitedDuring(g, locked, Start(locked), c[0], []);
    VisitedNeededDuring(g, locked, Visited(g, Start(locked), c[0]).0, Tail(g)[1..], []);
  }

  /**
   When the list is exact, for every order in which the objects and their needed entries may
   come: if and only if every blocked object, at the end of any chain along which the visits may
   reach it, directly needs a blocked object that is not on the chain.
   */
  lemma ExactIffEscapes(g: Graph, locked: set<Id>)
    requires WellFormed(g)
    ensures (forall g' :: Reordered(g, g') ==> WellFormed(g') && Exact(g', locked)) <==> Escapes(g, locked)
  {
    hide WellFormed, Reordered, Exact, Blocked, Chain, Escape;
    if Escapes(g, locked) {
      forall g' | Reordered(g, g') ensures WellFormed(g') && Exact(g', locked) {
        ReorderedSame(g, g');
        ReorderedEscapes(g, g', locked);
        OrderSafe(g', locked);
      }
    } else {
      var c :| c != [] && Chain(g, locked, c) && Blocked(g, locked, c[|c| - 1]) && !Escape(g, locked, c);
      TrappedFails(g, locked, c);
    }
  }

  /** In particular the list is exact if no blocked object needs an object that leads back to it. */
  lemma UncycledEscapes(g: Graph, locked: set<Id>)
    requires WellFormed(g) &&
             forall o, n :: Blocked(g, locked, o) && Needs(g, o, n) && Blocked(g, locked, n) ==> !Reaches(g, n, o)
    ensures Escapes(g, locked)
  {
    forall c | c != [] && Chain(g, locked, c) && Blocked(g, locked, c[|c| - 1]) ensures Escape(g, locked, c) {
      var o := c[|c| - 1];
      BlockedStep(g, locked, o);
      var n :| Needs(g, o, n) && Blocked(g, locked, n);
      if n in c {
        var i :| 0 <= i < |c| && c[i] == n;
        ChainReaches(g, locked, c, i);
      }
    }
  }

  /** ... and if nothing is locked. */
  lemma NothingLockedEscapes(g: Graph)
    ensures Escapes(g, {})
  {}

  // ---- acyclic graphs ---------------------------------------------------------------------------

  /** No object comes before an object it needs. */
  ghost predicate Topological(g: Graph, s: seq<Id>) {
    forall i, j :: 0 <= i <= j < |s| ==> !Needs(g, s[i], s[j])
  }

  lemma {:induction false} PathRank(g: Graph, rank: Id -> nat, p: seq<Id>)
    requires Ranked(g, rank) && IsPath(g, p)
    ensures rank(p[|p| - 1]) <= rank(p[0])
  {
    if |p| > 1 {
      assert Needs(g, p[0], p[1]);
      assert IsPath(g, p[1..]);
      PathRank(g, rank, p[1..]);
    }
  }

  lemma NoWayBack(g: Graph, o: Id, n: Id)
    requires Acyclic(g) && Needs(g, o, n)
    ensures !Reaches(g, n, o)
  {
    var rank: Id -> nat :| Ranked(g, rank);
    forall p | IsPath(g, p) && p[0] == n ensures p[|p| - 1] != o { PathRank(g, rank, p); }
  }

  /**
   On an acyclic graph the sort lists each relocated object that is not blocked exactly once
   and nothing else, each after every object it needs.
   */
  lemma OrderCorrect(g: Graph, locked: set<Id>)
    requires WellFormed(g) && Acyclic(g)
    ensures NoDuplicates(Order(g, locked)) && Topological(g, Order(g, locked)) && Exact(g, locked)
  {
    forall o, n | Needs(g, o, n) ensures !Reaches(g, n, o) { NoWayBack(g, o, n); }
    hide Acyclic, Reaches, Blocked;
    UncycledEscapes(g, locked);
    OrderSafe(g, locked);
  }

  lemma {:induction false} ReverseAt(s: seq<Id>)
    ensures |Reverse(s)| == |s| && (forall k :: 0 <= k < |s| ==> Reverse(s)[k] == s[|s| - 1 - k])
    ensures forall o :: o in Reverse(s) <==> o in s
  {
    if s != [] {
      var t := s[..|s| - 1];
      ReverseAt(t);
      assert s == t + [s[|s| - 1]];
    }
  }

  /** rev=1 lists the same objects in exactly the reverse order, on any graph. */
  lemma ReverseOrder(g: Graph, locked: set<Id>)
    requires WellFormed(g)
    ensures var order, rev := Order(g, locked), Reverse(Order(g, locked));
            && NoDuplicates(rev) && (forall o :: o in rev <==> o in order)
            && (forall i, j :: 0 <= i <= j < |rev| && Needs(g, rev[j], rev[i]) ==> Reaches(g, rev[i], rev[j]))
  {
    hide Reaches, Blocked, Escapes;
    OrderSafe(g, locked);
    ReverseAt(Order(g, locked));
    ReverseOrdered(g, Order(g, locked));
  }

  lemma ReverseOrdered(g: Graph, s: seq<Id>)
    requires NoDuplicates(s) && Ordered(g, s)
    ensures NoDuplicates(Reverse(s))
    ensures forall i, j ::
              0 <= i <= j < |Reverse(s)| && Needs(g, Reverse(s)[j], Reverse(s)[i]) ==>
                Reaches(g, Reverse(s)[i], Reverse(s)[j])
  {
    hide Reaches;
    ReverseAt(s);
  }

  /** Destructors run on an acyclic graph in the reverse order: each object before everything it needs. */
  lemma ReverseOrderCorrect(g: Graph, locked: set<Id>)
    requires WellFormed(g) && Acyclic(g)
    ensures var rev := Reverse(Order(g, locked));
            && NoDuplicates(rev)
            && (forall i, j :: 0 <= i <= j < |rev| ==> !Needs(g, rev[j], rev[i]))
            && (forall o :: o in rev <==> o in Tail(g) && Relocated(g, o) && !Blocked(g, locked, o))
  {
    hide Reaches, Blocked;
    OrderCorrect(g, locked);
    ReverseOrder(g, locked);
    forall o, n | Needs(g, o, n) ensures !Reaches(g, n, o) { NoWayBack(g, o, n); }
  }

  // ---- what the sort does, from its arguments ---------------------------------------------------

  lemma {:induction false} PathEndListed(g: Graph, p: seq<Id>)
    requires WellFormed(g) && IsPath(g, p) && p[0] in Tail(g)
    ensures p[|p| - 1] in Tail(g)
  {
    if |p| > 1 {
      assert Needs(g, p[|p| - 2], p[|p| - 1]);
    }
  }

  /** Blocked is: a dlopen or dlclose is in progress, and a chain leads to an object held by this thread. */
  lemma BlockedIsHeld(g: Graph, dl: bool, initfinilock: map<Id, nat>, self: nat, o: Id)
    requires WellFormed(g) && (forall o :: o in g.objlist ==> o in initfinilock) && o in Tail(g)
    ensures Blocked(g, Locked(g, dl, initfinilock, self), o) <==> dl && LeadsToHeld(g, initfinilock, self, o)
  {
    var locked := Locked(g, dl, initfinilock, self);
    if Blocked(g, locked, o) {
      var p :| PathTo(g, locked, o, p);
      assert IsPath(g, p) && p[0] == o;
    }
    if dl && LeadsToHeld(g, initfinilock, self, o) {
      var p :| IsPath(g, p) && p[0] == o && p[|p| - 1] in initfinilock && initfinilock[p[|p| - 1]] == self;
      PathEndListed(g, p);
      assert PathTo(g, locked, o, p);
    }
  }

  lemma SortMeaning(g: Graph, dl: bool, initfinilock: map<Id, nat>, self: nat)
    requires WellFormed(g) && (forall o :: o in g.objlist ==> o in initfinilock)
    ensures var order := Order(g, Locked(g, dl, initfinilock, self));
            forall list :: list == order || list == Reverse(order) ==>
              && NoDuplicates(list) && (forall o :: o in list ==> o in Tail(g) && Relocated(g, o))
              && (dl ==> forall o :: o in list ==> initfinilock[o] != self)
              && (forall o :: o in Tail(g) && Relocated(g, o) && o !in list ==>
                    dl && LeadsToHeld(g, initfinilock, self, o))
              && (dl && Acyclic(g) ==> forall o :: o in list ==> !LeadsToHeld(g, initfinilock, self, o))
    ensures var order := Order(g, Locked(g, dl, initfinilock, self));
            && Ordered(g, order)
            && forall i, j ::
                 0 <= i <= j < |Reverse(order)| && Needs(g, Reverse(order)[j], Reverse(order)[i]) ==>
                   Reaches(g, Reverse(order)[i], Reverse(order)[j])
  {
    var locked := Locked(g, dl, initfinilock, self);
    hide Reaches, Blocked, Escapes, LeadsToHeld, Acyclic;
    forall o | o in Tail(g) ensures Blocked(g, locked, o) <==> dl && LeadsToHeld(g, initfinilock, self, o) {
      BlockedIsHeld(g, dl, initfinilock, self, o);
    }
    OrderSafe(g, locked);
    ReverseOrder(g, locked);
    if Acyclic(g) { OrderCorrect(g, locked); }
  }

  // ---- a cycle ----------------------------------------------------------------------------------

  /** 2 needs 3 and 4, and 3 needs 2. */
  function Cycle(): Graph {
    Graph([1, 2, 3, 4], map[1 := [], 2 := [3, 4], 3 := [2], 4 := []], map[1 := Done, 2 := Done, 3 := Done, 4 := Done])
  }

  lemma CycleNeeds()
    ensures forall o, n :: Needs(Cycle(), o, n) <==> (o == 2 && (n == 3 || n == 4)) || (o == 3 && n == 2)
    ensures forall o :: Relocated(Cycle(), o) <==> 1 <= o <= 4
    ensures Cycle().objlist == [1, 2, 3, 4] && Tail(Cycle()) == [2, 3, 4] && Cycle().needed[2][0] == 3
    ensures Cycle().needed.Keys == {1, 2, 3, 4} == Cycle().reloc.Keys && Cycle().needed[2] == [3, 4]
  {}

  lemma CycleWellFormed()
    ensures WellFormed(Cycle())
  {
    CycleNeeds();
    hide Cycle, Needs, Relocated;
  }

  /** Of the objects on the cycle only 2 needs something off it, the locked 4. */
  lemma CycleFacts()
    ensures Chain(Cycle(), {4}, [2, 3]) && AllLead(Cycle(), [2, 3]) && Tail(Cycle()) == [2, 3, 4]
    ensures Needs(Cycle(), 3, 2) && Needs(Cycle(), 2, 4) && forall n :: Needs(Cycle(), 3, n) ==> n == 2
  {
    CycleNeeds();
    hide Cycle, Needs, Relocated, Tail;
  }

  /** A cycle hides a block: 3 reaches the locked 4 through 2, yet it is listed. */
  lemma CycleHidesBlock()
    ensures WellFormed(Cycle()) && Blocked(Cycle(), {4}, 3) && 3 in Order(Cycle(), {4})
    ensures Chain(Cycle(), {4}, [2, 3]) && !Escape(Cycle(), {4}, [2, 3])
  {
    CycleWellFormed();
    CycleFacts();
    assert PathTo(Cycle(), {4}, 3, [3, 2, 4]);
    hide Cycle;
    TrappedListed(Cycle(), {4}, [2, 3]);
  }
}

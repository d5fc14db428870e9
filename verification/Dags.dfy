/**
 The DAGs of opened objects, kept as two lists of pointers that mirror each other: `dagmembers` of
 a root and `dldags` of its members (_rtld_init_dag, the end of _rtld_unload_object,
 _rtld_obj_free).  Symbol lookup follows `dldags` from an object to the roots.
 */
module Dags {
  import opened RefCounts
  import opened DlCalls

  datatype Links = Links(dldags: map<Id, seq<Id>>, dagmembers: map<Id, seq<Id>>)

  ghost predicate Path(objs: Objs, p: seq<Id>) {
    && p != [] && (forall i :: 0 <= i < |p| ==> p[i] in objs)
    && (forall i :: 0 < i < |p| ==> p[i] in objs[p[i - 1]].needed)
  }

  /** o is r or needed by it, directly or not. */
  ghost predicate Reaches(objs: Objs, r: Id, o: Id) { exists p :: Path(objs, p) && p[0] == r && p[|p| - 1] == o }

  /** No object is on a list twice. */
  ghost predicate Distinct(t: Links) {
    && (forall o :: o in t.dldags ==> NoDuplicates(t.dldags[o]))
    && (forall r :: r in t.dagmembers ==> NoDuplicates(t.dagmembers[r]))
  }

  predicate Mirrored(t: Links, r: Id, o: Id)
    requires r in t.dagmembers && o in t.dldags
  {
    r in t.dldags[o] <==> o in t.dagmembers[r]
  }

  ghost predicate Mirrors(t: Links, objs: Objs)
    requires t.dldags.Keys == objs.Keys && t.dagmembers.Keys == objs.Keys
  {
    forall r, o :: r in objs && o in objs ==> Mirrored(t, r, o)
  }

  /** A DAG holds only what its root reaches. */
  ghost predicate Below(t: Links, objs: Objs) {
    forall r, o :: r in t.dagmembers && o in t.dagmembers[r] ==> o in objs && Reaches(objs, r, o)
  }

  /** The two lists mirror each other among the objects that are there. */
  ghost predicate Linked(t: Links, objs: Objs) {
    && t.dldags.Keys == objs.Keys && t.dagmembers.Keys == objs.Keys
    && Distinct(t) && Mirrors(t, objs) && Below(t, objs)
  }

  /** Every root that an object points to is there. */
  ghost predicate Allocated(t: Links, objs: Objs) {
    forall o, r :: o in objs && o in t.dldags && r in t.dldags[o] ==> r in objs
  }

  // ---- paths ---------------------------------------------------------------------------------

  /** Objects stay, with what they need. */
  ghost predicate Extends(objs: Objs, objs': Objs) {
    forall o :: o in objs ==> o in objs' && forall n :: n in objs[o].needed && n != NULL ==> n in objs'[o].needed
  }

  lemma PathGrows(objs: Objs, objs': Objs, p: seq<Id>)
    requires Path(objs, p) && NULL !in objs && Extends(objs, objs')
    ensures Path(objs', p)
  {
    forall i | 0 < i < |p| ensures p[i] in objs'[p[i - 1]].needed { assert p[i] in objs[p[i - 1]].needed; }
  }

  lemma ReachesGrows(objs: Objs, objs': Objs, r: Id, o: Id)
    requires Reaches(objs, r, o) && NULL !in objs && Extends(objs, objs')
    ensures Reaches(objs', r, o)
  {
    var p :| Path(objs, p) && p[0] == r && p[|p| - 1] == o;
    PathGrows(objs, objs', p);
  }

  /** What is left needs only what is left. */
  ghost predicate LeftOver(objs: Objs, objs': Objs) {
    && (forall o :: o in objs' ==> o in objs && objs'[o].needed == objs[o].needed)
    && NULL !in objs && (forall o, n :: o in objs' && n in objs'[o].needed && n in objs ==> n in objs')
  }

  lemma {:induction false} PathStays(objs: Objs, objs': Objs, p: seq<Id>)
    requires Path(objs, p) && LeftOver(objs, objs') && p[0] in objs'
    ensures Path(objs', p)
  {
    if |p| > 1 {
      var q := p[..|p| - 1];
      assert Path(objs, q);
      PathStays(objs, objs', q);
      assert p[|p| - 1] in objs[p[|p| - 2]].needed && p[|p| - 2] == q[|q| - 1];
      forall i | 0 <= i < |p| ensures p[i] in objs' { if i < |q| { assert p[i] == q[i]; } }
    }
  }

  lemma ReachesStays(objs: Objs, objs': Objs, r: Id, o: Id)
    requires Reaches(objs, r, o) && LeftOver(objs, objs') && r in objs'
    ensures o in objs' && Reaches(objs', r, o)
  {
    var p :| Path(objs, p) && p[0] == r && p[|p| - 1] == o;
    PathStays(objs, objs', p);
  }

  // ---- what _rtld_init_dag completes ---------------------------------------------------------------

  /** The walk from o is complete: o is a member or, loaded at startup, is not entered itself but walked through. */
  ghost predicate Done(objs: Objs, mains: set<Id>, rank: Id -> nat, members: seq<Id>, o: Id)
    decreases rank(o)
  {
    if o !in mains then o in members
    else
      o in objs &&
      forall n :: n in objs[o].needed && n != NULL ==>
        if n in mains then rank(n) < rank(o) && Done(objs, mains, rank, members, n) else n in members
  }

  ghost predicate NeedsDone(objs: Objs, mains: set<Id>, rank: Id -> nat, members: seq<Id>, x: Id) {
    x in objs && forall n :: n in objs[x].needed && n != NULL ==> Done(objs, mains, rank, members, n)
  }

  /** The walk was completed for every member behind the first k. */
  ghost predicate WholeFrom(objs: Objs, mains: set<Id>, rank: Id -> nat, members: seq<Id>, k: nat) {
    forall i :: k <= i < |members| ==> NeedsDone(objs, mains, rank, members, members[i])
  }

  /** Objects of the program itself have no cycle. */
  ghost predicate MainsRanked(objs: Objs, mains: set<Id>, rank: Id -> nat) {
    forall o, n :: o in mains && o in objs && n in objs[o].needed && n in mains ==> rank(n) < rank(o)
  }

  lemma {:induction false} DoneGrows(objs: Objs, mains: set<Id>, rank: Id -> nat, members: seq<Id>, members': seq<Id>,
                                     o: Id)
    requires Done(objs, mains, rank, members, o) && forall x :: x in members ==> x in members'
    ensures Done(objs, mains, rank, members', o)
    decreases rank(o)
  {
    if o in mains {
      forall n | n in objs[o].needed && n != NULL && n in mains ensures Done(objs, mains, rank, members', n) {
        DoneGrows(objs, mains, rank, members, members', n);
      }
    }
  }

  lemma WholeGrows(objs: Objs, mains: set<Id>, rank: Id -> nat, members: seq<Id>, members': seq<Id>, k: nat)
    requires WholeFrom(objs, mains, rank, members, k) && members <= members' &&
             WholeFrom(objs, mains, rank, members', |members|)
    ensures WholeFrom(objs, mains, rank, members', k)
  {
    hide Done;
    forall i | k <= i < |members| ensures NeedsDone(objs, mains, rank, members', members[i]) {
      assert NeedsDone(objs, mains, rank, members, members[i]);
      forall n | n in objs[members[i]].needed && n != NULL ensures Done(objs, mains, rank, members', n) {
        DoneGrows(objs, mains, rank, members, members', n);
      }
    }
  }

  lemma EntryWalked(objs: Objs, mains: set<Id>, rank: Id -> nat, m: nat, members: seq<Id>, members': seq<Id>,
                    needed: seq<Id>, k: nat)
    requires WholeFrom(objs, mains, rank, members, m) && members <= members' &&
             WholeFrom(objs, mains, rank, members', |members|)
    requires forall j :: 0 <= j < k && j < |needed| && needed[j] != NULL ==> Done(objs, mains, rank, members, needed[j])
    ensures WholeFrom(objs, mains, rank, members', m)
    ensures forall j :: 0 <= j < k && j < |needed| && needed[j] != NULL ==> Done(objs, mains, rank, members', needed[j])
  {
    WholeGrows(objs, mains, rank, members, members', m);
    hide Done, WholeFrom;
    forall j | 0 <= j < k && j < |needed| && needed[j] != NULL ensures Done(objs, mains, rank, members', needed[j]) {
      DoneGrows(objs, mains, rank, members, members', needed[j]);
    }
  }

  /** From a complete walk: everything that a path leads to is walked. */
  lemma {:induction false} PathDone(objs: Objs, mains: set<Id>, rank: Id -> nat, members: seq<Id>, p: seq<Id>)
    requires WholeFrom(objs, mains, rank, members, 0) && Path(objs, p) && NULL !in objs &&
             Done(objs, mains, rank, members, p[0])
    ensures Done(objs, mains, rank, members, p[|p| - 1])
  {
    if |p| > 1 {
      var q := p[..|p| - 1];
      assert Path(objs, q);
      PathDone(objs, mains, rank, members, q);
      var o, n := q[|q| - 1], p[|p| - 1];
      assert n in objs[o].needed && n != NULL;
      if o !in mains {
        var i :| 0 <= i < |members| && members[i] == o;
        assert NeedsDone(objs, mains, rank, members, members[i]);
      }
    }
  }

  // ---- taking an element out of a list ---------------------------------------------------------------

  /** _rtld_objlist_remove. */
  function Without(s: seq<Id>, x: Id): seq<Id> {
    if s == [] then [] else if s[0] == x then s[1..] else [s[0]] + Without(s[1..], x)
  }

  lemma {:induction false} WithoutMembers(s: seq<Id>, x: Id)
    requires NoDuplicates(s)
    ensures NoDuplicates(Without(s, x)) && forall y :: y in Without(s, x) <==> y in s && y != x
    ensures x !in s ==> Without(s, x) == s
  {
    if s != [] {
      assert s == [s[0]] + s[1..];
      if s[0] != x {
        WithoutMembers(s[1..], x);
        assert s[0] !in s[1..];
        assert NoDuplicates([s[0]] + Without(s[1..], x));
      }
    }
  }

  // ---- the operations ----------------------------------------------------------------------------------

  lemma MembersBounded(members: seq<Id>, all: set<Id>)
    requires NoDuplicates(members) && forall m :: m in members ==> m in all
    ensures |members| <= |all|
  {
    SetSize(members);
    assert ToSet(members) <= all;
    assert all == ToSet(members) + (all - ToSet(members));
  }

  /** The members of root grew by objects that now point back to it; nothing else changed. */
  ghost predicate Joined(t: Links, t': Links, root: Id) {
    && t'.dldags.Keys == t.dldags.Keys && root in t.dagmembers && root in t'.dagmembers
    && t'.dagmembers == t.dagmembers[root := t'.dagmembers[root]] && t.dagmembers[root] <= t'.dagmembers[root]
    && forall o :: o in t.dldags ==>
         t'.dldags[o] ==
         t.dldags[o] + if o in t'.dagmembers[root] && o !in t.dagmembers[root] then [root] else []
  }

  function Join(t: Links, root: Id, o: Id): Links
    requires root in t.dagmembers && o in t.dldags
  {
    Links(t.dldags[o := t.dldags[o] + [root]], t.dagmembers[root := t.dagmembers[root] + [o]])
  }

  lemma JoinOne(t: Links, objs: Objs, root: Id, o: Id, p: seq<Id>)
    requires Linked(t, objs) && root in objs && o in objs && root !in t.dldags[o]
    requires Path(objs, p) && p[0] == root && p[|p| - 1] == o
    ensures Linked(Join(t, root, o), objs) && Joined(t, Join(t, root, o), root)
  {
    assert Reaches(objs, root, o);
    hide Reaches, Path;
    assert Mirrored(t, root, o);
    var t' := Join(t, root, o);
    assert Below(t', objs) by { hide Distinct, Mirrors; }
    assert Distinct(t') by { hide Mirrors, Below; }
    assert Mirrors(t', objs) by {
      hide Distinct, Below;
      forall r, x | r in objs && x in objs ensures Mirrored(t', r, x) { assert Mirrored(t, r, x); }
    }
  }

  lemma JoinedTransitive(a: Links, b: Links, c: Links, root: Id)
    requires Joined(a, b, root) && Joined(b, c, root)
    ensures Joined(a, c, root)
  {}

  /** Everything bound is there. */
  ghost predicate Known(objs: Objs) { forall o, n :: o in objs && n in objs[o].needed && n != NULL ==> n in objs }

  class Table {
    const mains: set<Id>              // objects with mainref set, loaded at startup
    var dldags: map<Id, seq<Id>>
    var dagmembers: map<Id, seq<Id>>

    ghost function Now(): Links
      reads this
    {
      Links(dldags, dagmembers)
    }

    constructor (objs: Objs, mains: set<Id>)
      ensures Linked(Now(), objs) && Allocated(Now(), objs) && this.mains == mains
      ensures forall o :: o in objs ==> dagmembers[o] == []
    {
      this.mains := mains;
      dldags := map o | o in objs :: [];
      dagmembers := map o | o in objs :: [];
    }

    /** _rtld_obj_new: new objects are in no DAG. */
    method Appear(objs: Objs, objs': Objs)
      requires Linked(Now(), objs) && Allocated(Now(), objs) && NULL !in objs && Extends(objs, objs')
      modifies this
      ensures Linked(Now(), objs') && Allocated(Now(), objs')
      ensures forall o :: o in objs' ==> dagmembers[o] == if o in objs then old(dagmembers)[o] else []
    {
      hide Linked, Allocated, Extends;
      ghost var t := Now();
      LinkedKeys(t, objs);
      dldags := map o | o in objs' :: if o in dldags then dldags[o] else [];
      dagmembers := map o | o in objs' :: if o in dagmembers then dagmembers[o] else [];
      AppearLinked(t, Now(), objs, objs');
    }

    /** obj becomes a member of the DAG of root. */
    method Enter(ghost objs: Objs, root: Id, obj: Id, ghost p: seq<Id>)
      requires Linked(Now(), objs) && root in objs && obj in objs && root !in dldags[obj]
      requires Path(objs, p) && p[0] == root && p[|p| - 1] == obj
      modifies this
      ensures Linked(Now(), objs) && Joined(old(Now()), Now(), root)
      ensures root in dagmembers && dagmembers[root] == old(dagmembers)[root] + [obj]
    {
      hide Linked, Joined, Path;
      LinkedKeys(Now(), objs);
      JoinOne(Now(), objs, root, obj, p);
      dldags := dldags[obj := dldags[obj] + [root]];
      dagmembers := dagmembers[root := dagmembers[root] + [obj]];
    }

    /**
     _rtld_init_dag1: ends on any graph of loaded objects, cyclic or not, as long as the program
     itself has no cycle.
     */
    method InitDag1(objs: Objs, root: Id, obj: Id, ghost rank: Id -> nat, ghost p: seq<Id>)
      requires Linked(Now(), objs) && root in objs && MainsRanked(objs, mains, rank)
      requires Path(objs, p) && p[0] == root && p[|p| - 1] == obj
      requires Known(objs)
      modifies this
      ensures Linked(Now(), objs) && Joined(old(Now()), Now(), root)
      ensures Done(objs, mains, rank, dagmembers[root], obj)
      ensures WholeFrom(objs, mains, rank, dagmembers[root], |old(dagmembers)[root]|)
      decreases |objs| - |dagmembers[root]|, if obj in mains then rank(obj) + 1 else 0
    {
      hide Linked, Joined, Done, WholeFrom, Path, Known, MainsRanked;
      ghost var t0 := Now();
      LinkedFacts(t0, objs, root, obj);
      PathEnd(objs, p);
      NothingJoined(t0, root);
      NothingWhole(objs, mains, rank, dagmembers[root]);
      if obj !in mains {
        if root in dldags[obj] {
          MemberDone(objs, mains, rank, dagmembers[root], obj);
          return;
        }
        Enter(objs, root, obj, p);
      }
      ghost var t1 := Now();
      ghost var m1 := t1.dagmembers[root];
      LinkedFacts(t1, objs, root, obj);
      NothingJoined(t1, root);
      NothingWhole(objs, mains, rank, m1);
      var needed := objs[obj].needed;
      for k := 0 to |needed|
        invariant Linked(Now(), objs) && Joined(t1, Now(), root) && root in dagmembers
        invariant m1 <= dagmembers[root] && WholeFrom(objs, mains, rank, dagmembers[root], |m1|)
        invariant forall j :: 0 <= j < k && needed[j] != NULL ==> Done(objs, mains, rank, dagmembers[root], needed[j])
      {
        if needed[k] != NULL {
          ghost var t2 := Now();
          LinkedFacts(t2, objs, root, obj);
          KnownAt(objs, obj, k);
          PathOn(objs, p, needed[k]);
          RankFalls(objs, mains, rank, obj, needed[k]);
          InitDag1(objs, root, needed[k], rank, p + [needed[k]]);
          JoinedTransitive(t1, t2, Now(), root);
          JoinedMembers(t2, Now(), root);
          EntryWalked(objs, mains, rank, |m1|, t2.dagmembers[root], dagmembers[root], needed, k);
        }
      }
      JoinedTransitive(t0, t1, Now(), root);
      ObjectDone(objs, mains, rank, t0.dagmembers[root], m1, dagmembers[root], obj);
    }

    /** _rtld_init_dag: the members of root are exactly what it reaches, less what was loaded at startup. */
    method InitDag(objs: Objs, root: Id, ghost rank: Id -> nat)
      requires Linked(Now(), objs) && root in objs && MainsRanked(objs, mains, rank) && NULL !in objs
      requires Known(objs)
      modifies this
      ensures Linked(Now(), objs) && Joined(old(Now()), Now(), root)
      ensures WholeFrom(objs, mains, rank, old(dagmembers)[root], 0) ==>
                WholeFrom(objs, mains, rank, dagmembers[root], 0) &&
                forall o :: o in objs && o !in mains ==> (o in dagmembers[root] <==> Reaches(objs, root, o))
    {
      hide Joined, Done, WholeFrom;
      ghost var t := Now();
      assert Path(objs, [root]);
      InitDag1(objs, root, root, rank, [root]);
      if WholeFrom(objs, mains, rank, t.dagmembers[root], 0) {
        JoinedMembers(t, Now(), root);
        WholeGrows(objs, mains, rank, t.dagmembers[root], dagmembers[root], 0);
        ExactMembers(objs, mains, rank, Now(), root);
      }
    }

    /** Root is taken out of the lists of its members. */
    method Unlink(root: Id, ghost objs: Objs)
      requires Linked(Now(), objs) && root in objs
      modifies this`dldags
      ensures dldags.Keys == old(dldags.Keys) && forall o :: o in dldags ==> dldags[o] == Without(old(dldags)[o], root)
    {
      hide Linked, Without;
      ghost var t := Now();
      LinkedKeys(t, objs);
      LinkedMembers(t, objs, root);
      var members := dagmembers[root];
      for i := 0 to |members|
        invariant dldags.Keys == t.dldags.Keys
        invariant forall o :: o in dldags ==>
                    dldags[o] == if o in members[..i] then Without(t.dldags[o], root) else t.dldags[o]
      {
        assert members[..i + 1] == members[..i] + [members[i]];
        assert members[i] !in members[..i];
        dldags := dldags[members[i] := Without(dldags[members[i]], root)];
      }
      assert members[..|members|] == members;
      RootRemoved(t, dldags, objs, root);
    }

    /**
     The end of _rtld_unload_object: root is taken out of the lists of its members, and the sweep
     frees the dead objects with their lists.
     */
    method Dissolve(root: Id, dead: set<Id>, ghost objs: Objs, ghost objs': Objs)
      requires Linked(Now(), objs) && root in dead && root in objs
      requires LeftOver(objs, objs') && forall o :: o in objs' <==> o in objs && o !in dead
      modifies this
      ensures Linked(Now(), objs')
      ensures forall o :: o in objs' ==>
                dagmembers[o] == old(dagmembers)[o] && dldags[o] == Without(old(dldags)[o], root)
      ensures Allocated(old(Now()), objs) ==>
                (Allocated(Now(), objs') <==>
                 !exists r, m ::
                    r in objs && r in dead && r != root && m in old(dagmembers)[r] && m in objs')
    {
      hide Linked, Allocated, LeftOver, Without, Left;
      ghost var t := Now();
      LinkedKeys(t, objs);
      Unlink(root, objs);
      DeadRemoved(t, dldags, dead, objs, objs', root);
      dldags := dldags - dead;
      dagmembers := dagmembers - dead;
      LeftLists(t, Now(), objs', root);
      StillLinked(t, Now(), objs, objs', root);
      if Allocated(t, objs) { StaleIff(t, Now(), objs, objs', root); }
    }
  }

  lemma LinkedKeys(t: Links, objs: Objs)
    requires Linked(t, objs)
    ensures t.dldags.Keys == objs.Keys && t.dagmembers.Keys == objs.Keys
  {}

  lemma LinkedMembers(t: Links, objs: Objs, root: Id)
    requires Linked(t, objs) && root in objs
    ensures NoDuplicates(t.dagmembers[root]) && forall o :: o in t.dagmembers[root] ==> o in objs
  {}

  /** The lists of new objects are empty, and those of the others stay. */
  ghost predicate Appeared(t: Links, t': Links, objs: Objs, objs': Objs) {
    && t'.dldags.Keys == objs'.Keys && t'.dagmembers.Keys == objs'.Keys
    && forall o :: o in objs' ==>
         && t'.dldags[o] == (if o in t.dldags then t.dldags[o] else [])
         && t'.dagmembers[o] == (if o in t.dagmembers then t.dagmembers[o] else [])
  }

  lemma AppearBelow(t: Links, t': Links, objs: Objs, objs': Objs)
    requires t.dagmembers.Keys == objs.Keys && Below(t, objs) && NULL !in objs && Extends(objs, objs') &&
             Appeared(t, t', objs, objs')
    ensures Below(t', objs')
  {
    forall r, o | r in t'.dagmembers && o in t'.dagmembers[r] ensures o in objs' && Reaches(objs', r, o) {
      assert Reaches(objs, r, o) by { hide Reaches; }
      ReachesGrows(objs, objs', r, o);
    }
  }

  lemma AppearLinked(t: Links, t': Links, objs: Objs, objs': Objs)
    requires Linked(t, objs) && Allocated(t, objs) && NULL !in objs && Extends(objs, objs') &&
             Appeared(t, t', objs, objs')
    ensures Linked(t', objs') && Allocated(t', objs')
  {
    AppearBelow(t, t', objs, objs');
    hide Reaches;
    assert Distinct(t') by { hide Mirrors, Below; }
    assert Mirrors(t', objs') by {
      hide Distinct;
      forall r, o | r in objs' && o in objs' ensures Mirrored(t', r, o) {
        if r in objs && o in objs { assert Mirrored(t, r, o); }
      }
    }
  }

  lemma LinkedFacts(t: Links, objs: Objs, root: Id, obj: Id)
    requires Linked(t, objs) && root in objs
    ensures t.dldags.Keys == objs.Keys && t.dagmembers.Keys == objs.Keys && |t.dagmembers[root]| <= |objs|
    ensures obj in objs ==> (root in t.dldags[obj] <==> obj in t.dagmembers[root])
    ensures obj in objs && root !in t.dldags[obj] ==> |t.dagmembers[root]| < |objs|
  {
    MembersBounded(t.dagmembers[root], objs.Keys);
    if obj in objs && root !in t.dldags[obj] {
      assert obj !in t.dagmembers[root];
      MembersBounded(t.dagmembers[root], objs.Keys - {obj});
    }
  }

  lemma KnownAt(objs: Objs, o: Id, k: nat)
    requires Known(objs) && o in objs && k < |objs[o].needed| && objs[o].needed[k] != NULL
    ensures objs[o].needed[k] in objs
  {}

  lemma RankFalls(objs: Objs, mains: set<Id>, rank: Id -> nat, o: Id, n: Id)
    requires MainsRanked(objs, mains, rank) && o in objs && n in objs[o].needed
    ensures o in mains && n in mains ==> rank(n) < rank(o)
  {}

  lemma PathEnd(objs: Objs, p: seq<Id>)
    requires Path(objs, p)
    ensures p != [] && p[|p| - 1] in objs
  {}

  lemma PathOn(objs: Objs, p: seq<Id>, n: Id)
    requires Path(objs, p) && n in objs && n in objs[p[|p| - 1]].needed
    ensures Path(objs, p + [n])
  {
    var q := p + [n];
    forall i | 0 < i < |q| ensures q[i] in objs[q[i - 1]].needed {
      if i < |p| { assert p[i] in objs[p[i - 1]].needed; }
    }
  }

  lemma NothingJoined(t: Links, root: Id)
    ensures root in t.dagmembers ==> Joined(t, t, root)
  {}

  lemma JoinedMembers(t: Links, t': Links, root: Id)
    requires Joined(t, t', root)
    ensures root in t.dagmembers && root in t'.dagmembers && t.dagmembers[root] <= t'.dagmembers[root]
  {}

  lemma NothingWhole(objs: Objs, mains: set<Id>, rank: Id -> nat, members: seq<Id>)
    ensures WholeFrom(objs, mains, rank, members, |members|)
  {}

  lemma MemberDone(objs: Objs, mains: set<Id>, rank: Id -> nat, members: seq<Id>, o: Id)
    requires o !in mains && o in members
    ensures Done(objs, mains, rank, members, o)
  {}

  /** An object is done when its needed entries are. */
  lemma ObjectDone(objs: Objs, mains: set<Id>, rank: Id -> nat, m0: seq<Id>, m1: seq<Id>, members: seq<Id>, o: Id)
    requires o in objs && MainsRanked(objs, mains, rank) && m1 <= members && WholeFrom(objs, mains, rank, members, |m1|)
    requires m1 == if o in mains then m0 else m0 + [o]
    requires forall j :: 0 <= j < |objs[o].needed| && objs[o].needed[j] != NULL ==>
               Done(objs, mains, rank, members, objs[o].needed[j])
    ensures Done(objs, mains, rank, members, o) && WholeFrom(objs, mains, rank, members, |m0|)
  {
    if o in mains {
      forall n | n in objs[o].needed && n != NULL
        ensures if n in mains then rank(n) < rank(o) && Done(objs, mains, rank, members, n) else n in members
      {
        assert Done(objs, mains, rank, members, n);
      }
    } else {
      assert members[|m0|] == o;
      assert NeedsDone(objs, mains, rank, members, o);
    }
  }

  lemma ExactMembers(objs: Objs, mains: set<Id>, rank: Id -> nat, t: Links, root: Id)
    requires Linked(t, objs) && root in objs && NULL !in objs
    requires WholeFrom(objs, mains, rank, t.dagmembers[root], 0) && Done(objs, mains, rank, t.dagmembers[root], root)
    ensures forall o :: o in objs && o !in mains ==> (o in t.dagmembers[root] <==> Reaches(objs, root, o))
  {
    forall o | o in objs && o !in mains && Reaches(objs, root, o) ensures o in t.dagmembers[root] {
      var p :| Path(objs, p) && p[0] == root && p[|p| - 1] == o;
      PathDone(objs, mains, rank, t.dagmembers[root], p);
    }
  }

  /** The root is gone from every list. */
  lemma RootRemoved(t: Links, dldags: map<Id, seq<Id>>, objs: Objs, root: Id)
    requires Linked(t, objs) && root in objs && dldags.Keys == t.dldags.Keys
    requires forall o :: o in objs ==>
               dldags[o] == if o in t.dagmembers[root] then Without(t.dldags[o], root) else t.dldags[o]
    ensures forall o :: o in objs ==> dldags[o] == Without(t.dldags[o], root)
  {
    hide Below;
    forall o | o in objs ensures dldags[o] == Without(t.dldags[o], root) {
      assert Mirrored(t, root, o);
      WithoutMembers(t.dldags[o], root);
    }
  }

  lemma DeadRemoved(t: Links, dldags: map<Id, seq<Id>>, dead: set<Id>, objs: Objs, objs': Objs, root: Id)
    requires t.dldags.Keys == objs.Keys && t.dagmembers.Keys == objs.Keys && dldags.Keys == objs.Keys
    requires (forall o :: o in objs ==> dldags[o] == Without(t.dldags[o], root)) &&
             forall o :: o in objs' <==> o in objs && o !in dead
    ensures Left(t, Links(dldags - dead, t.dagmembers - dead), objs', root)
  {}

  lemma LeftLists(t: Links, t': Links, objs': Objs, root: Id)
    requires Left(t, t', objs', root)
    ensures forall o :: o in objs' ==>
              o in t.dldags && o in t.dagmembers && o in t'.dldags && o in t'.dagmembers &&
              t'.dagmembers[o] == t.dagmembers[o] && t'.dldags[o] == Without(t.dldags[o], root)
  {}

  ghost predicate Left(t: Links, t': Links, objs': Objs, root: Id) {
    && t'.dldags.Keys == objs'.Keys && t'.dagmembers.Keys == objs'.Keys
    && forall o :: o in objs' ==>
         && o in t.dldags && o in t.dagmembers
         && t'.dldags[o] == Without(t.dldags[o], root) && t'.dagmembers[o] == t.dagmembers[o]
  }

  lemma StillLinked(t: Links, t': Links, objs: Objs, objs': Objs, root: Id)
    requires Linked(t, objs) && LeftOver(objs, objs') && root !in objs' && Left(t, t', objs', root)
    ensures Linked(t', objs')
  {
    assert Below(t', objs') by {
      hide Distinct, Mirrors, Without;
      forall r, o | r in objs' && o in t'.dagmembers[r] ensures o in objs' && Reaches(objs', r, o) {
        assert Reaches(objs, r, o);
        ReachesStays(objs, objs', r, o);
      }
    }
    hide Below;
    forall o | o in objs'
      ensures NoDuplicates(t'.dldags[o]) && forall r :: r in t'.dldags[o] <==> r in t.dldags[o] && r != root
    {
      WithoutMembers(t.dldags[o], root);
    }
    assert Mirrors(t', objs') by {
      hide Distinct, Without;
      forall r, o | r in objs' && o in objs' ensures Mirrored(t', r, o) { assert Mirrored(t, r, o); }
    }
  }

  /** A dangling root is one that died with the root that was closed, and of which a member is left. */
  lemma StaleIff(t: Links, t': Links, objs: Objs, objs': Objs, root: Id)
    requires Linked(t, objs) && LeftOver(objs, objs') && root !in objs' && Left(t, t', objs', root)
    requires Allocated(t, objs)
    ensures Allocated(t', objs') <==>
            !exists r, m :: r in objs && r !in objs' && r != root && m in t.dagmembers[r] && m in objs'
  {
    hide Below;
    forall o | o in objs' ensures forall r :: r in t'.dldags[o] <==> r in t.dldags[o] && r != root {
      WithoutMembers(t.dldags[o], root);
    }
    if r, m :| r in objs && r !in objs' && r != root && m in t.dagmembers[r] && m in objs' {
      assert Mirrored(t, r, m);
      assert r in t'.dldags[m];
    }
    forall m, r | m in objs' && r in t'.dldags[m] && r !in objs' ensures r in objs && m in t.dagmembers[r] {
      assert m in objs && r in t.dldags[m];
      assert Mirrored(t, r, m);
    }
  }

  // ---- together with dlclose ---------------------------------------------------------------------

  /**
   Another opened object dies with h, and something that it needs stays.  (What is not on the list
   is the linker's own entry.)
   */
  ghost predicate Stale(s: St, t: Links, h: Id)
    requires h in s.objs && s.objs[h].dlRefcount > 0
  {
    !Anchored(Released(s, h), h) &&
    exists r, m ::
      && r in s.list && r != h && !Anchored(Released(s, h), r)
      && r in t.dagmembers && m in t.dagmembers[r] && (m in s.list ==> Anchored(Released(s, h), m))
  }

  lemma AfterClose(w: World, self: Id, s: St, h: Id, s': St)
    requires Sound(w, self, s, multiset{}) && Sound(w, self, s', multiset{}) && GaveUp(s, h, s')
    ensures LeftOver(s.objs, s'.objs) && (h in s'.list ==> forall o :: o in s'.objs <==> o in s.objs)
    ensures forall o :: o in s'.objs <==> o in s.objs && !(o in s.list && o !in s'.list)
    ensures forall o :: o in s.list ==> (o in s'.list <==> Anchored(Released(s, h), o))
  {
    ObjectsListed(w, self, s);
    ObjectsListed(w, self, s');
    GaveUpFacts(s, h, s');
    hide Anchored, Sound, GaveUp, Released;
    OthersLeft(s.objs, s'.objs);
    hide LeftOver, Known;
  }

  lemma OthersLeft(objs: Objs, objs': Objs)
    requires NULL !in objs && Known(objs') && forall o :: o in objs' ==> o in objs && objs'[o].needed == objs[o].needed
    ensures LeftOver(objs, objs')
  {}

  lemma GaveUpFacts(s: St, h: Id, s': St)
    requires GaveUp(s, h, s')
    ensures forall o :: o in s'.objs ==> o in s.objs && s'.objs[o].needed == s.objs[o].needed
    ensures (forall o :: o in s.objs && o !in s.list ==> o in s'.objs) && forall o :: o in s'.list ==> o in s.list
    ensures forall o :: o in s.list ==> (o in s'.list <==> Anchored(Released(s, h), o))
    ensures h in s'.list ==> s'.list == s.list
  {
    hide Anchored;
  }

  lemma ObjectsListed(w: World, self: Id, s: St)
    requires Sound(w, self, s, multiset{})
    ensures NULL !in s.objs && self !in s.list && forall o :: o in s.objs <==> o == self || o in s.list
    ensures Known(s.objs)
  {
    hide Balanced, Tidy, AllLive;
    forall o | o in s.objs ensures forall n :: n in s.objs[o].needed && n != NULL ==> n in s.objs {
      NeededKnown(w, s.list, self, s.objs, o);
    }
  }

  lemma LinkedSame(t: Links, objs: Objs, objs': Objs)
    requires Linked(t, objs) && LeftOver(objs, objs') && forall o :: o in objs' <==> o in objs
    ensures Linked(t, objs') && (Allocated(t, objs) ==> Allocated(t, objs'))
  {
    assert objs'.Keys == objs.Keys;
    assert Below(t, objs') by {
      hide Distinct, Mirrors;
      forall r, o | r in t.dagmembers && o in t.dagmembers[r] ensures o in objs' && Reaches(objs', r, o) {
        ReachesStays(objs, objs', r, o);
      }
    }
    hide Below;
  }

  lemma StaleMeans(s: St, s': St, t: Links, h: Id)
    requires h in s.objs && s.objs[h].dlRefcount > 0 && h in s.list && h !in s'.list && t.dagmembers.Keys == s.objs.Keys
    requires forall o :: o in s.list ==> o in s.objs && (o in s'.list <==> Anchored(Released(s, h), o))
    requires forall o :: o in s'.objs <==> o in s.objs && !(o in s.list && o !in s'.list)
    requires forall r, m :: r in t.dagmembers && m in t.dagmembers[r] ==> m in s.objs
    ensures Stale(s, t, h) <==>
            exists r, m ::
              r in s.objs && (r in s.list && r !in s'.list) && r != h && m in t.dagmembers[r] && m in s'.objs
  {
    hide Anchored;
  }

  /**
   dlclose: every root that an object points to is still there if and only if no other root dies
   and leaves a member behind.
   */
  method CloseWithDag(l: Linker, t: Table, handle: Id) returns (status: int)
    requires l.Ready(multiset{}) && Linked(t.Now(), l.objs)
    modifies l`objs, l`objlist, l`book, l`broken, t
    ensures l.Ready(multiset{}) && Linked(t.Now(), l.objs)
    ensures status == if handle in old(l.objlist) && old(l.objs)[handle].dlRefcount > 0 then 0 else -1
    ensures status == -1 ==> unchanged(l) && unchanged(t)
    ensures status == 0 ==> GaveUp(old(l.State()), handle, l.State())
    ensures forall o :: o in l.objs ==> o in old(t.dagmembers) && t.dagmembers[o] == old(t.dagmembers)[o]
    ensures status == 0 && Allocated(old(t.Now()), old(l.objs)) ==>
              (Allocated(t.Now(), l.objs) <==> !Stale(old(l.State()), old(t.Now()), handle))
  {
    hide Sound, BookOk, Anchored, Linked, GaveUp, Allocated, LeftOver, Stale, UnloadBreaks, GivesUpBook, HandlesPinned;
    ghost var s, links := l.State(), t.Now();
    var list := l.objlist;
    LinkedKeys(links, s.objs);
    status := l.Dlclose(handle);
    if status == 0 {
      ghost var s' := l.State();
      AfterClose(l.world, l.self, s, handle, s');
      if handle in l.objlist {
        LinkedSame(links, s.objs, s'.objs);
        StillAllocated(l.world, l.self, s, s', links, handle);
      } else {
        SoundBasics(l.world, l.self, s, multiset{});
        MembersKnown(links, s.objs);
        StaleMeans(s, s', links, handle);
        t.Dissolve(handle, (set o | o in list && o !in l.objlist), s.objs, s'.objs);
      }
      LinkedKeys(t.Now(), s'.objs);
    }
  }

  lemma MembersKnown(t: Links, objs: Objs)
    requires Linked(t, objs)
    ensures forall r, m :: r in t.dagmembers && m in t.dagmembers[r] ==> m in objs
  {
    hide Reaches;
  }

  lemma StillAllocated(w: World, self: Id, s: St, s': St, t: Links, h: Id)
    requires GaveUp(s, h, s') && h in s'.list
    ensures !Stale(s, t, h)
  {
    hide Anchored;
  }

  /** If every other opened object is still open, or pinned, closing one leaves nothing behind. */
  lemma HeldRootsSafe(s: St, t: Links, h: Id)
    requires h in s.objs && s.objs[h].dlRefcount > 0
    requires forall r :: r in s.list && r != h && r in t.dagmembers && t.dagmembers[r] != [] ==>
               r in s.objs && r in s.pins && s.objs[r].dlRefcount + s.pins[r] > 0
    ensures !Stale(s, t, h)
  {
    forall r | r in s.list && r != h && r in t.dagmembers && t.dagmembers[r] != []
      ensures Anchored(Released(s, h), r)
    {
      assert HeldChain(Released(s, h), [r]) && [r][|[r]| - 1] == r;
      assert Reachable(Released(s, h), r);
    }
    hide Anchored;
  }
}

/**
 A program after which an object points to a root that is gone: "a" needs "b", which needs "c".
 Opening b and a makes two DAGs; c is held by a handle of its own.  Closing b leaves it loaded,
 as a needs it, and closing a frees both but takes only a out of the lists of c.
 Dags.CloseWithDag says for all programs when that happens.
 */
module StaleDag {
  import opened RefCounts
  import opened DlCalls
  import opened Dags

  /** The main program is file 7; "a", "b" and "c" are the files 11, 12 and 13; the linker is file 0. */
  function Chained(): World {
    World(map[0 := File({}, [], false, false), 7 := File({}, [], false, false), 11 := File({}, ["b"], false, false),
              12 := File({}, ["c"], false, false), 13 := File({}, [], false, false)],
          map[(7, "a") := 11, (7, "b") := 12, (7, "c") := 13, (11, "b") := 12, (12, "c") := 13], 0)
  }

  function NextName(k: Key): Name { if k == 11 then "b" else "c" }

  lemma ChainedFacts()
    ensures WellFormed(Chained()) && Complete(Chained()) && NoneStays(Chained())
    ensures forall k :: k in Chained().files ==>
              Chained().files[k].needed == if k == 11 || k == 12 then [NextName(k)] else []
    ensures forall k, k' :: (k == 11 || k == 12) && Resolves(Chained(), k, NextName(k), k') ==> k' == k + 1
  {}

  /** Only "a" and "b" need anything, and what they have bound is the next file. */
  lemma NeedsNext(self: Id, s: St, o: Id)
    requires Sound(Chained(), self, s, multiset{}) && o in s.objs
    ensures s.objs[o].key != 11 && s.objs[o].key != 12 ==> s.objs[o].needed == []
    ensures s.objs[o].key == 11 || s.objs[o].key == 12 ==>
              && |s.objs[o].needed| == 1
              && (s.objs[o].needed[0] != NULL ==>
                    && s.objs[o].needed[0] in s.objs && s.objs[s.objs[o].needed[0]].key == s.objs[o].key + 1)
  {
    ChainedFacts();
    hide Chained, NextName, Balanced, Tidy, AllLive, Resolves;
    assert Entries(Chained(), s.list, self, s.objs, s.objs[o]);
  }

  /** A file is loaded once. */
  lemma SameFile(self: Id, s: St, o: Id, x: Id)
    requires Sound(Chained(), self, s, multiset{}) && o in s.objs && x in s.objs && s.objs[o].key == s.objs[x].key
    requires s.objs[o].key >= 11 && s.objs[s.list[0]].key == 7
    ensures o == x && o in s.list && o != s.list[0]
  {
    assert Chained().linker == 0;
    hide Chained, Balanced, AllLive;
  }

  // ---- opening ------------------------------------------------------------------------------------

  /** What the whole program keeps. */
  ghost predicate Fine(l: Linker, t: Table)
    reads l, t
  {
    && l.world == Chained() && l.Ready(multiset{}) && !l.book.pinned && l.objlist != [] && l.objlist[0] in l.objs
    && l.objs[l.objlist[0]].key == 7 && t.mains == {l.objlist[0]} && Linked(t.Now(), l.objs)
    && Allocated(t.Now(), l.objs)
  }

  lemma CanOpen(s: St, name: Name, k: Key)
    requires (7, name) in Chained().search && Chained().search[(7, name)] == k
    requires s.list != [] && s.list[0] in s.objs && s.objs[s.list[0]].key == 7
    ensures Openable(Chained(), s, name, false, false)
  {}

  lemma WasOpened(s: St, s': St, call: Call, up: GiveUp, h: Id, k: Key)
    requires call.Open? && !call.isMain && !call.noload && call.relocated && OpenStep(Chained(), s, s', call, up, h) &&
             Complete(Chained())
    requires s.list != [] && s.list[0] in s.objs && s.objs[s.list[0]].key == 7
    requires (7, call.name) in Chained().search && Chained().search[(7, call.name)] == k
    ensures h != NULL && h in s'.objs && s'.objs[h].key == k && Keeps(s, s') && Handles(s, s', h)
    ensures (forall o :: o in s.objs ==> s.objs[o].key != k) ==> h !in s.objs
  {
    CanOpen(s, call.name, k);
    hide Chained, Openable, Complete, Handles, GaveUp;
  }

  lemma KeepsExtends(s: St, s': St)
    requires Keeps(s, s')
    ensures Extends(s.objs, s'.objs) && s.list <= s'.list
  {}

  lemma IsBound(self: Id, s: St, h: Id)
    requires Sound(Chained(), self, s, multiset{}) && h in s.objs && s.objs[h].key >= 11 && s.objs[s.list[0]].key == 7
    requires forall i :: 0 <= i < |s.list| && s.list[i] == h ==> BoundBetween(s, i, |s.list|)
    ensures AllBound(s.objs[h])
  {
    SameFile(self, s, h, h);
    hide Sound, Chained, AllBound;
    var i :| 0 <= i < |s.list| && s.list[i] == h;
    assert BoundBetween(s, i, |s.list|);
  }

  /** The main program needs nothing, and everything bound is there. */
  lemma MainAlone(self: Id, s: St, rank: Id -> nat)
    requires Sound(Chained(), self, s, multiset{}) && s.objs[s.list[0]].key == 7
    ensures MainsRanked(s.objs, {s.list[0]}, rank) && Known(s.objs) && NULL !in s.objs
  {
    ObjectsListed(Chained(), self, s);
    NeedsNext(self, s, s.list[0]);
  }

  lemma JoinedRest(t: Links, t': Links, objs: Objs, h: Id)
    requires Joined(t, t', h) && Allocated(t, objs) && h in objs
    ensures Allocated(t', objs) && forall o :: o in t.dagmembers && o != h ==> t'.dagmembers[o] == t.dagmembers[o]
  {}

  lemma NoMembersWhole(objs: Objs, mains: set<Id>, rank: Id -> nat)
    ensures WholeFrom(objs, mains, rank, [], 0)
  {}

  /** dlopen, with the DAG of what was opened if anything awaits relocation. */
  method OpenWithDag(l: Linker, t: Table, name: Name, k: Key, pending: bool) returns (h: Id)
    requires Fine(l, t) && (7, name) in Chained().search && Chained().search[(7, name)] == k && k >= 11
    modifies l, t
    ensures Fine(l, t) && l.objlist[0] == old(l.objlist[0]) && h in l.objs && l.objs[h].key == k
    ensures Keeps(old(l.State()), l.State()) && Handles(old(l.State()), l.State(), h)
    ensures pending ==> AllBound(l.objs[h])
    ensures pending && (forall o :: o in old(l.objs) ==> old(l.objs)[o].key != k) ==>
              forall o :: o in l.objs && o != l.objlist[0] ==> (o in t.dagmembers[h] <==> Reaches(l.objs, h, o))
    ensures t.dagmembers.Keys == l.objs.Keys &&
            forall o :: o in old(l.objs) && o != h ==> o in l.objs && t.dagmembers[o] == old(t.dagmembers)[o]
  {
    hide Sound, BookOk, BoundBetween, Complete, GaveUp, Chained, Linked, Allocated, Keeps, Handles, UpMeetsZero,
         UpBreaks, OpenStep, MainsRanked, Known, WholeFrom, Joined, Reaches, Extends, AllBound, OpensLinker;
    ghost var s := l.State();
    var before := l.objs;
    ChainedFacts();
    ObjectsListed(l.world, l.self, s);
    ghost var up;
    h, up := l.Dlopen(name, false, false, false, pending, true);
    ghost var s', rank := l.State(), (_: Id) => 0;
    WasOpened(s, s', Open(name, false, false, false, pending, true), up, h, k);
    KeepsExtends(s, s');
    t.Appear(before, l.objs);
    MainAlone(l.self, s', rank);
    LinkedKeys(t.Now(), l.objs);
    if pending {
      IsBound(l.self, s', h);
      NoMembersWhole(l.objs, t.mains, rank);
      ghost var mid := t.Now();
      t.InitDag(l.objs, h, rank);
      LinkedKeys(t.Now(), l.objs);
      JoinedRest(mid, t.Now(), l.objs, h);
    }
  }

  // ---- closing ------------------------------------------------------------------------------------

  /** a needs b, b needs c, nothing else needs anything, and none of the three is pinned. */
  ghost predicate Trio(s: St, a: Id, b: Id, c: Id) {
    && a in s.list && b in s.list && c in s.list && a != b && b != c && a != c
    && (forall o :: o in s.list ==> o in s.objs)
    && s.objs[a].needed == [b] && s.objs[b].needed == [c]
    && (forall o :: o in s.list && o != a && o != b ==> s.objs[o].needed == [])
    && a in s.pins && b in s.pins && c in s.pins && s.pins[a] == 0 && s.pins[b] == 0
  }

  lemma TrioNeeds(self: Id, s: St, a: Id, b: Id, c: Id)
    requires Sound(Chained(), self, s, multiset{}) && s.objs[s.list[0]].key == 7
    requires a in s.objs && b in s.objs && c in s.objs && AllBound(s.objs[a]) && AllBound(s.objs[b])
    requires s.objs[a].key == 11 && s.objs[b].key == 12 && s.objs[c].key == 13
    ensures s.objs[a].needed == [b] && s.objs[b].needed == [c]
    ensures forall o :: o in s.list && o in s.objs && o != a && o != b ==> s.objs[o].needed == []
  {
    hide Sound, Chained;
    NeedsNext(self, s, a);
    NeedsNext(self, s, b);
    SameFile(self, s, s.objs[a].needed[0], b);
    SameFile(self, s, s.objs[b].needed[0], c);
    forall o | o in s.list && o in s.objs && o != a && o != b ensures s.objs[o].needed == [] {
      NeedsNext(self, s, o);
      if s.objs[o].key == 11 { SameFile(self, s, o, a); }
      if s.objs[o].key == 12 { SameFile(self, s, o, b); }
    }
  }

  lemma Unpinned(self: Id, s: St, book: Book, o: Id)
    requires Sound(Chained(), self, s, multiset{}) && BookOk(Chained(), self, s, book, multiset{}) && !book.pinned
    requires o in s.objs && o in s.list && o != s.list[0]
    ensures o in s.pins && s.pins[o] == 0
  {
    PinsKnown(Chained(), self, s, o);
    SoundBasics(Chained(), self, s, multiset{});
    hide Sound, Accounted, Chained;
  }

  lemma TrioLoaded(self: Id, s: St, book: Book, a: Id, b: Id, c: Id)
    requires Sound(Chained(), self, s, multiset{}) && BookOk(Chained(), self, s, book, multiset{}) && !book.pinned
    requires s.objs[s.list[0]].key == 7 && a in s.objs && b in s.objs && c in s.objs
    requires s.objs[a].key == 11 && s.objs[b].key == 12 && s.objs[c].key == 13
    requires AllBound(s.objs[a]) && AllBound(s.objs[b])
    ensures Trio(s, a, b, c)
  {
    hide Sound, Chained, BookOk, AllBound;
    SoundBasics(Chained(), self, s, multiset{});
    SameFile(self, s, a, a);
    SameFile(self, s, b, b);
    SameFile(self, s, c, c);
    Unpinned(self, s, book, a);
    Unpinned(self, s, book, b);
    Unpinned(self, s, book, c);
    TrioNeeds(self, s, a, b, c);
  }

  /** Without a handle on a and b nothing leads to them. */
  lemma Unheld(s: St, a: Id, b: Id, c: Id)
    requires Trio(s, a, b, c) && s.objs[a].dlRefcount == 0 && s.objs[b].dlRefcount == 0
    ensures !Anchored(s, a) && !Anchored(s, b)
  {
    assert Ranked(s, o => if o == a then 2 else if o == b then 1 else 0);
    forall p | HeldChain(s, p) ensures p[|p| - 1] != a && p[|p| - 1] != b {
      FirstNeeds(s, p);
    }
    hide HeldChain, Ranked, Anchored;
    AcyclicAnchored(s, a);
    AcyclicAnchored(s, b);
  }

  lemma Leads(s: St, p: seq<Id>)
    requires HeldChain(s, p)
    ensures Anchored(s, p[|p| - 1])
  {
    assert Reachable(s, p[|p| - 1]);
  }

  /** Closing b: a still leads to it. */
  lemma BStays(s: St, a: Id, b: Id, c: Id)
    requires Trio(s, a, b, c) && s.objs[a].dlRefcount > 0 && s.objs[b].dlRefcount > 0
    ensures Anchored(Released(s, b), b)
  {
    assert HeldChain(Released(s, b), [a, b]);
    Leads(Released(s, b), [a, b]);
  }

  lemma TrioStays(s: St, h: Id, s': St, a: Id, b: Id, c: Id)
    requires Trio(s, a, b, c) && GaveUp(s, h, s') && s'.list == s.list && forall o :: o in s'.list ==> o in s'.objs
    ensures Trio(s', a, b, c) && forall o :: o in s'.list ==>
              s'.objs[o].dlRefcount == s.objs[o].dlRefcount - if o == h then 1 else 0
  {
    hide Anchored;
  }

  /** Closing a: b, whose DAG holds c, dies with it, and c stays. */
  lemma Goes(s: St, t: Links, a: Id, b: Id, c: Id)
    requires Trio(s, a, b, c) && s.objs[a].dlRefcount == 1 && s.objs[b].dlRefcount == 0 && s.objs[c].dlRefcount > 0
    requires b in t.dagmembers && c in t.dagmembers[b]
    ensures Stale(s, t, a)
  {
    var s1 := Released(s, a);
    Unheld(s1, a, b, c);
    assert HeldChain(s1, [c]);
    Leads(s1, [c]);
    hide Anchored, Released;
  }

  lemma Fresh(self: Id, s: St, k: Key)
    requires Sound(Chained(), self, s, multiset{}) && s.list == [1] && 1 in s.objs && s.objs[1].key == 7 && k >= 11
    ensures forall o :: o in s.objs ==> s.objs[o].key != k
  {
    ObjectsListed(Chained(), self, s);
    SoundBasics(Chained(), self, s, multiset{});
  }

  lemma HoldsC(self: Id, s: St, t: Links, b: Id, c: Id)
    requires Sound(Chained(), self, s, multiset{}) && b in s.objs && s.objs[b].key == 12 && AllBound(s.objs[b])
    requires s.objs[s.list[0]].key == 7 && c == s.objs[b].needed[0] && b in t.dagmembers
    requires forall o :: o in s.objs && o != s.list[0] ==> (o in t.dagmembers[b] <==> Reaches(s.objs, b, o))
    ensures c in s.objs && s.objs[c].key == 13 && c in t.dagmembers[b]
  {
    hide Sound, Chained;
    NeedsNext(self, s, b);
    SameFile(self, s, c, c);
    assert Path(s.objs, [b, c]);
    assert [b, c][1] == c;
    assert Reaches(s.objs, b, c);
  }

  lemma StillBound(s: St, s': St, b: Id)
    requires Keeps(s, s') && b in s.objs && AllBound(s.objs[b])
    ensures b in s'.objs && s'.objs[b].key == s.objs[b].key && AllBound(s'.objs[b])
    ensures s'.objs[b].needed == s.objs[b].needed
  {}

  lemma HandlesOnly(s0: St, s1: St, s2: St, s3: St, b: Id, a: Id, c: Id)
    requires forall o :: o in s0.objs ==> s0.objs[o].dlRefcount == 0
    requires Handles(s0, s1, b) && Handles(s1, s2, a) && Handles(s2, s3, c)
    requires a != b && b != c && a != c && a in s3.objs && b in s3.objs && c in s3.objs && b in s2.objs && a in s2.objs
    requires b in s1.objs
    ensures s3.objs[a].dlRefcount == 1 && s3.objs[b].dlRefcount == 1 && s3.objs[c].dlRefcount == 1
  {}

  /** b, a and c are opened in this order; the DAG of b holds c. */
  method OpenThree() returns (l: Linker, t: Table, a: Id, b: Id, c: Id)
    ensures fresh(l) && fresh(t)
    ensures l.world == Chained() && l.Ready(multiset{}) && Linked(t.Now(), l.objs) && Allocated(t.Now(), l.objs)
    ensures Trio(l.State(), a, b, c) && b in t.dagmembers && c in t.dagmembers[b]
    ensures l.objs[a].dlRefcount == 1 && l.objs[b].dlRefcount == 1 && l.objs[c].dlRefcount == 1
  {
    hide Sound, BookOk, Chained, Linked, Allocated, Keeps, Handles, Reaches, AllBound, Trio;
    ChainedFacts();
    Names();
    l := new Linker(Chained(), 7);
    t := new Table(l.objs, {1});
    ghost var s0 := l.State();
    Fresh(l.self, s0, 12);
    b := OpenWithDag(l, t, "b", 12, true);
    ghost var s1 := l.State();
    NeedsNext(l.self, s1, b);
    ghost var c1 := BoundFirst(s1, b);
    HoldsC(l.self, s1, t.Now(), b, c1);
    a := OpenWithDag(l, t, "a", 11, true);
    ghost var s2 := l.State();
    StillBound(s1, s2, b);
    c := OpenWithDag(l, t, "c", 13, false);
    ghost var s3 := l.State();
    StillBound(s2, s3, a);
    StillBound(s2, s3, b);
    TrioLoaded(l.self, s3, l.book, a, b, c);
    TrioHolds(s3, a, b, c);
    HandlesOnly(s0, s1, s2, s3, b, a, c);
  }

  lemma Names()
    ensures (7, "a") in Chained().search && Chained().search[(7, "a")] == 11
    ensures (7, "b") in Chained().search && Chained().search[(7, "b")] == 12
    ensures (7, "c") in Chained().search && Chained().search[(7, "c")] == 13
    ensures 7 in Chained().files
  {}

  ghost function BoundFirst(s: St, b: Id): Id
    requires b in s.objs && |s.objs[b].needed| == 1
  {
    s.objs[b].needed[0]
  }

  lemma TrioHolds(s: St, a: Id, b: Id, c: Id)
    requires Trio(s, a, b, c)
    ensures a in s.list && b in s.list && c in s.list && a in s.objs && b in s.objs && c in s.objs
    ensures s.objs[b].needed == [c] && a != b && b != c && a != c
  {}

  lemma BothThere(s: St, b: Id, s': St)
    requires GaveUp(s, b, s') && b in s.list && Anchored(Released(s, b), b)
    ensures s'.list == s.list
  {
    hide Anchored;
  }

  lemma NotStale(s: St, t: Links, b: Id)
    requires b in s.objs && s.objs[b].dlRefcount > 0 && Anchored(Released(s, b), b)
    ensures !Stale(s, t, b)
  {
    hide Anchored;
  }

  /** The program. */
  method Dangles() returns (l: Linker, t: Table)
    ensures l.Ready(multiset{}) && Linked(t.Now(), l.objs) && !Allocated(t.Now(), l.objs)
  {
    hide Sound, BookOk, Chained, Linked, Allocated, Trio, GaveUp, Stale, Anchored;
    var a, b, c;
    l, t, a, b, c := OpenThree();
    ghost var s, links := l.State(), t.Now();
    TrioHolds(s, a, b, c);
    BStays(s, a, b, c);
    NotStale(s, links, b);
    var status := CloseWithDag(l, t, b);
    ghost var s' := l.State();
    BothThere(s, b, s');
    SoundBasics(l.world, l.self, s', multiset{});
    TrioStays(s, b, s', a, b, c);
    TrioHolds(s', a, b, c);
    LinkedKeys(t.Now(), s'.objs);
    Goes(s', t.Now(), a, b, c);
    status := CloseWithDag(l, t, a);
  }
}

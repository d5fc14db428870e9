/**
 The linker's own entry, whose count is not conserved: two programs, run through the modelled
 calls, that show it.  RefCounts.LinkerEntryConserved says for all programs when it is.
 */
module LinkerEntry {
  import opened RefCounts
  import opened DlCalls

  // ---- a program that needs the linker -----------------------------------------------------------

  /** The main program, file 7, needs "ld", which is the linker, file 0. */
  function Needy(): World {
    World(map[0 := File({}, [], false, false), 7 := File({}, ["ld"], false, false)], map[(7, "ld") := 0], 0)
  }

  /** A bound entry whose name leads only to the linker is bound to the linker's own entry. */
  lemma BoundToLinker(w: World, self: Id, s: St, x: Id)
    requires Sound(w, self, s, multiset{}) && x in s.list && x in s.objs && s.objs[x].key in w.files &&
             w.files[s.objs[x].key].needed == ["ld"]
    requires (forall k :: Resolves(w, s.objs[x].key, "ld", k) ==> k == w.linker) && s.objs[s.list[0]].key != w.linker
    ensures |s.objs[x].needed| == 1 && (s.objs[x].needed[0] == NULL || s.objs[x].needed[0] == self)
  {
    hide Balanced, Tidy;
    assert Entries(w, s.list, self, s.objs, s.objs[x]);
  }

  /** Loading what the program needs leaves the linker's count wrong. */
  method Miscounted() returns (l: Linker)
    ensures l.Ready(multiset{}) && l.self in l.objs && l.self in l.pins &&
            !Counted(l.objlist, l.objs, l.pins, multiset{}, l.self)
  {
    hide Sound, BookOk, BoundBetween, Loaded, LoadsBook;
    var w := Needy();
    l := new Linker(w, 7);
    ghost var s := l.State();
    var ok := l.LoadNeededObjects(1, true);
    NeedyBound(l.self, s, l.State());
    BookNeeds(w, l.self, l.State(), l.book, 1);
    LinkerEntryConserved(w, l.self, l.State(), l.book);
  }

  lemma NeedyBound(self: Id, s: St, s': St)
    requires Sound(Needy(), self, s', multiset{}) && Loaded(s, s') && s.list == [1] && 1 in s.objs && s.objs[1].key == 7
    requires s'.list != [] && s'.list[0] == 1 ==> BoundBetween(s', 0, |s'.list|)
    ensures 1 in s'.objs && self in s'.objs[1].needed
  {
    LoadedAt(s, s', 1);
    LoadedPrefix(s, s');
    SoundBasics(Needy(), self, s', multiset{});
    assert s'.list[0] == 1 && AllBound(s'.objs[1]);
    NeedyFacts();
    hide Sound, Loaded, Needy, BoundBetween;
    BoundToLinker(Needy(), self, s', 1);
  }

  lemma NeedyFacts()
    ensures 7 in Needy().files && Needy().files[7].needed == ["ld"] && Needy().linker == 0
    ensures forall k :: Resolves(Needy(), 7, "ld", k) ==> k == 0
  {}

  lemma BookNeeds(w: World, self: Id, s: St, b: Book, x: Id)
    requires BookOk(w, self, s, b, multiset{}) && x in s.objs && self in s.objs[x].needed
    ensures x in b.needers
  {}

  // ---- a library that needs the linker, opened and closed twice ----------------------------------

  /** The main program, file 7, needs nothing; the library "lib", file 9, needs the linker, file 0. */
  function Plug(): World {
    World(map[0 := File({}, [], false, false), 7 := File({}, [], false, false), 9 := File({}, ["ld"], false, false)],
          map[(7, "lib") := 9, (9, "ld") := 0], 0)
  }

  /** Only the main program is loaded, nothing is open, and nothing was ever pinned. */
  ghost predicate Bare(l: Linker)
    reads l
  {
    && l.world == Plug() && l.Ready(multiset{}) && |l.objlist| == 1 && l.objlist[0] in l.objs &&
       l.objs[l.objlist[0]].key == 7
    && !l.book.pinned && forall o :: o in l.objs ==> l.objs[o].dlRefcount == 0
  }

  /** No listed object needs a listed one. */
  lemma NothingInside(self: Id, s: St)
    requires Sound(Plug(), self, s, multiset{}) && s.objs[s.list[0]].key == 7
    ensures forall o, n :: o in s.list && n in s.objs[o].needed ==> n == NULL || n == self
    ensures forall o :: o in s.list && s.objs[o].key != 9 ==> s.objs[o].needed == []
  {
    forall o | o in s.list
      ensures (forall n :: n in s.objs[o].needed ==> n == NULL || n == self) &&
              (s.objs[o].key != 9 ==> s.objs[o].needed == [])
    {
      KeyOf(self, s, o);
      if s.objs[o].key == 9 { BoundToLinker(Plug(), self, s, o); }
    }
  }

  lemma KeyOf(self: Id, s: St, o: Id)
    requires Sound(Plug(), self, s, multiset{}) && o in s.list
    ensures o in s.objs && s.objs[o].key in Plug().files && |s.objs[o].needed| == |Plug().files[s.objs[o].key].needed|
    ensures o != s.list[0] ==> s.objs[o].key != 0
  {
    hide Balanced, Tidy;
    assert Entries(Plug(), s.list, self, s.objs, s.objs[o]);
  }

  /** The library is loaded, so it holds a reference to the linker's own entry. */
  lemma PlugBound(self: Id, s: St, b: Book, h: Id)
    requires Sound(Plug(), self, s, multiset{}) && BookOk(Plug(), self, s, b, multiset{}) && h in s.objs &&
             s.objs[h].key == 9 && s.objs[s.list[0]].key == 7
    requires forall i :: 0 <= i < |s.list| && s.list[i] == h ==> BoundBetween(s, i, |s.list|)
    ensures h in s.list && b.handed > b.drops
  {
    hide Sound, BookOk;
    SoundBasics(Plug(), self, s, multiset{});
    var i :| 0 <= i < |s.list| && s.list[i] == h;
    assert AllBound(s.objs[h]) by { assert BoundBetween(s, i, |s.list|); }
    BoundToLinker(Plug(), self, s, h);
    assert s.objs[h].needed == [self];
    LiveRefsAtLeast(s.list, s.objs, h, self);
    BookKnows(Plug(), self, s, b, multiset{});
  }

  /** Once the handle is given up, only the main program can be reached. */
  lemma OnlyMain(self: Id, s: St, b: Book, o: Id)
    requires Sound(Plug(), self, s, multiset{o}) && BookOk(Plug(), self, s, b, multiset{o}) && !b.pinned &&
             s.objs[s.list[0]].key == 7
    requires forall x :: x in s.objs ==> s.objs[x].dlRefcount == 0
    requires forall x, n :: x in s.list && n in s.objs[x].needed ==> n == NULL || n == self
    ensures forall x :: Reachable(s, x) ==> x == s.list[0]
  {
    SoundBasics(Plug(), self, s, multiset{o});
    hide Sound, Accounted;
    forall p | HeldChain(s, p) ensures p[|p| - 1] == s.list[0] {
      if |p| > 1 { SecondNeeded(self, s, p); }
    }
  }

  lemma SecondNeeded(self: Id, s: St, p: seq<Id>)
    requires NeedChain(s, p) && |p| > 1 &&
             forall x, n :: x in s.list && x in s.objs && n in s.objs[x].needed ==> n == NULL || n == self
    ensures p[1] == NULL || p[1] == self
  {
    assert p[1] in s.objs[p[0]].needed;
  }

  lemma NotCyclic(self: Id, s: St)
    requires forall x, n :: x in s.list && x in s.objs && n in s.objs[x].needed ==> n == NULL || n == self
    requires NULL !in s.list && self !in s.list
    ensures ListAcyclic(s)
  {
    assert Ranked(s, x => 0);
  }

  /** dlopen of the library. */
  method OpenPlug(l: Linker) returns (h: Id)
    requires Bare(l)
    modifies l
    ensures l.world == Plug() && l.Ready(multiset{}) && MainKept(old(l.State()), l.State()) && !l.book.pinned
    ensures h in l.objlist && h in l.objs && l.objs[h].key == 9
    ensures forall o :: o in l.objs ==> l.objs[o].dlRefcount == if o == h then 1 else 0
    ensures l.book.drops == old(l.book.drops) && l.book.handed > l.book.drops
  {
    hide Sound, BookOk, BoundBetween, Complete, Openable, OpensLinker, GaveUp;
    PlugComplete(l.State());
    ghost var up;
    h, up := l.Dlopen("lib", false, false, false, true, true);
    PlugBound(l.self, l.State(), l.book, h);
  }

  lemma PlugComplete(s: St)
    ensures Complete(Plug()) && NoneStays(Plug())
    ensures |s.list| == 1 && s.list[0] in s.objs && s.objs[s.list[0]].key == 7 ==>
              Openable(Plug(), s, "lib", false, false)
  {}

  /** dlopen and dlclose of the library: the linker's count goes down by one. */
  method OpenAndClose(l: Linker)
    requires Bare(l)
    modifies l
    ensures Bare(l) && l.book.drops > old(l.book.drops)
  {
    hide Sound, BookOk, Anchored, Unloaded, UnloadBreaks, HandlesPinned, Lost, MeetsZero;
    var h := OpenPlug(l);
    ghost var s := l.State();
    Unanchored(l.self, s, l.book, h);
    var status := l.Dlclose(h);
    AfterClose(s, l.State(), h);
    ClosedAgain(l.self, l.State(), l.book);
  }

  lemma Unanchored(self: Id, s: St, b: Book, h: Id)
    requires Sound(Plug(), self, s, multiset{}) && BookOk(Plug(), self, s, b, multiset{}) && !b.pinned &&
             s.objs[s.list[0]].key == 7
    requires h in s.list && h in s.objs && forall o :: o in s.objs ==> s.objs[o].dlRefcount == if o == h then 1 else 0
    ensures forall x :: Anchored(Released(s, h), x) ==> x == s.list[0]
  {
    hide Sound, BookOk, Reachable, ListAcyclic, Anchored;
    SoundBasics(Plug(), self, s, multiset{});
    NothingInside(self, s);
    ReleaseHandle(Plug(), self, s, h);
    BookRelease(Plug(), self, s, b, h);
    OnlyMain(self, Released(s, h), b, h);
    NotCyclic(self, Released(s, h));
    forall x ensures Anchored(Released(s, h), x) ==> x == s.list[0] { AcyclicAnchored(Released(s, h), x); }
  }

  lemma AfterClose(s: St, s': St, h: Id)
    requires h in s.objs && (forall o :: o in s.objs ==> s.objs[o].dlRefcount == if o == h then 1 else 0)
    requires s.list != [] && GaveUp(s, h, s') && (forall x :: Anchored(Released(s, h), x) ==> x == s.list[0])
    ensures forall o :: o in s'.list ==> o == s.list[0]
    ensures forall o :: o in s'.objs ==> s'.objs[o].dlRefcount == 0
  {
    hide Anchored;
  }

  lemma ClosedAgain(self: Id, s: St, b: Book)
    requires Sound(Plug(), self, s, multiset{}) && BookOk(Plug(), self, s, b, multiset{}) && s.objs[s.list[0]].key == 7
    requires (forall o :: o in s.list ==> o == s.list[0]) && forall o :: o in s.objs ==> s.objs[o].dlRefcount == 0
    ensures |s.list| == 1 && b.drops == b.handed
  {
    SoundBasics(Plug(), self, s, multiset{});
    NothingInside(self, s);
    hide Sound;
    assert s.list[|s.list| - 1] in s.list;
    NoRefs(s.list, s.objs, self);
    BookKnows(Plug(), self, s, b, multiset{});
  }

  /** After the second round _rtld_unref_dag has met a zero count, which its assertion forbids. */
  method DroppedBelowZero() returns (l: Linker)
    ensures l.Ready(multiset{}) && l.book.zeroMet
  {
    hide Sound, BookOk;
    l := new Linker(Plug(), 7);
    OpenAndClose(l);
    OpenAndClose(l);
    SecondDrop(Plug(), l.self, l.State(), l.book);
  }

  lemma SecondDrop(w: World, self: Id, s: St, b: Book)
    requires BookOk(w, self, s, b, multiset{}) && !b.pinned && b.drops >= 2
    ensures b.zeroMet
  {}
}

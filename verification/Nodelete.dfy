/**
 A root that must never be deleted and is unloaded all the same: a dlopen that fails gives its
 handle up before the object was pinned, which the assertion on the root forbids.
 RefCounts.BreaksIfNodelete says for all programs when that happens.
 */
module Nodelete {
  import opened RefCounts
  import opened DlCalls

  /** The main program, file 7, and the library "lib", file 9, which is marked DF_1_NODELETE; neither needs anything. */
  function Fixed(): World {
    World(map[0 := File({}, [], false, false), 7 := File({}, [], false, false), 9 := File({}, [], true, false)],
          map[(7, "lib") := 9], 0)
  }

  lemma FixedFacts()
    ensures WellFormed(Fixed()) && forall k :: k in Fixed().files ==> Fixed().files[k].needed == []
  {
    assert Layers(Fixed(), {9}, k => 0);
  }

  /** Without needed entries everything is bound, and nothing leads from one object to another. */
  lemma NothingNeeded(self: Id, s: St)
    requires Sound(Fixed(), self, s, multiset{})
    ensures BoundBetween(s, 0, |s.list|) && forall o :: o in s.list ==> o in s.objs && s.objs[o].needed == []
  {
    hide Balanced, Tidy;
    forall o | o in s.list ensures o in s.objs && s.objs[o].needed == [] {
      assert Entries(Fixed(), s.list, self, s.objs, s.objs[o]);
    }
  }

  lemma LoneUnanchored(s: St, o: Id)
    requires forall x :: x in s.list ==> x in s.objs && s.objs[x].needed == []
    requires o in s.objs && s.objs[o].dlRefcount == 0 && o in s.pins && s.pins[o] == 0
    ensures !Anchored(s, o)
  {
    forall p | NeedChain(s, p) ensures |p| == 1 { FirstNeeds(s, p); }
    assert forall x :: !OnCycle(s, x);
  }

  /** The library was just opened for the first time: without the handle nothing leads to it. */
  lemma OpenedUnpinned(self: Id, s: St, b: Book, h: Id)
    requires Sound(Fixed(), self, s, multiset{}) && BookOk(Fixed(), self, s, b, multiset{}) && !b.pinned
    requires h in s.objs && s.objs[h].key == 9 && s.objs[h].dlRefcount == 1 && s.objs[s.list[0]].key == 7
    ensures h in s.list && UnloadBreaks(self, Released(s, h), h) && BoundBetween(s, 0, |s.list|)
  {
    SoundBasics(Fixed(), self, s, multiset{});
    NothingNeeded(self, s);
    assert h in s.list && h in s.pins by { hide Shape, Accounted, Recorded; }
    hide Sound, BoundBetween, Accounted, Anchored;
    LoneUnanchored(Released(s, h), h);
  }

  /** dlopen of the library, of which the relocation fails: the assertion on the root fails. */
  method FailedOpenUnloads() returns (l: Linker)
    ensures l.Ready(multiset{}) && l.broken
  {
    hide Sound, BookOk, BoundBetween, GaveUp, Loaded, UnloadBreaks, LoadsBook, UpMeetsZero;
    FixedFacts();
    l := new Linker(Fixed(), 7);
    ghost var s0 := l.State();
    var h := l.OpenHandle("lib", false, false);
    ghost var s := l.State();
    OpenedUnpinned(l.self, s, l.book, h);
    var ok;
    ghost var up;
    ok, up := l.LoadForHandle(h, true, false, s0);
  }
}

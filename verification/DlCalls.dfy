/**
 The calls that load, reference and unload objects, as the code makes them: _rtld_load_object,
 _rtld_load_by_name, _rtld_load_needed_objects, _rtld_ref_dag, _rtld_unref_dag,
 _rtld_unload_object, dlopen and dlclose.  What they keep and what that means is in RefCounts.
 */
module DlCalls {
  import opened RefCounts

  class Linker {
    const world: World
    const self: Id                    // _rtld_objself, which is not on the list
    var objlist: seq<Id>              // _rtld_objlist, the main program first
    var objs: Objs
    var next: Id                      // supply of fresh objects
    ghost var pins: map<Id, nat>      // references that are never dropped
    ghost var book: Book              // what happened to the linker's own entry
    ghost var broken: bool            // an assertion of _rtld_unload_object on its root failed

    ghost predicate Valid(pending: multiset<Id>)
      reads this
    {
      Shape(world, objlist, self, objs) && Balanced(objlist, objs, pins, pending) &&
      Accounted(self, objlist, objs, pins, book, pending)
    }

    ghost function State(): St
      reads this
    {
      St(objlist, objs, pins, next)
    }

    /** The invariant between the steps of a call, with the linker's own entry accounted for. */
    ghost predicate Ready(pending: multiset<Id>)
      reads this
    {
      Sound(world, self, State(), pending) && BookOk(world, self, State(), book, pending)
    }

    /** At startup the main program is listed and, like the linker itself, has one reference of its own. */
    constructor (w: World, mainKey: Key)
      requires WellFormed(w) && mainKey in w.files
      ensures world == w && Ready(multiset{}) && objlist == [1] && 1 in objs && objs[1].key == mainKey &&
              book == Book(0, 0, false, 0, {}, false) && !broken
      ensures forall o :: o in objs ==> objs[o].dlRefcount == 0
    {
      world := w;
      self := 2;
      objlist := [1];
      objs := FirstObjs(w, mainKey);
      pins := map[1 := 1, 2 := 1];
      next := 3;
      book := Book(0, 0, false, 0, {}, false);
      broken := false;
      new;
      hide Sound, BookOk;
      FirstSound(world, mainKey);
      FirstBook(world, mainKey);
    }

    /** _rtld_load_object: finds or maps the file k and takes a reference, which is then owed to the caller. */
    method LoadObject(k: Key, dlopen: bool, noload: bool) returns (o: Id)
      requires Ready(multiset{}) && k in world.files
      modifies this`objlist, this`objs, this`next, this`pins, this`book
      ensures o == NULL || o == self ==> State() == old(State())
      ensures (o == self <==> k == world.linker) &&
              book == old(book).(handed := old(book.handed) + if o == self then 1 else 0)
      ensures o == self ==> self in objs && self in pins && (objs[self].refcount > 0 <==> book.drops < pins[self])
      ensures o != NULL ==> o in objs && objs[o].key == k
      ensures o == NULL <==> Refused(world, old(State()), k, dlopen, noload)
      ensures Ready(if o == NULL then multiset{} else multiset{o})
      ensures Grown(old(State()), State(), o)
    {
      hide Sound, Grown, BookOk;
      SoundBasics(world, self, State(), multiset{});
      if k == world.linker {
        SelfOwed(world, self, State());
        BookSelfOwed(world, self, State(), book);
        BookKnows(world, self, State(), book, multiset{});
        book := book.(handed := book.handed + 1);
        return self;
      }
      var i := 1;
      while i < |objlist| && objs[objlist[i]].key != k
        invariant 1 <= i <= |objlist|
        invariant forall j :: 1 <= j < i ==> objs[objlist[j]].key != k
      {
        i := i + 1;
      }
      if i < |objlist| {
        o := objlist[i];
        Referenced(world, self, State(), o);
        BookReferenced(world, self, State(), book, o);
        objs := objs[o := objs[o].(refcount := objs[o].refcount + 1)];
      } else {
        var file := world.files[k];
        if dlopen && (file.noopen || noload) {
          GrownReflexive(State());
          return NULL;
        }
        Mapped(world, self, State(), k);
        BookMapped(world, self, State(), book, k);
        o := next;
        next := next + 1;
        objlist := objlist + [o];
        objs := objs[o := NewObj(world, k)];
        pins := pins[o := 0];
      }
    }

    /** _rtld_load_by_name (without the sysctl-driven substitutions): binds entry k of object x. */
    method LoadByName(x: Id, k: nat, dlopen: bool) returns (ok: bool)
      requires Ready(multiset{}) && x in objlist && k < |objs[x].needed| && objs[x].needed[k] == NULL
      modifies this`objlist, this`objs, this`next, this`pins, this`book
      ensures Ready(multiset{}) && Loaded(old(State()), State()) && LoadsBook(world, old(book), book) &&
              book.pinned == old(book.pinned)
      ensures ok ==> x in objs && k < |objs[x].needed| && objs[x].needed[k] in objs && objs[x].needed[k] != NULL
      ensures ok ==> old(objs)[x].key in world.files && k < |world.files[old(objs)[x].key].needed| &&
                     BindsTo(world, old(State()), old(objs)[x].key, world.files[old(objs)[x].key].needed[k],
                             objs[x].needed[k], objs[objs[x].needed[k]].key)
      ensures !ok ==> State() == old(State())
      ensures ok <==> EntryBindable(world, old(State()), x, k, dlopen)
      ensures SamePins(old(State()), State()) && OnlyBinds(old(State()), State(), x, k)
      ensures ok ==> forall j :: 0 <= j < |objs[x].needed| && j != k ==> objs[x].needed[j] == old(objs[x].needed)[j]
    {
      hide Sound, Grown, Loaded, BookOk, BindsTo, Resolves, Bindable, OnlyBinds;
      SoundBasics(world, self, State(), multiset{});
      EntryNames(world, self, State(), x);
      ghost var before, b := State(), book;
      var from := objs[x].key;
      var o := FindByName(from, world.files[from].needed[k], dlopen);
      GrownPins(before, State(), o);
      if o == NULL {
        LoadedReflexive(before);
        BindsNothing(before, x, k);
        return false;
      }
      BindOnly(before, State(), x, k, o);
      BindEntry(world, self, before, State(), x, k, o);
      BookBind(world, self, State(), book, x, k, o);
      if o == self { book := book.(needers := book.needers + {x}); }
      objs := objs[x := objs[x].(needed := objs[x].needed[k := o])];
      ok := true;
    }

    /** The search in _rtld_load_by_name: a listed object with the name, else what the library search finds. */
    method FindByName(from: Key, name: Name, dlopen: bool) returns (o: Id)
      requires Ready(multiset{}) && from in world.files && name in world.files[from].needed
      modifies this`objlist, this`objs, this`next, this`pins, this`book
      ensures Ready(if o == NULL then multiset{} else multiset{o}) && Grown(old(State()), State(), o)
      ensures o == NULL ==> State() == old(State())
      ensures o != NULL <==> Bindable(world, old(State()), from, name, dlopen)
      ensures o != NULL ==>
                o in objs && BindsTo(world, old(State()), from, name, o, objs[o].key) &&
                Resolves(world, from, name, objs[o].key)
      ensures book == old(book).(handed := book.handed) &&
              (o == self ==> (from, name) in world.search && world.search[(from, name)] == world.linker)
    {
      hide Sound, Grown, BookOk, Refused;
      SoundBasics(world, self, State(), multiset{});
      ListedFiles(world, self, State());
      o := NULL;
      var i := 1;
      while i < |objlist| && name !in world.files[objs[objlist[i]].key].names
        invariant 1 <= i <= |objlist|
        invariant forall j :: 1 <= j < i ==> !Named(world, State(), name, j)
      {
        i := i + 1;
      }
      GrownReflexive(State());
      if i < |objlist| {
        o := objlist[i];
        assert Named(world, old(State()), name, i);
        Referenced(world, self, State(), o);
        BookReferenced(world, self, State(), book, o);
        objs := objs[o := objs[o].(refcount := objs[o].refcount + 1)];
      } else if (from, name) in world.search {
        o := LoadObject(world.search[(from, name)], dlopen, false);
      }
    }

    /** _rtld_ref_dag: pins root once for every path to an object; it terminates as nothing below root is on a cycle. */
    method RefDag(root: Id, ghost below: set<Id>, ghost rank: Id -> nat)
      requires Ready(multiset{}) && Layered(objs, below, rank) && root in below && root in objs && book.pinned
      modifies this`objs, this`pins
      ensures Ready(multiset{}) && Pinned(old(State()), State())
      ensures PinnedBy(old(State()), State(), rank, root) && root in pins && pins[root] > 0
      decreases rank(root), 1
    {
      hide Sound, Pinned, Layered, PinnedBy, PinnedVia, BookOk;
      PinRoot(world, self, State(), book, root);
      ghost var before := State();
      objs := objs[root := objs[root].(refcount := objs[root].refcount + 1)];
      pins := pins[root := pins[root] + 1];
      ghost var mid := State();
      LayeredPinned(before, mid, below, rank);
      RefNeeded(root, below, rank);
      PinnedTransitive(before, mid, State());
      PinnedByRoot(before, mid, State(), rank, root);
    }

    /** The loop of _rtld_ref_dag over the needed entries. */
    method RefNeeded(root: Id, ghost below: set<Id>, ghost rank: Id -> nat)
      requires Ready(multiset{}) && Layered(objs, below, rank) && root in below && root in objs && book.pinned
      modifies this`objs, this`pins
      ensures Ready(multiset{}) && Pinned(old(State()), State()) &&
              PinnedVia(old(State()), State(), rank, root, old(objs[root].needed))
      decreases rank(root), 0
    {
      hide Sound, Pinned, Layered, PinnedBy, PinnedVia, BookOk;
      PinnedReflexive(State());
      var needed := objs[root].needed;
      PinnedViaNone(State(), rank, root);
      assert needed[..0] == [];
      for k := 0 to |needed|
        invariant Ready(multiset{}) && Pinned(old(State()), State()) && root in objs && objs[root].needed == needed
        invariant PinnedVia(old(State()), State(), rank, root, needed[..k])
      {
        ghost var before := State();
        PinnedKeys(old(State()), before);
        if needed[k] != NULL {
          BoundKnown(world, self, State(), root, k);
          LayeredPinned(old(State()), before, below, rank);
          LayeredAt(objs, below, rank, root, needed[k]);
          RefDag(needed[k], below, rank);
          PinnedTransitive(old(State()), before, State());
          PinnedAt(before, State(), root);
        } else {
          SoundBasics(world, self, State(), multiset{});
        }
        PinnedViaNext(old(State()), before, State(), rank, root, needed, k);
      }
      assert needed[..|needed|] == needed;
    }

    /** A needed object that must never be unloaded pins everything it has bound so far. */
    method PinNodelete(o: Id) returns (ghost rank: Id -> nat)
      requires Ready(multiset{}) && o in objs && objs[o].zNodelete
      modifies this`objs, this`pins, this`book
      ensures Ready(multiset{}) && Loaded(old(State()), State()) && book == old(book).(pinned := true) &&
              (NoneStays(world) ==> old(book.pinned))
      ensures PinnedBy(old(State()), State(), rank, o) && o in objs && objs[o].refNodel
      ensures objs.Keys == old(objs.Keys) && forall y :: y in old(objs) ==> objs[y].needed == old(objs)[y].needed
    {
      hide Sound, Loaded, Pinned, PinnedBy, AcyclicBelow, BookOk;
      NodeleteBelow(world, self, State(), o);
      BookStays(world, self, State(), book, o);
      rank := Pin(o, objs[o].zNodelete);
    }

    /** _rtld_ref_dag on an object, which is then marked. */
    method Pin(o: Id, zNodelete: bool) returns (ghost rank: Id -> nat)
      requires Ready(multiset{}) && o in objs && AcyclicBelow(world, objs[o].key) && (objs[o].zNodelete ==> zNodelete)
      modifies this`objs, this`pins, this`book
      ensures Ready(multiset{}) && Loaded(old(State()), State()) && PinnedBy(old(State()), State(), rank, o) &&
              book == old(book).(pinned := true)
      ensures o in objs && objs[o].refNodel && objs[o].zNodelete == zNodelete
      ensures objs.Keys == old(objs.Keys) && forall y :: y in old(objs) ==> objs[y].needed == old(objs)[y].needed
    {
      hide Sound, Loaded, Pinned, PinnedBy, AcyclicBelow, Layered, BookOk;
      ghost var before := State();
      BookPins(world, self, State(), book);
      book := book.(pinned := true);
      ghost var below: set<Id>;
      below, rank := BelowObject(world, self, before, o);
      RefDag(o, below, rank);
      forall y | y in before.objs
        ensures y in objs && objs[y] == before.objs[y].(refcount := objs[y].refcount)
      {
        PinnedAt(before, State(), y);
      }
      PinnedLoaded(before, State());
      PinnedKeys(before, State());
      MarkNodel(world, self, State(), o, zNodelete);
      BookMark(world, self, State(), book, o, zNodelete);
      ghost var s' := State().(objs := objs[o := objs[o].(refNodel := true, zNodelete := zNodelete)]);
      LoadedTransitive(before, State(), s');
      PinnedBySame(before, State(), s', rank, o);
      objs := objs[o := objs[o].(refNodel := true, zNodelete := zNodelete)];
    }

    /** One round of that loop in _rtld_load_needed_objects: entry k of x is bound, and pinned if it must stay. */
    method LoadEntry(x: Id, k: nat, main: bool) returns (ok: bool, ghost mid: St, ghost rank: Id -> nat)
      requires Ready(multiset{}) && x in objlist && x in objs && k < |objs[x].needed|
      modifies this`objlist, this`objs, this`next, this`pins, this`book
      ensures Ready(multiset{}) && LoadsTo(world, main, old(State()), old(book), State(), book)
      ensures x in objlist && x in objs && |objs[x].needed| == |old(objs[x].needed)|
      ensures ok <==> old(objs[x].needed)[k] != NULL || EntryBindable(world, old(State()), x, k, !main)
      ensures old(objs[x].needed)[k] != NULL ==> ok && State() == old(State()) && book == old(book)
      ensures ok ==>
                objs[x].needed[k] != NULL && objs[x].needed[k] in objs &&
                forall j :: 0 <= j < |objs[x].needed| && j != k ==> objs[x].needed[j] == old(objs[x].needed)[j]
      ensures ok && !main && !objs[x].refNodel && old(objs[x].needed)[k] == NULL ==>
                (objs[objs[x].needed[k]].zNodelete ==> objs[objs[x].needed[k]].refNodel)
      ensures SamePins(old(State()), mid) && x in mid.objs && k < |mid.objs[x].needed|
      ensures if ok && old(objs[x].needed)[k] == NULL then PinsEntry(mid, State(), x, k, main, rank)
              else State() == old(State()) == mid
    {
      hide Sound, Loaded, PinnedBy, BindsTo, BookOk, SamePins, EntryBindable, OnlyBinds, AllNewPinned;
      LoadedReflexive(State());
      LoadsBookReflexive(world, book);
      SamePinsReflexive(State());
      ok, mid, rank := true, State(), _ => 0;
      if objs[x].needed[k] == NULL {
        ok := LoadByName(x, k, !main);
        LoadedAt(old(State()), State(), x);
        mid := State();
        if !ok {
          EntryNewPinned(old(State()), State(), x, k);
          return;
        }
        var nobj := objs[x].needed[k];
        if !main && objs[nobj].zNodelete && !objs[x].refNodel {
          rank := PinNodelete(nobj);
          LoadedAt(mid, State(), x);
          LoadedTransitive(old(State()), mid, State());
          OnlyBindsStays(old(State()), mid, State(), x, k);
        }
        if !main { EntryNewPinned(old(State()), State(), x, k); }
      } else {
        BoundKnown(world, self, State(), x, k);
        BindsNothing(State(), x, k);
        EntryNewPinned(State(), State(), x, k);
      }
    }

    /** The loop of _rtld_load_needed_objects over the entries of one object x. */
    method LoadNeeded(x: Id, main: bool) returns (ok: bool)
      requires Ready(multiset{}) && x in objlist
      modifies this`objlist, this`objs, this`next, this`pins, this`book
      ensures Ready(multiset{}) && LoadsTo(world, main, old(State()), old(book), State(), book)
      ensures x in objs && (ok ==> AllBound(objs[x])) && (Suffices(world, main) ==> ok)
      ensures x in old(objs) && (AllBound(old(objs)[x]) ==> ok && State() == old(State()) && book == old(book))
      ensures ok && !main && !objs[x].refNodel ==> NewPinned(old(objs)[x], objs[x], objs, |objs[x].needed|)
    {
      hide Sound, Loaded, Suffices, NewPinned, BookOk, LoadsTo, PinnedBy, PinsEntry, SamePins, WellFormed,
           EntryBindable;
      EntryNames(world, self, State(), x);
      ok := true;
      var n := |objs[x].needed|;
      ghost var s0, b0 := State(), book;
      ghost var bound := AllBound(s0.objs[x]);
      LoadsToReflexive(world, main, s0, b0);
      NonePinned(s0.objs[x], objs);
      for k := 0 to n
        invariant Ready(multiset{}) && LoadsTo(world, main, s0, b0, State(), book)
        invariant x in objlist && x in objs && |objs[x].needed| == n
        invariant forall j :: 0 <= j < k ==> objs[x].needed[j] != NULL
        invariant forall j :: k <= j < n ==> objs[x].needed[j] == s0.objs[x].needed[j]
        invariant ok && (!main && !objs[x].refNodel ==> NewPinned(s0.objs[x], objs[x], objs, k))
        invariant bound ==> State() == s0 && book == b0
      {
        ghost var before, b := State(), book;
        NeededListed(world, self, before, x);
        SufficesEntry(world, self, before, x, k, main);
        ghost var mid, rank;
        ok, mid, rank := LoadEntry(x, k, main);
        LoadsToTransitive(world, self, main, s0, b0, before, b, State(), book);
        if !ok { return; }
        LoadsToLoaded(world, main, before, b, State(), book);
        LoadedFlags(before, State(), x);
        if !main && !objs[x].refNodel { PinnedNext(s0.objs[x], before, State(), x, k); }
      }
    }

    /** One listed object, unless it is being unloaded. */
    method LoadForListed(x: Id, main: bool) returns (ok: bool)
      requires Ready(multiset{}) && x in objlist && x in objs
      modifies this`objlist, this`objs, this`next, this`pins, this`book
      ensures Ready(multiset{}) && LoadsTo(world, main, old(State()), old(book), State(), book)
      ensures x in objs && (ok ==> AllBound(objs[x])) && (Suffices(world, main) ==> ok)
      ensures old(objlist) <= objlist && |objlist| <= |world.files| + 1
      ensures AllBound(old(objs)[x]) ==> ok && State() == old(State()) && book == old(book)
    {
      hide Sound, Loaded, Suffices, NewPinned, AllBound, BookOk, LoadsTo, WellFormed, NoDuplicates;
      SoundBasics(world, self, State(), multiset{});
      ghost var before, b := State(), book;
      ok := true;
      if objs[x].refcount != 0 {
        ok := LoadNeeded(x, main);
        LoadsToLoaded(world, main, before, b, State(), book);
        LoadedPrefix(before, State());
        KeysBounded(world, self, State());
      }
    }

    /** _rtld_load_needed_objects: loads what first and every object behind it on the list need. */
    method LoadNeededObjects(first: Id, main: bool) returns (ok: bool)
      requires Ready(multiset{}) && first in objs
      modifies this`objlist, this`objs, this`next, this`pins, this`book
      ensures Ready(multiset{}) && LoadsTo(world, main, old(State()), old(book), State(), book) &&
              (Suffices(world, main) ==> ok)
      ensures ok ==> forall i :: 0 <= i < |objlist| && objlist[i] == first ==> BoundBetween(State(), i, |objlist|)
      ensures BoundBetween(old(State()), 0, |old(objlist)|) ==> ok && State() == old(State()) && book == old(book)
    {
      hide Sound, LoadsTo, Suffices, BoundBetween, AllBound, BookOk, WellFormed;
      LoadsToReflexive(world, main, State(), book);
      SoundBasics(world, self, State(), multiset{});
      ok := true;
      if first !in objlist { return; }
      var i := PlaceOf(first);
      ghost var at, bound := i, BoundBetween(State(), 0, |objlist|);
      NothingBetween(State(), i);
      KeysBounded(world, self, State());
      while i < |objlist| && ok
        invariant at <= i <= |objlist| <= |world.files| + 1 && at < |objlist| && objlist[at] == first
        invariant Ready(multiset{}) && LoadsTo(world, main, old(State()), old(book), State(), book) &&
                  (Suffices(world, main) ==> ok)
        invariant ok ==> BoundBetween(State(), at, i)
        invariant bound ==> ok && State() == old(State()) && book == old(book)
        decreases ok, |world.files| + 1 - |objlist|, |objlist| - i
      {
        var x := objlist[i];
        SoundBasics(world, self, State(), multiset{});
        ghost var before, b := State(), book;
        if bound { BoundAt(before, i); }
        ok := LoadForListed(x, main);
        LoadsToTransitive(world, self, main, old(State()), old(book), before, b, State(), book);
        LoadsToLoaded(world, main, before, b, State(), book);
        if ok { BoundNext(before, State(), at, i); }
        i := i + 1;
      }
      SoundBasics(world, self, State(), multiset{});
    }

    /** Where the object is on the list. */
    method PlaceOf(first: Id) returns (i: nat)
      requires first in objlist
      ensures i < |objlist| && objlist[i] == first
    {
      i := 0;
      while objlist[i] != first
        invariant 0 <= i < |objlist| && first in objlist[i..]
        decreases |objlist| - i
      {
        i := i + 1;
      }
    }

    /** _rtld_unref_dag: drops one of the pending references; what keeps itself in use stays so. */
    method UnrefDag(root: Id, ghost pending: multiset<Id>, ghost keep: set<Id>)
      requires Valid(pending) && root in objs && pending[root] > 0 && Sustained(objlist, objs, keep)
      modifies this`objs, this`book
      ensures Valid(pending - multiset{root}) && OnlyCounts(old(objs), objs) && Sustained(objlist, objs, keep)
      ensures forall o :: o in objlist ==> objs[o].refcount <= old(objs)[o].refcount
      ensures self in pins && DropsBook(old(book), book, pins[self])
      ensures objs[root].refcount != 0 || root == self ==>
                objs == old(objs)[root := old(objs)[root].(refcount := old(objs)[root].refcount - 1)]
      decreases Total(objlist, objs), 1
    {
      hide Shape, Balanced, OnlyCounts, Total, Accounted, Sustained;
      PendingIsCounted(world, objlist, self, objs, pins, pending, root);
      DropsAccounted(world, self, State(), book, pending, root);
      ghost var before := objs;
      if objs[root].refcount <= 0 { book := book.(zeroMet := true); }
      var ob := objs[root].(refcount := objs[root].refcount - 1);
      objs := objs[root := ob];
      if root == self { book := book.(drops := book.drops + 1); }
      Decremented(world, objlist, self, before, pins, pending, root);
      SustainedDrop(objlist, before, pins, pending, keep, root);
      if ob.refcount == 0 {
        UnrefNeeded(ob.needed, pending - multiset{root}, keep);
        OnlyCountsTransitive(before, before[root := ob], objs);
        CountsNotNegative(objlist, objs, pins, pending - multiset{root});
      }
    }

    /** The loop of _rtld_unref_dag over the needed entries. */
    method UnrefNeeded(needed: seq<Id>, ghost pending: multiset<Id>, ghost keep: set<Id>)
      requires Valid(pending + multiset(needed)) && Sustained(objlist, objs, keep)
      requires forall n :: n in needed && n != NULL ==> n in objs
      modifies this`objs, this`book
      ensures Valid(pending) && OnlyCounts(old(objs), objs) && Sustained(objlist, objs, keep)
      ensures forall o :: o in objlist ==> objs[o].refcount <= old(objs)[o].refcount
      ensures self in pins && DropsBook(old(book), book, pins[self])
      ensures needed == [] ==> objs == old(objs)
      decreases Total(objlist, objs), if needed == [] then 0 else 2
    {
      hide Shape, Balanced, OnlyCounts, Total, Accounted, Sustained;
      ShapeBasics(world, objlist, self, objs);
      SelfPinned(self, objlist, objs, pins, book, pending + multiset(needed));
      assert needed[0..] == needed;
      for k := 0 to |needed|
        invariant Valid(pending + multiset(needed[k..])) && OnlyCounts(old(objs), objs) &&
                  objs.Keys == old(objs.Keys) && self in objs
        invariant forall o :: o in objlist ==> o in objs && objs[o].refcount <= old(objs)[o].refcount
        invariant DropsBook(old(book), book, pins[self]) && Sustained(objlist, objs, keep)
        invariant k == 0 ==> objs == old(objs)
      {
        assert needed[k..] == [needed[k]] + needed[k + 1..];
        if needed[k] == NULL {
          DropNull(world, objlist, self, objs, pins, pending + multiset(needed[k..]),
                   pending + multiset(needed[k + 1..]));
          NullAccounted(self, objlist, objs, pins, book, pending + multiset(needed[k..]),
                        pending + multiset(needed[k + 1..]));
        } else {
          ghost var before := objs;
          TotalMonotone(objlist, old(objs), objs);
          assert pending + multiset(needed[k..]) - multiset{needed[k]} == pending + multiset(needed[k + 1..]);
          UnrefDag(needed[k], pending + multiset(needed[k..]), keep);
          OnlyCountsTransitive(old(objs), before, objs);
        }
      }
      assert pending + multiset(needed[|needed|..]) == pending;
    }

    /**
     _rtld_unload_object without the destructors: drops the caller's reference and frees what is
     unused.  What stays, whether a zero count is met and whether an assertion on the root fails
     is told from the state before.
     */
    method UnloadObject(root: Id)
      requires Ready(multiset{root}) && root in objs && (root == self ==> Used(book))
      modifies this`objs, this`objlist, this`book, this`broken
      ensures Ready(multiset{}) && Unloaded(old(State()), State()) && MainKept(old(State()), State())
      ensures GivesUpBook(self, old(State()), root, old(book), book)
      ensures broken <==> old(broken) || UnloadBreaks(self, old(State()), root)
      ensures forall o :: o in old(objlist) ==> (o in objlist <==> Anchored(old(State()), o))
      ensures root in objlist ==> objlist == old(objlist)
      ensures forall o :: o in objlist ==> Anchored(State(), o)
    {
      hide Sound, Balanced, Shape, Tidy, AllLive, OnlyCounts, Unloaded, Keep, SweptObjs, Swept, Anchored, Accounted,
           Recorded, Sustained, CycleSet, GivesUpBook, UnloadBreaks;
      ghost var before, b := State(), book;
      SoundParts(world, self, before, multiset{root});
      CyclesSustained(before);
      UnrefDag(root, multiset{root}, CycleSet(before));
      assert multiset{root} - multiset{root} == multiset{};
      ghost var mid := State();
      OnlyCountsAt(before.objs, objs, root);
      Dropped(world, self, before, mid, b, book, root);
      if objs[root].refcount == 0 {
        broken := broken || !Finished(objs[root]);
        Sweep();
        DroppedSwept(world, self, before, mid, b, book, root);
      } else {
        DroppedOne(world, self, before, mid, b, book, root);
      }
      AllAnchored(world, self, State());
    }

    /** The loop of _rtld_unload_object that frees every unreferenced object behind the main program. */
    method Sweep()
      requires Valid(multiset{}) && Tidy(objlist, objs, pins, next)
      modifies this`objs, this`objlist
      ensures State() == Swept(old(State()))
    {
      hide Shape, Balanced, Tidy, Keep, SweptObjs;
      ghost var s := State();
      HeadLive(world, self, s);
      SweepStart(s);
      var i := 1;
      ghost var j := 1;
      while i < |objlist|
        invariant 1 <= i <= |objlist| && 1 <= j <= |s.list| && |objlist| - i == |s.list| - j
        invariant objlist == Keep(s.list[..j], s.objs) + s.list[j..] && i == |Keep(s.list[..j], s.objs)|
        invariant objs == SweptObjs(s, j)
        decreases |objlist| - i
      {
        SweepStep(s, j);
        SweepList(s, j, objlist, i);
        var o := objlist[i];
        if objs[o].refcount == 0 {
          objlist := objlist[..i] + objlist[i + 1..];
          objs := objs - {o};
        } else {
          i := i + 1;
        }
        j := j + 1;
      }
      SweepEnd(s);
    }

    /** dlclose: -1 for something that is not an open handle, otherwise the handle is given up. */
    method Dlclose(handle: Id) returns (status: int)
      requires Ready(multiset{})
      modifies this`objs, this`objlist, this`book, this`broken
      ensures Ready(multiset{}) && MainKept(old(State()), State())
      ensures status == if handle in old(objlist) && old(objs)[handle].dlRefcount > 0 then 0 else -1
      ensures status == -1 ==> unchanged(this)
      ensures status == 0 ==>
                GaveUp(old(State()), handle, State()) &&
                GivesUpBook(self, Released(old(State()), handle), handle, old(book), book)
      ensures status == 0 ==> forall o :: o in objlist ==> Anchored(State(), o)
      ensures status == 0 ==> (broken <==> old(broken) || UnloadBreaks(self, Released(old(State()), handle), handle))
      ensures HandlesPinned(old(State())) ==> HandlesPinned(State()) && broken == old(broken)
    {
      hide Sound, Unloaded, Anchored, BookOk, GivesUpBook, UnloadBreaks, HandlesPinned;
      SoundBasics(world, self, State(), multiset{});
      MainStays(world, self, State());
      if handle !in objlist || objs[handle].dlRefcount == 0 { return -1; }
      ghost var s := State();
      ReleaseHandle(world, self, s, handle);
      BookRelease(world, self, s, book, handle);
      objs := objs[handle := objs[handle].(dlRefcount := objs[handle].dlRefcount - 1)];
      UnloadObject(handle);
      status := 0;
      if HandlesPinned(s) {
        PinnedByRelease(s, handle, State());
        NodeleteStays(world, self, s, handle);
      }
    }

    /** The object that a dlopen is about, with a reference owed to the call. */
    method FindToOpen(name: Name, isMain: bool, noload: bool) returns (handle: Id)
      requires Ready(multiset{})
      modifies this`objs, this`objlist, this`next, this`pins, this`book
      ensures Ready(if handle == NULL then multiset{} else multiset{handle}) && Grown(old(State()), State(), handle)
      ensures handle != NULL ==> handle in objs && Opened(world, old(State()), State(), handle, name, isMain)
      ensures handle != NULL <==> Openable(world, old(State()), name, isMain, noload)
      ensures (handle == self <==> OpensLinker(world, old(State()), name, isMain)) &&
              book == old(book).(handed := book.handed)
    {
      hide Sound, Grown, Refused, BookOk;
      SoundBasics(world, self, State(), multiset{});
      handle := NULL;
      GrownReflexive(State());
      if isMain {
        handle := objlist[0];
        Referenced(world, self, State(), handle);
        BookReferenced(world, self, State(), book, handle);
        objs := objs[handle := objs[handle].(refcount := objs[handle].refcount + 1)];
      } else if (objs[objlist[0]].key, name) in world.search {
        handle := LoadObject(world.search[(objs[objlist[0]].key, name)], true, noload);
      }
    }

    /** The first part of dlopen: find or load the object and open a handle on it. */
    method OpenHandle(name: Name, isMain: bool, noload: bool) returns (handle: Id)
      requires Ready(multiset{})
      modifies this`objs, this`objlist, this`next, this`pins, this`book
      ensures Ready(multiset{}) && Handles(old(State()), State(), handle) && MainKept(old(State()), State()) &&
              Keeps(old(State()), State())
      ensures handle != NULL ==>
                handle in objs && objs[handle].dlRefcount > 0 &&
                Opened(world, old(State()), State(), handle, name, isMain)
      ensures handle != NULL <==> Openable(world, old(State()), name, isMain, noload)
      ensures handle == self <==> OpensLinker(world, old(State()), name, isMain)
      ensures HandleBook(old(book), book, OpensLinker(world, old(State()), name, isMain))
    {
      hide Sound, Grown, Refused, BookOk, Openable, OpensLinker, Handles, Opened, Keeps, MainKept;
      ghost var s0 := State();
      SoundBasics(world, self, s0, multiset{});
      handle := FindToOpen(name, isMain, noload);
      if handle == NULL {
        SoundBasics(world, self, State(), multiset{});
        NotTaken(s0, State());
      } else {
        HandlesTaken(s0, State(), handle);
        OpenedTaken(world, s0, State(), handle, name, isMain);
        KeepsTaken(s0, State(), handle);
        TakeHandle(world, self, State(), handle);
        BookHandle(world, self, State(), book, handle);
        if handle == self { book := book.(opens := book.opens + 1); }
        objs := objs[handle := objs[handle].(dlRefcount := objs[handle].dlRefcount + 1)];
      }
    }

    /** The failure path of dlopen: give the handle up again. */
    method AbandonHandle(handle: Id)
      requires Ready(multiset{}) && handle in objs && objs[handle].dlRefcount > 0
      modifies this`objs, this`objlist, this`book, this`broken
      ensures Ready(multiset{}) && GaveUp(old(State()), handle, State()) && MainKept(old(State()), State())
      ensures GivesUpBook(self, Released(old(State()), handle), handle, old(book), book)
      ensures broken <==> old(broken) || UnloadBreaks(self, Released(old(State()), handle), handle)
    {
      hide Sound, Unloaded, BookOk, Anchored, GivesUpBook, UnloadBreaks;
      ReleaseHandle(world, self, State(), handle);
      BookRelease(world, self, State(), book, handle);
      objs := objs[handle := objs[handle].(dlRefcount := objs[handle].dlRefcount - 1)];
      UnloadObject(handle);
    }

    /**
     dlopen.  The result of the version checks and relocations, and whether any object still
     awaits relocation, are inputs: the counts come out right whatever they are.
     */
    method Dlopen(name: Name, isMain: bool, noload: bool, nodelete: bool, relocPending: bool, relocated: bool)
      returns (handle: Id, ghost up: GiveUp)
      requires Ready(multiset{}) && (nodelete ==> MayPin(world, State(), name, isMain))
      modifies this`objs, this`objlist, this`next, this`pins, this`book, this`broken
      ensures Ready(multiset{}) && MainKept(old(State()), State())
      ensures OpenStep(world, old(State()), State(), Open(name, isMain, noload, nodelete, relocPending, relocated), up,
                       handle)
      ensures handle != NULL ==> handle in objs && objs[handle].dlRefcount > 0 && (relocPending ==> relocated)
      ensures handle != NULL && relocPending ==>
                forall i :: 0 <= i < |objlist| && objlist[i] == handle ==> BoundBetween(State(), i, |objlist|)
      ensures handle != NULL && (nodelete || objs[handle].zNodelete) ==> objs[handle].refNodel
      ensures OpensBook(world, old(book), book, handle, OpensLinker(world, old(State()), name, isMain), nodelete)
      ensures book.zeroMet <==> old(book.zeroMet) || UpMeetsZero(self, up)
      ensures broken <==> old(broken) || UpBreaks(self, up)
    {
      hide Sound, Loaded, Handles, AcyclicBelow, Complete, Openable, BoundBetween, MayPin, BookOk, LoadsBook,
           OpensLinker, Opened, OpensBook, GaveUp, UpMeetsZero, UpBreaks, OpenStep, MainKept,
           WellFormed, HandleBook, PinsBook, Keeps;
      ghost var call := Open(name, isMain, noload, nodelete, relocPending, relocated);
      ghost var s0, b0 := State(), book;
      SoundBasics(world, self, s0, multiset{});
      NothingGivenUp(self);
      up := NoGiveUp;
      handle := OpenHandle(name, isMain, noload);
      if handle == NULL {
        NotOpenedBook(world, b0, book, OpensLinker(world, s0, name, isMain), nodelete);
        NotOpenedStep(world, s0, State(), call);
        return;
      }
      ghost var s1, b1 := State(), book;
      var ok;
      ok, up := LoadForHandle(handle, relocPending, relocated, s0);
      if !ok {
        AbandonsBook(world, b0, b1, book, OpensLinker(world, s0, name, isMain), nodelete);
        OpenedLoaded(world, s0, s1, up.s, handle, name, isMain);
        AbandonedStep(world, s0, State(), call, up);
        handle := NULL;
        return;
      }
      ghost var b2 := book;
      OpenedLoaded(world, s0, s1, State(), handle, name, isMain);
      KeepsLoaded(s0, s1, State());
      ghost var rank := PinIfAsked(handle, nodelete, s0, name, isMain);
      KeepsBook(world, b0, b1, b2, book, OpensLinker(world, s0, name, isMain), nodelete);
      OpenedStep(world, s0, State(), call, handle);
    }

    /** The end of dlopen: an object that must stay is pinned, once. */
    method PinIfAsked(handle: Id, nodelete: bool, ghost s0: St, ghost name: Name, ghost isMain: bool)
      returns (ghost rank: Id -> nat)
      requires Ready(multiset{}) && handle in objs && objs[handle].dlRefcount > 0
      requires Handles(s0, State(), handle) && MainKept(s0, State()) && Keeps(s0, State()) &&
               Opened(world, s0, State(), handle, name, isMain)
      requires nodelete ==> MayPin(world, s0, name, isMain)
      modifies this`objs, this`pins, this`book
      ensures Ready(multiset{}) && handle in objs && objs[handle].dlRefcount > 0
      ensures Handles(s0, State(), handle) && MainKept(s0, State()) && Keeps(s0, State()) &&
              Opened(world, s0, State(), handle, name, isMain)
      ensures nodelete || objs[handle].zNodelete ==> objs[handle].refNodel
      ensures forall i :: BoundBetween(old(State()), i, |objlist|) ==> BoundBetween(State(), i, |objlist|)
      ensures PinsBook(world, old(book), book, nodelete)
      ensures if (nodelete || old(objs)[handle].zNodelete) && !old(objs)[handle].refNodel
              then PinnedBy(old(State()), State(), rank, handle)
              else State() == old(State())
    {
      hide Sound, Loaded, Handles, AcyclicBelow, BoundBetween, MayPin, BookOk, Opened, PinnedBy, Keeps;
      ghost var s := State();
      rank := _ => 0;
      if (nodelete || objs[handle].zNodelete) && !objs[handle].refNodel {
        PinAllowed(world, self, s0, s, book, handle, name, isMain, nodelete);
        rank := PinHandle(handle);
        BoundKept(s, State());
        LoadedAt(s, State(), handle);
        LoadedMain(s0, s, State());
        OpenedLoaded(world, s0, s, State(), handle, name, isMain);
        HandlesLoaded(s0, s, State(), handle);
        KeepsLoaded(s0, s, State());
      }
    }

    /**
     dlopen when something awaits relocation: load what is needed, relocate, and give the handle
     up if either fails.
     */
    method LoadForHandle(handle: Id, relocPending: bool, relocated: bool, ghost s0: St)
      returns (ok: bool, ghost up: GiveUp)
      requires Ready(multiset{}) && handle in objs && objs[handle].dlRefcount > 0 && handle != NULL &&
               Handles(s0, State(), handle) && MainKept(s0, State())
      modifies this`objs, this`objlist, this`next, this`pins, this`book, this`broken
      ensures Ready(multiset{}) && Handles(s0, State(), if ok then handle else NULL) && MainKept(s0, State())
      ensures ok ==>
                handle in objs && objs[handle].dlRefcount > 0 && Loaded(old(State()), State()) &&
                LoadsBook(world, old(book), book)
      ensures ok ==> AllNewPinned(old(State()), State())
      ensures ok && relocPending ==>
                relocated &&
                forall i :: 0 <= i < |objlist| && objlist[i] == handle ==> BoundBetween(State(), i, |objlist|)
      ensures !ok ==> LoadsBook(world, old(book), book.(drops := old(book.drops), zeroMet := old(book.zeroMet)))
      ensures !relocPending || (relocated && Complete(world)) ==> ok
      ensures if ok then up == NoGiveUp else LoadsAndGivesUp(s0, old(State()), up, handle, State())
      ensures !ok && BoundBetween(old(State()), 0, |old(objlist)|) ==> up == GivenUp(old(State()), handle)
      ensures book.zeroMet <==> old(book.zeroMet) || UpMeetsZero(self, up)
      ensures broken <==> old(broken) || UpBreaks(self, up)
    {
      hide Sound, Loaded, Handles, Complete, BoundBetween, BookOk, GaveUp, GivesUpBook, MeetsZero, UnloadBreaks,
           UpMeetsZero, UpBreaks, LoadsBook, MainKept, AllNewPinned, LoadsTo;
      ok, up := true, NoGiveUp;
      NothingGivenUp(self);
      ghost var s1, b1 := State(), book;
      LoadedReflexive(s1);
      LoadsBookReflexive(world, b1);
      LoadsToReflexive(world, false, s1, b1);
      LoadsToLoaded(world, false, s1, b1, s1, b1);
      if !relocPending { return; }
      ok := LoadNeededObjects(handle, false);
      LoadsToLoaded(world, false, s1, b1, State(), book);
      LoadedAt(s1, State(), handle);
      LoadedMain(s0, s1, State());
      HandlesLoaded(s0, s1, State(), handle);
      LoadsZero(world, b1, book);
      if !ok || !relocated {
        ghost var before, b := State(), book;
        up := GivenUp(before, handle);
        AbandonHandle(handle);
        AbandonedBook(world, self, before, handle, b1, b, book);
        SoundBasics(world, self, State(), multiset{});
        HandlesAbandoned(s0, before, State(), handle);
        MainKeptTransitive(s0, before, State());
        ok := false;
      }
    }

    /** The end of dlopen for an object that must stay: pin it and everything below it. */
    method PinHandle(o: Id) returns (ghost rank: Id -> nat)
      requires Ready(multiset{}) && o in objs && AcyclicBelow(world, objs[o].key)
      modifies this`objs, this`pins, this`book
      ensures Ready(multiset{}) && Loaded(old(State()), State()) && book == old(book).(pinned := true)
      ensures PinnedBy(old(State()), State(), rank, o) && o in objs && objs[o].refNodel && objs[o].zNodelete
    {
      rank := Pin(o, true);
    }

    /**
     Any sequence of complete calls conserves the references.  The linker's own entry is the
     exception: its count is conserved if and only if no call opens it and no object was loaded
     with a needed entry bound to it; and a zero count is met if and only if some call gives up a
     handle that costs the linker more references than it counts.
     */
    method RunCalls(calls: seq<Call>) returns (ghost trace: seq<St>, ghost ups: seq<GiveUp>)
      requires Ready(multiset{})
      requires forall i ::
                 0 <= i < |calls| && calls[i].Open? && calls[i].nodelete ==>
                   MayPin(world, State(), calls[i].name, calls[i].isMain)
      modifies this`objs, this`objlist, this`next, this`pins, this`book, this`broken
      ensures Ready(multiset{})
      ensures forall o ::
                o in objlist ==>
                  o in objs && o in pins && objs[o].refcount > 0 && Counted(objlist, objs, pins, multiset{}, o)
      ensures self in objs && self in pins &&
              (Counted(objlist, objs, pins, multiset{}, self) <==> book.opens == 0 && book.needers == {})
      ensures book.opens == 0 <==>
                old(book.opens) == 0 &&
                forall i :: 0 <= i < |calls| ==> !CallOpensLinker(world, old(State()), calls[i])
      ensures old(book.needers) <= book.needers && (NoneNeedsLinker(world) ==> book.needers == old(book.needers))
      ensures Trace(world, old(State()), trace, calls, ups) && trace[|calls|] == State()
      ensures book.zeroMet <==> old(book.zeroMet) || SomeMeetsZero(self, ups)
      ensures book.opens == 0 && book.needers == {} ==> !book.zeroMet
      ensures broken <==> old(broken) || SomeBreaks(self, ups)
      ensures HandlesPinned(old(State())) ==>
                HandlesPinned(State()) && forall i :: 0 <= i < |ups| && calls[i].Close? ==> !UpBreaks(self, ups[i])
    {
      hide Sound, BookOk, MayPin, CallStep, OpensLinker, UpMeetsZero, UpBreaks, HandlesPinned, SomeMeetsZero,
           SomeBreaks;
      ghost var s0 := State();
      MainStays(world, self, s0);
      trace, ups := [s0], [];
      NothingGivenUp(self);
      for i := 0 to |calls|
        invariant Ready(multiset{}) && MainKept(s0, State())
        invariant book.opens == 0 <==>
                    old(book.opens) == 0 && forall j :: 0 <= j < i ==> !CallOpensLinker(world, s0, calls[j])
        invariant old(book.needers) <= book.needers && (NoneNeedsLinker(world) ==> book.needers == old(book.needers))
        invariant Trace(world, s0, trace, calls[..i], ups) && trace[i] == State()
        invariant book.zeroMet <==> old(book.zeroMet) || SomeMeetsZero(self, ups)
        invariant broken <==> old(broken) || SomeBreaks(self, ups)
        invariant HandlesPinned(s0) ==>
                    HandlesPinned(State()) && forall j :: 0 <= j < i && calls[j].Close? ==> !UpBreaks(self, ups[j])
      {
        ghost var s, b := State(), book;
        ghost var up := OneCall(calls[i], s0);
        MainKeptTransitive(s0, s, State());
        TraceNext(world, s0, trace, calls, i, ups, State(), up);
        SomeNext(self, ups, up);
        trace, ups := trace + [State()], ups + [up];
      }
      assert calls[..|calls|] == calls;
      Conserved(world, self, State());
      LinkerEntryConserved(world, self, State(), book);
      if book.opens == 0 && book.needers == {} { UnusedNeverZero(world, self, State(), book); }
    }

    /** One complete call. */
    method OneCall(call: Call, ghost s0: St) returns (ghost up: GiveUp)
      requires Ready(multiset{}) && MainKept(s0, State())
      requires call.Open? && call.nodelete ==> MayPin(world, s0, call.name, call.isMain)
      modifies this`objs, this`objlist, this`next, this`pins, this`book, this`broken
      ensures Ready(multiset{}) && MainKept(old(State()), State()) && CallStep(world, old(State()), State(), call, up)
      ensures book.opens == old(book.opens) + if CallOpensLinker(world, s0, call) then 1 else 0
      ensures old(book.needers) <= book.needers && (NoneNeedsLinker(world) ==> book.needers == old(book.needers))
      ensures book.zeroMet <==> old(book.zeroMet) || UpMeetsZero(self, up)
      ensures broken <==> old(broken) || UpBreaks(self, up)
      ensures HandlesPinned(old(State())) ==> HandlesPinned(State()) && (call.Close? ==> !UpBreaks(self, up))
    {
      hide Sound, BookOk, Handles, MayPin, OpensLinker, OpenStep, Anchored, Unloaded, HandlesPinned, Openable, Opened,
           BoundBetween, UnloadBreaks, MeetsZero;
      ghost var s := State();
      match call {
        case Open(name, isMain, noload, nodelete, relocPending, relocated) =>
          SameMain(world, s0, s, name, isMain);
          var handle;
          handle, up := Dlopen(name, isMain, noload, nodelete, relocPending, relocated);
          SoundBasics(world, self, State(), multiset{});
          if HandlesPinned(s) { PinnedByOpen(world, s, State(), call, up, handle); }
        case Close(handle) =>
          SoundBasics(world, self, s, multiset{});
          var status := Dlclose(handle);
          up := if status == 0 then GivenUp(s, handle) else NoGiveUp;
          if HandlesPinned(s) && status == 0 { NodeleteStays(world, self, s, handle); }
      }
    }
  }
}

/**
 Reference counting of shared objects: the law that open handles, pins and needed entries add up
 to the counts, what it says about which objects stay loaded, and why each step of loading,
 pinning and unloading keeps it.  The steps themselves are in DlCalls; calls are complete calls
 by one thread.
 */
module RefCounts {

  type Id = nat                       // an Obj_Entry pointer; 0 is NULL
  const NULL: Id := 0
  type Name = string
  type Key = nat                      // a file, identified by device and inode

  /** What a shared object file says about itself. */
  datatype File = File(names: set<Name>, needed: seq<Name>, nodelete: bool, noopen: bool)

  /** The files, what the search for a name on behalf of a file finds, and which of them is the linker itself. */
  datatype World = World(files: map<Key, File>, search: map<(Key, Name), Key>, linker: Key)

  ghost predicate WellFormed(w: World) {
    && w.linker in w.files && w.files[w.linker].needed == []
    && (forall q :: q in w.search ==> w.search[q] in w.files)
    && (forall k :: k in w.files && w.files[k].nodelete ==> AcyclicBelow(w, k))
  }

  /** A needed entry `name` of file `from` may end up bound to the file k. */
  predicate Resolves(w: World, from: Key, name: Name, k: Key) {
    k in w.files && (name in w.files[k].names || ((from, name) in w.search && w.search[(from, name)] == k))
  }

  /** These files need only each other, and none of them itself, directly or indirectly. */
  ghost predicate Layers(w: World, keys: set<Key>, rank: Key -> nat) {
    forall k, name, k' ::
      k in keys && k in w.files && name in w.files[k].needed && Resolves(w, k, name, k') ==>
        k' in keys && rank(k') < rank(k)
  }

  /** What is below file k has no cycles; elsewhere there may be some. */
  ghost predicate AcyclicBelow(w: World, k: Key) {
    exists keys: set<Key>, rank: Key -> nat :: k in keys && Layers(w, keys, rank)
  }

  datatype Obj = Obj(key: Key, refcount: int, dlRefcount: nat, needed: seq<Id>, zNodelete: bool, refNodel: bool)
  type Objs = map<Id, Obj>

  // ---- counting ---------------------------------------------------------------------------

  /** The references that ob holds on o: its needed entries, as long as its own count is not zero. */
  function RefsBy(ob: Obj, o: Id): nat { if ob.refcount != 0 then multiset(ob.needed)[o] else 0 }

  /** All needed entries naming o in listed objects whose count is not zero. */
  function LiveRefs(list: seq<Id>, objs: Objs, o: Id): nat {
    if list == [] then 0
    else
      var x := list[|list| - 1];
      LiveRefs(list[..|list| - 1], objs, o) + if x in objs then RefsBy(objs[x], o) else 0
  }

  /** The law: count = open handles + permanent pins + live needed entries (+ references still to be dropped). */
  ghost predicate Counted(list: seq<Id>, objs: Objs, pins: map<Id, nat>, pending: multiset<Id>, o: Id)
    requires o in objs && o in pins
  {
    objs[o].refcount == objs[o].dlRefcount + pins[o] + LiveRefs(list, objs, o) + pending[o]
  }

  ghost predicate Balanced(list: seq<Id>, objs: Objs, pins: map<Id, nat>, pending: multiset<Id>) {
    && (forall o :: o in list ==> o in objs && o in pins)
    && (forall o :: o in list ==> Counted(list, objs, pins, pending, o))
  }

  ghost predicate NoDuplicates(s: seq<Id>) { forall i, j :: 0 <= i < j < |s| ==> s[i] != s[j] }

  lemma {:induction false} LiveRefsUpdate(list: seq<Id>, objs: Objs, x: Id, ob: Obj, o: Id)
    requires NoDuplicates(list) && x in objs
    ensures LiveRefs(list, objs[x := ob], o) ==
            LiveRefs(list, objs, o) + if x in list then RefsBy(ob, o) - RefsBy(objs[x], o) else 0
  {
    if list != [] {
      var front := list[..|list| - 1];
      LiveRefsUpdate(front, objs, x, ob, o);
      assert list == front + [list[|list| - 1]];
    }
  }

  lemma {:induction false} LiveRefsAtLeast(list: seq<Id>, objs: Objs, x: Id, o: Id)
    requires x in list && x in objs
    ensures LiveRefs(list, objs, o) >= RefsBy(objs[x], o)
  {
    var front := list[..|list| - 1];
    assert list == front + [list[|list| - 1]];
    if list[|list| - 1] != x { LiveRefsAtLeast(front, objs, x, o); }
  }

  lemma {:induction false} LiveRefsWitness(list: seq<Id>, objs: Objs, o: Id) returns (x: Id)
    requires LiveRefs(list, objs, o) > 0
    ensures x in list && x in objs && objs[x].refcount != 0 && o in objs[x].needed
  {
    x := list[|list| - 1];
    var front := list[..|list| - 1];
    if !(x in objs && RefsBy(objs[x], o) > 0) { x := LiveRefsWitness(front, objs, o); }
  }

  /** Changing one object without changing the references it holds leaves the others counted. */
  lemma CountChange(list: seq<Id>, objs: Objs, pins: map<Id, nat>, pending: multiset<Id>, x: Id, ob: Obj,
                    pins': map<Id, nat>, pending': multiset<Id>)
    requires NoDuplicates(list) && Balanced(list, objs, pins, pending) && x in objs
    requires forall o :: RefsBy(ob, o) == RefsBy(objs[x], o)
    requires forall o :: o in list && o != x ==> o in pins' && pins'[o] == pins[o] && pending'[o] == pending[o]
    requires x in list ==> x in pins' && ob.refcount - ob.dlRefcount - pins'[x] - pending'[x]
                                         == objs[x].refcount - objs[x].dlRefcount - pins[x] - pending[x]
    ensures Balanced(list, objs[x := ob], pins', pending')
  {
    forall o | o in list ensures Counted(list, objs[x := ob], pins', pending', o) {
      assert Counted(list, objs, pins, pending, o);
      LiveRefsUpdate(list, objs, x, ob, o);
    }
  }

  /** A count reaching zero turns the references that the object holds into pending ones. */
  lemma CountReachesZero(list: seq<Id>, objs: Objs, pins: map<Id, nat>, pending: multiset<Id>, x: Id)
    requires NoDuplicates(list) && Balanced(list, objs, pins, pending)
    requires x in list && pending[x] > 0 && objs[x].refcount == 1
    ensures Balanced(list, objs[x := objs[x].(refcount := 0)], pins, pending - multiset{x} + multiset(objs[x].needed))
  {
    var ob := objs[x].(refcount := 0);
    var pending' := pending - multiset{x} + multiset(objs[x].needed);
    assert Counted(list, objs, pins, pending, x);
    LiveRefsAtLeast(list, objs, x, x);
    forall o | o in list ensures Counted(list, objs[x := ob], pins, pending', o) {
      assert Counted(list, objs, pins, pending, o);
      LiveRefsUpdate(list, objs, x, ob, o);
    }
  }

  /** The sum of all counts: what bounds the recursion of _rtld_unref_dag on any graph. */
  function Total(list: seq<Id>, objs: Objs): nat {
    if list == [] then 0
    else
      var x := list[|list| - 1];
      Total(list[..|list| - 1], objs) + if x in objs && objs[x].refcount > 0 then objs[x].refcount else 0
  }

  lemma {:induction false} TotalSmaller(list: seq<Id>, objs: Objs, objs': Objs)
    requires objs.Keys == objs'.Keys && forall x :: x in list && x in objs ==> objs'[x].refcount <= objs[x].refcount
    ensures Total(list, objs') <= Total(list, objs)
    ensures (exists x :: x in list && x in objs && objs'[x].refcount < objs[x].refcount && objs[x].refcount > 0) ==>
              Total(list, objs') < Total(list, objs)
  {
    if list != [] {
      var front := list[..|list| - 1];
      assert list == front + [list[|list| - 1]];
      TotalSmaller(front, objs, objs');
    }
  }

  // ---- the state of the linker ------------------------------------------------------------

  /** Only reference counts differ. */
  ghost predicate OnlyCounts(objs: Objs, objs': Objs) {
    objs.Keys == objs'.Keys && forall o :: o in objs ==> objs'[o] == objs[o].(refcount := objs'[o].refcount)
  }

  /** Every bound needed entry of ob names a listed object, or the linker, that the name resolves to. */
  ghost predicate Entries(w: World, list: seq<Id>, self: Id, objs: Objs, ob: Obj) {
    && ob.key in w.files && |ob.needed| == |w.files[ob.key].needed|
    && forall k :: 0 <= k < |ob.needed| && ob.needed[k] != NULL ==>
         && (ob.needed[k] == self || ob.needed[k] in list) && ob.needed[k] in objs
         && Resolves(w, ob.key, w.files[ob.key].needed[k], objs[ob.needed[k]].key)
  }

  ghost predicate Shape(w: World, list: seq<Id>, self: Id, objs: Objs) {
    && WellFormed(w) && list != [] && NoDuplicates(list)
    && NULL !in list && self !in list && self != NULL && self in objs && NULL !in objs
    && objs[self].key == w.linker
    && (forall o :: o in objs <==> o == self || o in list)
    && (forall o :: o in objs ==> Entries(w, list, self, objs, objs[o]))
    && (forall o :: o in objs && objs[o].zNodelete ==> AcyclicBelow(w, objs[o].key))
    && (forall o :: o in list && o != list[0] ==> objs[o].key != w.linker)
  }

  lemma ShapeCounts(w: World, list: seq<Id>, self: Id, objs: Objs, objs': Objs)
    requires Shape(w, list, self, objs) && OnlyCounts(objs, objs')
    ensures Shape(w, list, self, objs')
  {}

  /** Ids are fresh, a file is mapped once, and nodelete objects and the main program are pinned. */
  ghost predicate Tidy(list: seq<Id>, objs: Objs, pins: map<Id, nat>, next: Id) {
    && (forall o :: o in objs || o in pins ==> o < next)
    && (forall a, b :: a in list && b in list && a != b && a != list[0] && b != list[0] && a in objs && b in objs ==>
          objs[a].key != objs[b].key)
    && (forall o :: o in list ==> o in objs && o in pins && (objs[o].refNodel ==> pins[o] > 0))
    && list != [] && pins[list[0]] > 0
  }

  ghost predicate AllLive(list: seq<Id>, objs: Objs) {
    forall o :: o in list ==> o in objs && objs[o].refcount > 0
  }

  /** The whole state, as a value. */
  datatype St = St(list: seq<Id>, objs: Objs, pins: map<Id, nat>, next: Id)

  /** The invariant while nothing is being unloaded; `pending` are references handed to a caller. */
  ghost predicate Sound(w: World, self: Id, s: St, pending: multiset<Id>) {
    && Shape(w, s.list, self, s.objs) && Balanced(s.list, s.objs, s.pins, pending)
    && Tidy(s.list, s.objs, s.pins, s.next) && AllLive(s.list, s.objs)
  }

  // ---- the linker's own entry -------------------------------------------------------------------

  /**
   What happened to the linker's own entry so far: how often it was handed out, how many
   references to it were dropped again, whether a drop met a zero count; how many calls opens
   it and which objects got a needed entry bound to it.  `pinned` tells whether anything was pinned.
   */
  datatype Book = Book(handed: nat, drops: nat, zeroMet: bool, opens: nat, needers: set<Id>, pinned: bool)

  /**
   It is handed out without being counted, but counted down like any other: its count is its
   pins less the drops, and what was handed out and not dropped is a handle, a live needed entry
   or pending.  With its one pin from startup, the second drop meets a zero.
   */
  ghost predicate Accounted(self: Id, list: seq<Id>, objs: Objs, pins: map<Id, nat>, b: Book, pending: multiset<Id>) {
    && self in objs && self in pins && pins[self] >= 1 && objs[self].refcount + b.drops == pins[self]
    && b.drops + objs[self].dlRefcount + LiveRefs(list, objs, self) + pending[self] == b.handed
    && (b.zeroMet ==> b.drops >= 2) && (pins[self] == 1 ==> (b.zeroMet <==> b.drops >= 2))
  }

  /** The history agrees with the objects. */
  ghost predicate Recorded(w: World, self: Id, s: St, b: Book, pending: multiset<Id>) {
    && (b.handed == 0 ==> b.opens == 0 && b.needers == {}) && (b.handed > 0 && pending[self] == 0 ==> Used(b))
    && (forall x :: x in s.objs ==> (self in s.objs[x].needed <==> x in b.needers)) &&
       (forall x :: x in b.needers ==> x < s.next)
    && (!b.pinned ==>
          s.list != [] && forall o :: o in s.pins ==> s.pins[o] == if o == self || o == s.list[0] then 1 else 0)
    && (forall x ::
          x in s.objs && s.objs[x].zNodelete ==>
            b.pinned || (s.objs[x].key in w.files && w.files[s.objs[x].key].nodelete))
    && (forall x ::
          x in s.objs && x != self && s.objs[x].key in w.files && w.files[s.objs[x].key].nodelete ==>
            s.objs[x].zNodelete)
  }

  /** Some call opens the linker's own entry, or some object has or had a needed entry bound to it. */
  predicate Used(b: Book) { b.opens > 0 || b.needers != {} }

  /** No file is to be kept for ever. */
  predicate NoneStays(w: World) { forall k :: k in w.files ==> !w.files[k].nodelete }

  /** No needed entry leads the search to the linker. */
  predicate NoneNeedsLinker(w: World) {
    forall k, name ::
      k in w.files && name in w.files[k].needed && (k, name) in w.search ==> w.search[(k, name)] != w.linker
  }

  /** What loading does to the book. */
  ghost predicate LoadsBook(w: World, b: Book, b': Book) {
    && b'.drops == b.drops && b'.zeroMet == b.zeroMet && b'.opens == b.opens && b.needers <= b'.needers &&
       (b.pinned ==> b'.pinned)
    && (NoneStays(w) && !b.pinned ==> !b'.pinned) && (NoneNeedsLinker(w) ==> b'.needers == b.needers)
  }

  /**
   What dropping references does to the book: a zero is met exactly if the linker's entry is
   dropped more often than it is pinned.
   */
  predicate DropsBook(b: Book, b': Book, pins: nat) {
    && b' == b.(drops := b'.drops, zeroMet := b'.zeroMet) && b.drops <= b'.drops
    && b'.zeroMet == (b.zeroMet || (b.drops < b'.drops && pins < b'.drops))
  }

  ghost predicate BookOk(w: World, self: Id, s: St, b: Book, pending: multiset<Id>) {
    Accounted(self, s.list, s.objs, s.pins, b, pending) && Recorded(w, self, s, b, pending)
  }

  lemma LoadsBookReflexive(w: World, b: Book)
    ensures LoadsBook(w, b, b)
  {}

  lemma BookSelfOwed(w: World, self: Id, s: St, b: Book)
    requires BookOk(w, self, s, b, multiset{})
    ensures BookOk(w, self, s, b.(handed := b.handed + 1), multiset{self})
    ensures s.objs[self].refcount > 0 <==> b.drops < s.pins[self]
  {}

  lemma BookReferenced(w: World, self: Id, s: St, b: Book, o: Id)
    requires Sound(w, self, s, multiset{}) && BookOk(w, self, s, b, multiset{}) && o in s.list
    ensures BookOk(w, self, s.(objs := s.objs[o := s.objs[o].(refcount := s.objs[o].refcount + 1)]), b, multiset{o})
  {
    SoundBasics(w, self, s, multiset{});
    hide Sound;
    AccountedChange(self, s.list, s.objs, s.pins, b, multiset{}, o, s.objs[o].(refcount := s.objs[o].refcount + 1),
                    s.pins, b, multiset{o});
    hide Accounted, Recorded;
    RecordedChange(w, self, s, b, o, s.objs[o].(refcount := s.objs[o].refcount + 1), s.pins, multiset{o});
  }

  /** An object changes, but neither its entries nor, unless something is pinned, its mark. */
  lemma RecordedChange(w: World, self: Id, s: St, b: Book, o: Id, ob: Obj, pins': map<Id, nat>, pending: multiset<Id>)
    requires Recorded(w, self, s, b, multiset{}) && o in s.objs && (pins' == s.pins || b.pinned)
    requires ob.key == s.objs[o].key && ob.needed == s.objs[o].needed
    requires (s.objs[o].zNodelete ==> ob.zNodelete) && (ob.zNodelete ==> s.objs[o].zNodelete || b.pinned)
    ensures Recorded(w, self, s.(objs := s.objs[o := ob], pins := pins'), b, pending)
  {}

  lemma AccountedMapped(w: World, self: Id, s: St, b: Book, k: Key)
    requires Sound(w, self, s, multiset{}) && Accounted(self, s.list, s.objs, s.pins, b, multiset{}) && k in w.files
    ensures Accounted(self, s.list + [s.next], s.objs[s.next := NewObj(w, k)], s.pins[s.next := 0], b, multiset{s.next})
  {
    SoundBasics(w, self, s, multiset{});
    hide Sound;
    var o, ob := s.next, NewObj(w, k);
    var list', objs' := s.list + [o], s.objs[o := ob];
    assert list'[..|list'| - 1] == s.list;
    LiveRefsFrame(s.list, s.objs, objs', self);
    assert multiset(ob.needed)[self] == 0 by { assert self !in ob.needed; }
  }

  lemma BookMapped(w: World, self: Id, s: St, b: Book, k: Key)
    requires Sound(w, self, s, multiset{}) && BookOk(w, self, s, b, multiset{}) && k in w.files
    ensures BookOk(w, self, St(s.list + [s.next], s.objs[s.next := NewObj(w, k)], s.pins[s.next := 0], s.next + 1), b,
                   multiset{s.next})
  {
    AccountedMapped(w, self, s, b, k);
    SoundBasics(w, self, s, multiset{});
    NeedersFresh(w, self, s, b);
    hide Sound, Accounted, Recorded;
    RecordedMapped(w, self, s, b, k);
  }

  lemma RecordedMapped(w: World, self: Id, s: St, b: Book, k: Key)
    requires Recorded(w, self, s, b, multiset{}) && k in w.files && self != NULL && self < s.next &&
             s.next !in b.needers && s.next !in s.pins && s.list != [] && s.list[0] < s.next
    ensures Recorded(w, self, St(s.list + [s.next], s.objs[s.next := NewObj(w, k)], s.pins[s.next := 0], s.next + 1), b,
                     multiset{s.next})
  {
    assert self !in NewObj(w, k).needed;
  }

  /** An object that is not there yet needs nothing. */
  lemma NeedersFresh(w: World, self: Id, s: St, b: Book)
    requires Sound(w, self, s, multiset{}) && BookOk(w, self, s, b, multiset{})
    ensures s.next !in b.needers && s.next !in s.pins
  {}

  lemma AccountedBind(self: Id, list: seq<Id>, objs: Objs, pins: map<Id, nat>, b: Book, b': Book, x: Id, k: nat, o: Id)
    requires NoDuplicates(list) && self !in list && self != NULL && x in list && x in objs && objs[x].refcount != 0
    requires k < |objs[x].needed| && objs[x].needed[k] == NULL && Accounted(self, list, objs, pins, b, multiset{o})
    requires b' == b.(needers := b'.needers)
    ensures Accounted(self, list, objs[x := objs[x].(needed := objs[x].needed[k := o])], pins, b', multiset{})
  {
    var ob := objs[x].(needed := objs[x].needed[k := o]);
    LiveRefsUpdate(list, objs, x, ob, self);
    BindCounts(objs[x].needed, k, o);
  }

  lemma BindCounts(needed: seq<Id>, k: nat, o: Id)
    requires k < |needed| && needed[k] == NULL
    ensures multiset(needed[k := o]) == multiset(needed) - multiset{NULL} + multiset{o}
    ensures forall x :: x != NULL ==> (x in needed[k := o] <==> x in needed || x == o)
  {
    var bound := needed[k := o];
    assert bound[k] == o;
    forall x | x != NULL && x in needed ensures x in bound {
      var i :| 0 <= i < |needed| && needed[i] == x;
      assert bound[i] == x;
    }
  }

  lemma BookBind(w: World, self: Id, s: St, b: Book, x: Id, k: nat, o: Id)
    requires Sound(w, self, s, multiset{o}) && BookOk(w, self, s, b, multiset{o}) && x in s.list &&
             k < |s.objs[x].needed| && s.objs[x].needed[k] == NULL
    ensures BookOk(w, self, s.(objs := s.objs[x := s.objs[x].(needed := s.objs[x].needed[k := o])]),
                   b.(needers := if o == self then b.needers + {x} else b.needers), multiset{})
  {
    SoundBasics(w, self, s, multiset{o});
    hide Sound;
    var b' := b.(needers := if o == self then b.needers + {x} else b.needers);
    AccountedBind(self, s.list, s.objs, s.pins, b, b', x, k, o);
    BindCounts(s.objs[x].needed, k, o);
    HandedOut(self, s.list, s.objs, s.pins, b, multiset{o});
    hide Accounted, Recorded;
    RecordedBind(w, self, s, b, b', x, s.objs[x].needed[k := o], o);
  }

  lemma RecordedBind(w: World, self: Id, s: St, b: Book, b': Book, x: Id, needed: seq<Id>, o: Id)
    requires Recorded(w, self, s, b, multiset{o}) && x in s.objs && x < s.next && (o == self ==> b.handed > 0)
    requires (self in needed <==> self in s.objs[x].needed || o == self) &&
             b' == b.(needers := if o == self then b.needers + {x} else b.needers)
    ensures Recorded(w, self, s.(objs := s.objs[x := s.objs[x].(needed := needed)]), b', multiset{})
  {}

  lemma HandedOut(self: Id, list: seq<Id>, objs: Objs, pins: map<Id, nat>, b: Book, pending: multiset<Id>)
    requires Accounted(self, list, objs, pins, b, pending)
    ensures pending[self] > 0 || (self in objs && objs[self].dlRefcount > 0) ==> b.handed > 0
  {}

  lemma BookHandle(w: World, self: Id, s: St, b: Book, o: Id)
    requires Sound(w, self, s, multiset{o}) && BookOk(w, self, s, b, multiset{o}) && o in s.objs
    ensures BookOk(w, self, Taken(s, o), b.(opens := if o == self then b.opens + 1 else b.opens), multiset{})
  {
    SoundBasics(w, self, s, multiset{o});
    hide Sound;
    var b' := b.(opens := if o == self then b.opens + 1 else b.opens);
    HandedOut(self, s.list, s.objs, s.pins, b, multiset{o});
    hide Accounted, Recorded;
    AccountedHandle(self, s, b, b', o);
    RecordedHandle(w, self, s, b, b', o);
  }

  lemma AccountedHandle(self: Id, s: St, b: Book, b': Book, o: Id)
    requires Accounted(self, s.list, s.objs, s.pins, b, multiset{o}) && o in s.objs && self !in s.list &&
             NoDuplicates(s.list) && b' == b.(opens := b'.opens)
    ensures Accounted(self, s.list, Taken(s, o).objs, s.pins, b', multiset{})
  {
    AccountedChange(self, s.list, s.objs, s.pins, b, multiset{o}, o,
                    s.objs[o].(dlRefcount := s.objs[o].dlRefcount + 1), s.pins, b', multiset{});
  }

  lemma RecordedHandle(w: World, self: Id, s: St, b: Book, b': Book, o: Id)
    requires Recorded(w, self, s, b, multiset{o}) && o in s.objs && (o == self ==> b.handed > 0)
    requires b' == b.(opens := if o == self then b.opens + 1 else b.opens)
    ensures Recorded(w, self, Taken(s, o), b', multiset{})
  {}

  lemma BookRelease(w: World, self: Id, s: St, b: Book, o: Id)
    requires Sound(w, self, s, multiset{}) && BookOk(w, self, s, b, multiset{}) && o in s.objs &&
             s.objs[o].dlRefcount > 0
    ensures BookOk(w, self, Released(s, o), b, multiset{o}) && (o == self ==> Used(b))
  {
    SoundBasics(w, self, s, multiset{});
    hide Sound;
    HandedOut(self, s.list, s.objs, s.pins, b, multiset{});
    hide Accounted, Recorded;
    AccountedRelease(self, s, b, o);
    RecordedRelease(w, self, s, b, o);
  }

  lemma AccountedRelease(self: Id, s: St, b: Book, o: Id)
    requires Accounted(self, s.list, s.objs, s.pins, b, multiset{}) && o in s.objs && s.objs[o].dlRefcount > 0 &&
             self !in s.list && NoDuplicates(s.list)
    ensures Accounted(self, s.list, Released(s, o).objs, s.pins, b, multiset{o})
  {
    AccountedChange(self, s.list, s.objs, s.pins, b, multiset{}, o,
                    s.objs[o].(dlRefcount := s.objs[o].dlRefcount - 1), s.pins, b, multiset{o});
  }

  lemma RecordedRelease(w: World, self: Id, s: St, b: Book, o: Id)
    requires Recorded(w, self, s, b, multiset{}) && o in s.objs && s.objs[o].dlRefcount > 0 &&
             (o == self ==> b.handed > 0)
    ensures Recorded(w, self, Released(s, o), b, multiset{o}) && (o == self ==> Used(b))
  {}

  lemma BookPins(w: World, self: Id, s: St, b: Book)
    requires BookOk(w, self, s, b, multiset{})
    ensures BookOk(w, self, s, b.(pinned := true), multiset{})
  {}

  lemma BookPinOne(w: World, self: Id, s: St, b: Book, o: Id)
    requires Sound(w, self, s, multiset{}) && BookOk(w, self, s, b, multiset{}) && b.pinned && o in s.objs &&
             o in s.pins
    ensures BookOk(w, self,
                   s.(objs := s.objs[o := s.objs[o].(refcount := s.objs[o].refcount + 1)],
                      pins := s.pins[o := s.pins[o] + 1]),
                   b, multiset{})
  {
    SoundBasics(w, self, s, multiset{});
    hide Sound;
    AccountedChange(self, s.list, s.objs, s.pins, b, multiset{}, o, s.objs[o].(refcount := s.objs[o].refcount + 1),
                    s.pins[o := s.pins[o] + 1], b, multiset{});
    hide Accounted, Recorded;
    RecordedChange(w, self, s, b, o, s.objs[o].(refcount := s.objs[o].refcount + 1), s.pins[o := s.pins[o] + 1],
                   multiset{});
  }

  lemma BookMark(w: World, self: Id, s: St, b: Book, o: Id, zNodelete: bool)
    requires Sound(w, self, s, multiset{}) && BookOk(w, self, s, b, multiset{}) && b.pinned && o in s.objs &&
             (s.objs[o].zNodelete ==> zNodelete)
    ensures BookOk(w, self, s.(objs := s.objs[o := s.objs[o].(refNodel := true, zNodelete := zNodelete)]), b,
                   multiset{})
  {
    SoundBasics(w, self, s, multiset{});
    hide Sound;
    AccountedChange(self, s.list, s.objs, s.pins, b, multiset{}, o,
                    s.objs[o].(refNodel := true, zNodelete := zNodelete), s.pins, b, multiset{});
    hide Accounted, Recorded;
    RecordedChange(w, self, s, b, o, s.objs[o].(refNodel := true, zNodelete := zNodelete), s.pins, multiset{});
  }

  lemma BookKnows(w: World, self: Id, s: St, b: Book, pending: multiset<Id>)
    requires BookOk(w, self, s, b, pending)
    ensures self in s.objs && self in s.pins && Accounted(self, s.list, s.objs, s.pins, b, pending)
  {}

  /** Nodelete objects come from nodelete files, unless something was pinned. */
  lemma BookStays(w: World, self: Id, s: St, b: Book, o: Id)
    requires BookOk(w, self, s, b, multiset{}) && o in s.objs && s.objs[o].zNodelete
    ensures NoneStays(w) ==> b.pinned
  {}

  lemma LoadsBookTransitive(w: World, a: Book, b: Book, c: Book)
    requires LoadsBook(w, a, b) && LoadsBook(w, b, c)
    ensures LoadsBook(w, a, c)
  {}

  /** An object changes without changing what it refers to. */
  lemma AccountedChange(self: Id, list: seq<Id>, objs: Objs, pins: map<Id, nat>, b: Book, pending: multiset<Id>,
                        x: Id, ob: Obj, pins': map<Id, nat>, b': Book, pending': multiset<Id>)
    requires NoDuplicates(list) && self !in list && Accounted(self, list, objs, pins, b, pending) && x in objs
    requires x in list ==> RefsBy(ob, self) == RefsBy(objs[x], self)
    requires self in pins' && pins'[self] >= pins[self] && b'.drops >= b.drops
    requires (if x == self then ob else objs[self]).refcount + b'.drops == pins'[self]
    requires b'.drops + (if x == self then ob else objs[self]).dlRefcount + pending'[self] - b'.handed ==
             b.drops + objs[self].dlRefcount + pending[self] - b.handed
    requires (b'.zeroMet ==> b'.drops >= 2) && (pins'[self] == 1 ==> (b'.zeroMet <==> b'.drops >= 2))
    ensures Accounted(self, list, objs[x := ob], pins', b', pending')
  {
    LiveRefsUpdate(list, objs, x, ob, self);
  }

  /** One reference is dropped; a count that reaches zero sets free what the object refers to. */
  lemma AccountedDrop(self: Id, list: seq<Id>, objs: Objs, pins: map<Id, nat>, b: Book, pending: multiset<Id>, x: Id)
    requires NoDuplicates(list) && self !in list && Accounted(self, list, objs, pins, b, pending) && pending[x] > 0
    requires x in objs && (x == self || x in list) && (x in list ==> objs[x].refcount > 0) &&
             (x == self ==> objs[self].needed == [])
    ensures var ob := objs[x].(refcount := objs[x].refcount - 1);
            var b' := if x == self then b.(drops := b.drops + 1, zeroMet := b.zeroMet || objs[x].refcount <= 0) else b;
            && DropsBook(b, b', pins[self])
            && Accounted(self, list, objs[x := ob], pins, b',
                         if ob.refcount == 0 then pending - multiset{x} + multiset(ob.needed)
                         else pending - multiset{x})
  {
    LiveRefsUpdate(list, objs, x, objs[x].(refcount := objs[x].refcount - 1), self);
  }

  lemma DropsAccounted(w: World, self: Id, s: St, b: Book, pending: multiset<Id>, x: Id)
    requires Shape(w, s.list, self, s.objs) && Accounted(self, s.list, s.objs, s.pins, b, pending) && pending[x] > 0
    requires x in s.objs && (x == self || x in s.list) && (x in s.list ==> s.objs[x].refcount > 0)
    ensures var ob := s.objs[x].(refcount := s.objs[x].refcount - 1);
            var b' :=
              if x != self then b
              else b.(drops := b.drops + 1, zeroMet := b.zeroMet || s.objs[x].refcount <= 0);
            && self in s.pins && DropsBook(b, b', s.pins[self])
            && Accounted(self, s.list, s.objs[x := ob], s.pins, b',
                         if ob.refcount == 0 then pending - multiset{x} + multiset(ob.needed)
                         else pending - multiset{x})
  {
    NeededKnown(w, s.list, self, s.objs, x);
    assert NoDuplicates(s.list) && self !in s.list;
    hide Shape, Accounted;
    AccountedDrop(self, s.list, s.objs, s.pins, b, pending, x);
  }

  lemma SelfPinned(self: Id, list: seq<Id>, objs: Objs, pins: map<Id, nat>, b: Book, pending: multiset<Id>)
    requires Accounted(self, list, objs, pins, b, pending)
    ensures self in pins
  {}

  lemma NullAccounted(self: Id, list: seq<Id>, objs: Objs, pins: map<Id, nat>, b: Book, pending: multiset<Id>,
                      pending': multiset<Id>)
    requires Accounted(self, list, objs, pins, b, pending) && pending'[self] == pending[self]
    ensures Accounted(self, list, objs, pins, b, pending')
  {}

  lemma RecordedCounts(w: World, self: Id, s: St, s': St, b: Book, b': Book, pending: multiset<Id>)
    requires Recorded(w, self, s, b, pending) && Used(b) == Used(b') && (pending[self] > 0 ==> Used(b))
    requires b' == b.(drops := b'.drops, zeroMet := b'.zeroMet) && s'.pins == s.pins && s'.next == s.next &&
             s'.list != [] && s.list != [] && s'.list[0] == s.list[0]
    requires forall x :: x in s'.objs ==> x in s.objs && s'.objs[x] == s.objs[x].(refcount := s'.objs[x].refcount)
    ensures Recorded(w, self, s', b', multiset{})
  {}

  /** A listed object with a pending reference has a positive count. */
  lemma PendingIsCounted(w: World, list: seq<Id>, self: Id, objs: Objs, pins: map<Id, nat>, pending: multiset<Id>,
                         x: Id)
    requires Shape(w, list, self, objs) && Balanced(list, objs, pins, pending) && x in objs && pending[x] > 0
    ensures x in list ==> objs[x].refcount > 0
    ensures forall o :: o in list ==> o in objs
    ensures self in objs && self !in list && (x == self || x in list)
  {}

  lemma DropNull(w: World, list: seq<Id>, self: Id, objs: Objs, pins: map<Id, nat>, pending: multiset<Id>,
                 pending': multiset<Id>)
    requires Shape(w, list, self, objs) && Balanced(list, objs, pins, pending) && pending == pending' + multiset{NULL}
    ensures Balanced(list, objs, pins, pending')
  {}

  lemma TotalMonotone(list: seq<Id>, objs: Objs, objs': Objs)
    requires objs.Keys == objs'.Keys && forall x :: x in list ==> x in objs && objs'[x].refcount <= objs[x].refcount
    ensures Total(list, objs') <= Total(list, objs)
  {}

  lemma Decremented(w: World, list: seq<Id>, self: Id, objs: Objs, pins: map<Id, nat>, pending: multiset<Id>, x: Id)
    requires Shape(w, list, self, objs) && Balanced(list, objs, pins, pending) && x in objs && pending[x] > 0
    ensures var ob := objs[x].(refcount := objs[x].refcount - 1);
            var objs' := objs[x := ob];
            && OnlyCounts(objs, objs') && objs'.Keys == objs.Keys && Shape(w, list, self, objs')
            && Balanced(list, objs', pins,
                        if ob.refcount == 0 then pending - multiset{x} + multiset(ob.needed) else pending - multiset{x})
            && (forall n :: n in ob.needed && n != NULL ==> n in objs')
            && Total(list, objs') <= Total(list, objs) && (x in list ==> Total(list, objs') < Total(list, objs))
            && (x == self ==> ob.needed == [])
  {
    var ob := objs[x].(refcount := objs[x].refcount - 1);
    var objs' := objs[x := ob];
    ShapeCounts(w, list, self, objs, objs');
    if x in list { DecrementedTotal(list, objs, pins, pending, x); } else { TotalMonotone(list, objs, objs'); }
    DecrementedBalance(w, list, self, objs, pins, pending, x);
    NeededKnown(w, list, self, objs, x);
  }

  lemma NeededKnown(w: World, list: seq<Id>, self: Id, objs: Objs, x: Id)
    requires Shape(w, list, self, objs) && x in objs
    ensures forall n :: n in objs[x].needed && n != NULL ==> n in objs && (n == self || n in list)
    ensures objs[self].needed == []
  {}

  lemma DecrementedTotal(list: seq<Id>, objs: Objs, pins: map<Id, nat>, pending: multiset<Id>, x: Id)
    requires Balanced(list, objs, pins, pending) && x in list && pending[x] > 0
    ensures Total(list, objs[x := objs[x].(refcount := objs[x].refcount - 1)]) < Total(list, objs)
  {
    assert Counted(list, objs, pins, pending, x);
    TotalSmaller(list, objs, objs[x := objs[x].(refcount := objs[x].refcount - 1)]);
  }

  lemma DecrementedBalance(w: World, list: seq<Id>, self: Id, objs: Objs, pins: map<Id, nat>, pending: multiset<Id>,
                           x: Id)
    requires Shape(w, list, self, objs) && Balanced(list, objs, pins, pending) && x in objs && pending[x] > 0
    ensures var ob := objs[x].(refcount := objs[x].refcount - 1);
            Balanced(list, objs[x := ob], pins,
                     if ob.refcount == 0 then pending - multiset{x} + multiset(ob.needed) else pending - multiset{x})
  {
    var ob := objs[x].(refcount := objs[x].refcount - 1);
    if x in list && ob.refcount == 0 {
      CountReachesZero(list, objs, pins, pending, x);
    } else {
      if x == self { NeededKnown(w, list, self, objs, x); }
      else { PendingIsCounted(w, list, self, objs, pins, pending, x); }
      CountChange(list, objs, pins, pending, x, ob, pins, pending - multiset{x});
      assert pending - multiset{x} + multiset([]) == pending - multiset{x};
    }
  }

  lemma ShapeBasics(w: World, list: seq<Id>, self: Id, objs: Objs)
    requires Shape(w, list, self, objs)
    ensures OnlyCounts(objs, objs) && self in objs && self != NULL && forall o :: o in list ==> o in objs
  {}

  lemma OnlyCountsTransitive(a: Objs, b: Objs, c: Objs)
    requires OnlyCounts(a, b) && OnlyCounts(b, c)
    ensures OnlyCounts(a, c) && a.Keys == c.Keys
  {}

  // ---- loading ----------------------------------------------------------------------------

  /** The object made for file k by _rtld_map_object and _rtld_digest_dynamic, with its first reference. */
  function NewObj(w: World, k: Key): Obj
    requires k in w.files
  {
    Obj(k, 1, 0, seq(|w.files[k].needed|, _ => NULL), w.files[k].nodelete, false)
  }

  /** What loading may change: objects are appended, and counts of the others only grow. */
  ghost predicate Grown(s: St, s': St, o: Id) {
    && s.list <= s'.list && |s'.list| <= |s.list| + 1
    && (forall x ::
          x in s.objs ==>
            x in s'.objs && s'.objs[x] == s.objs[x].(refcount := s'.objs[x].refcount) &&
            s'.objs[x].refcount >= s.objs[x].refcount)
    && (forall x :: x in s'.objs && x !in s.objs ==>
          x == o && s'.objs[x].dlRefcount == 0 && !s'.objs[x].refNodel && Unbound(s'.objs[x]))
    && SamePins(s, s')
  }

  predicate Unbound(ob: Obj) { forall k :: 0 <= k < |ob.needed| ==> ob.needed[k] == NULL }

  /** Entry k of x was bound between the two states. */
  predicate NewlyBound(s: St, s': St, x: Id, k: nat) {
    && x in s'.objs && k < |s'.objs[x].needed| && s'.objs[x].needed[k] != NULL
    && (x in s.objs && k < |s.objs[x].needed| ==> s.objs[x].needed[k] == NULL)
  }

  /** Whatever a dlopen has bound and must stay is marked, unless the needing object is. */
  ghost predicate AllNewPinned(s: St, s': St) {
    forall x, k: nat :: NewlyBound(s, s', x, k) && !s'.objs[x].refNodel && s'.objs[x].needed[k] in s'.objs ==>
      (s'.objs[s'.objs[x].needed[k]].zNodelete ==> s'.objs[s'.objs[x].needed[k]].refNodel)
  }

  /** Nothing but entry k of x is bound. */
  ghost predicate OnlyBinds(s: St, s': St, x: Id, k: nat) {
    forall y, j: nat :: NewlyBound(s, s', y, j) ==> y == x && j == k
  }

  lemma BindOnly(s0: St, s: St, x: Id, k: nat, o: Id)
    requires Grown(s0, s, o) && x in s0.objs && k < |s0.objs[x].needed|
    ensures x in s.objs && k < |s.objs[x].needed| &&
            OnlyBinds(s0, s.(objs := s.objs[x := s.objs[x].(needed := s.objs[x].needed[k := o])]), x, k)
  {}

  lemma BindsNothing(s: St, x: Id, k: nat)
    ensures OnlyBinds(s, s, x, k)
  {}

  lemma OnlyBindsStays(s: St, mid: St, s': St, x: Id, k: nat)
    requires OnlyBinds(s, mid, x, k) && s'.objs.Keys == mid.objs.Keys
    requires forall y :: y in mid.objs ==> s'.objs[y].needed == mid.objs[y].needed
    ensures OnlyBinds(s, s', x, k)
  {
    forall y, j: nat | NewlyBound(s, s', y, j) ensures y == x && j == k { assert NewlyBound(s, mid, y, j); }
  }

  lemma EntryNewPinned(s: St, s': St, x: Id, k: nat)
    requires OnlyBinds(s, s', x, k)
    requires x in s'.objs && k < |s'.objs[x].needed| && !s'.objs[x].refNodel && s'.objs[x].needed[k] in s'.objs ==>
               NewlyBound(s, s', x, k) ==>
                 (s'.objs[s'.objs[x].needed[k]].zNodelete ==> s'.objs[s'.objs[x].needed[k]].refNodel)
    ensures AllNewPinned(s, s')
  {}

  lemma AllNewPinnedTransitive(a: St, b: St, c: St)
    requires AllNewPinned(a, b) && AllNewPinned(b, c) && Loaded(a, b) && Loaded(b, c)
    requires forall x :: x in b.objs ==> forall n :: n in b.objs[x].needed && n != NULL ==> n in b.objs
    ensures AllNewPinned(a, c)
  {
    forall x, k: nat | NewlyBound(a, c, x, k) && !c.objs[x].refNodel && c.objs[x].needed[k] in c.objs
      ensures c.objs[c.objs[x].needed[k]].zNodelete ==> c.objs[c.objs[x].needed[k]].refNodel
    {
      if x in b.objs && k < |b.objs[x].needed| && b.objs[x].needed[k] != NULL {
        assert NewlyBound(a, b, x, k);
        var n := b.objs[x].needed[k];
        assert n in b.objs[x].needed && n in b.objs;
      } else {
        assert NewlyBound(b, c, x, k);
      }
    }
  }

  /** Nobody gets a pin; new objects start without. */
  ghost predicate SamePins(s: St, s': St) {
    && (forall o :: o in s.pins ==> o in s'.pins && s'.pins[o] == s.pins[o])
    && (forall o :: o in s'.pins && o !in s.pins ==> s'.pins[o] == 0)
  }

  lemma SamePinsReflexive(s: St)
    ensures SamePins(s, s)
  {}

  lemma SamePinsTransitive(a: St, b: St, c: St)
    requires SamePins(a, b) && SamePins(b, c)
    ensures SamePins(a, c)
  {}

  /** Binding entry k of x to an object that must stay pins everything below that, unless at startup or x is marked. */
  ghost predicate PinsEntry(s: St, s': St, x: Id, k: nat, main: bool, rank: Id -> nat)
    requires x in s.objs && k < |s.objs[x].needed|
  {
    var n := s.objs[x].needed[k];
    if !main && n in s.objs && s.objs[n].zNodelete && !s.objs[x].refNodel then PinnedBy(s, s', rank, n) else s' == s
  }

  lemma GrownPins(s: St, s': St, o: Id)
    requires Grown(s, s', o)
    ensures SamePins(s, s')
  {}

  lemma GrownReflexive(s: St)
    ensures Grown(s, s, NULL)
  {}

  lemma SoundBasics(w: World, self: Id, s: St, pending: multiset<Id>)
    requires Sound(w, self, s, pending)
    ensures WellFormed(w) && NoDuplicates(s.list) && s.list != [] && self in s.objs && s.objs[self].key == w.linker &&
            self != NULL && self !in s.list
    ensures forall o :: o in s.list ==> o in s.objs && o != NULL && s.objs[o].refcount > 0
    ensures NULL !in s.objs && forall o :: o in s.objs ==> o < s.next && (o == self || o in s.list)
  {}

  lemma SelfOwed(w: World, self: Id, s: St)
    requires Sound(w, self, s, multiset{})
    ensures Sound(w, self, s, multiset{self}) && Grown(s, s, self)
  {}

  lemma ReferencedBalance(list: seq<Id>, objs: Objs, pins: map<Id, nat>, o: Id)
    requires NoDuplicates(list) && Balanced(list, objs, pins, multiset{}) && o in list && objs[o].refcount > 0
    ensures Balanced(list, objs[o := objs[o].(refcount := objs[o].refcount + 1)], pins, multiset{o})
  {
    CountChange(list, objs, pins, multiset{}, o, objs[o].(refcount := objs[o].refcount + 1), pins, multiset{o});
  }

  lemma GrownOne(s: St, o: Id)
    requires o in s.objs
    ensures Grown(s, s.(objs := s.objs[o := s.objs[o].(refcount := s.objs[o].refcount + 1)]), o)
  {}

  lemma OnlyCountsOne(objs: Objs, o: Id, n: int)
    requires o in objs
    ensures OnlyCounts(objs, objs[o := objs[o].(refcount := n)])
  {}

  /** A change of counts that keeps the balance and all objects live. */
  lemma SoundCounts(w: World, self: Id, s: St, objs': Objs, pending: multiset<Id>)
    requires Sound(w, self, s, multiset{}) && OnlyCounts(s.objs, objs') && Balanced(s.list, objs', s.pins, pending)
    requires forall o :: o in s.list && o in s.objs ==> o in objs' && objs'[o].refcount >= s.objs[o].refcount
    ensures Sound(w, self, s.(objs := objs'), pending)
  {
    hide Shape, Balanced, Tidy, OnlyCounts;
    ShapeCounts(w, s.list, self, s.objs, objs');
    TidyCounts(s.list, s.objs, objs', s.pins, s.next);
  }

  lemma Referenced(w: World, self: Id, s: St, o: Id)
    requires Sound(w, self, s, multiset{}) && o in s.list
    ensures var s' := s.(objs := s.objs[o := s.objs[o].(refcount := s.objs[o].refcount + 1)]);
            Sound(w, self, s', multiset{o}) && Grown(s, s', o)
  {
    SoundBasics(w, self, s, multiset{});
    SoundParts(w, self, s, multiset{});
    hide Sound, Shape, Balanced, Tidy, Grown, OnlyCounts;
    ReferencedBalance(s.list, s.objs, s.pins, o);
    OnlyCountsOne(s.objs, o, s.objs[o].refcount + 1);
    SoundCounts(w, self, s, s.objs[o := s.objs[o].(refcount := s.objs[o].refcount + 1)], multiset{o});
    GrownOne(s, o);
  }

  lemma {:induction false} NoRefs(list: seq<Id>, objs: Objs, o: Id)
    requires forall x :: x in list && x in objs ==> o !in objs[x].needed
    ensures LiveRefs(list, objs, o) == 0
  {
    if list != [] {
      var front := list[..|list| - 1];
      assert list == front + [list[|list| - 1]];
      NoRefs(front, objs, o);
    }
  }

  lemma {:induction false} LiveRefsFrame(list: seq<Id>, objs: Objs, objs': Objs, o: Id)
    requires forall x :: x in list ==> x in objs && x in objs' && objs'[x] == objs[x]
    ensures LiveRefs(list, objs', o) == LiveRefs(list, objs, o)
  {
    if list != [] {
      var front := list[..|list| - 1];
      assert list == front + [list[|list| - 1]];
      LiveRefsFrame(front, objs, objs', o);
    }
  }

  lemma MappedBalance(w: World, self: Id, s: St, k: Key)
    requires Sound(w, self, s, multiset{}) && k in w.files
    ensures Balanced(s.list + [s.next], s.objs[s.next := NewObj(w, k)], s.pins[s.next := 0], multiset{s.next})
  {
    hide Tidy;
    var o, ob := s.next, NewObj(w, k);
    var list', objs' := s.list + [o], s.objs[o := ob];
    SoundBasics(w, self, s, multiset{});
    assert list'[..|list'| - 1] == s.list;
    forall x | x in list' ensures Counted(list', objs', s.pins[o := 0], multiset{o}, x) {
      LiveRefsFrame(s.list, s.objs, objs', x);
      assert multiset(ob.needed)[x] == 0 by { assert x !in ob.needed; }
      if x == o {
        forall y | y in s.list && y in s.objs
          ensures o !in s.objs[y].needed
        {
          NeededKnown(w, s.list, self, s.objs, y);
        }
        NoRefs(s.list, s.objs, o);
      } else {
        assert Counted(s.list, s.objs, s.pins, multiset{}, x);
      }
    }
  }

  lemma MappedShape(w: World, self: Id, s: St, k: Key)
    requires Sound(w, self, s, multiset{}) && k in w.files && k != w.linker
    ensures Shape(w, s.list + [s.next], self, s.objs[s.next := NewObj(w, k)])
  {
    hide Balanced, Tidy, AllLive;
    var list', objs' := s.list + [s.next], s.objs[s.next := NewObj(w, k)];
    Fresh(w, self, s);
    forall o | o in objs' ensures Entries(w, list', self, objs', objs'[o]) {
      if o != s.next { assert Entries(w, s.list, self, s.objs, s.objs[o]); }
    }
  }

  lemma Fresh(w: World, self: Id, s: St)
    requires Sound(w, self, s, multiset{})
    ensures s.next != NULL && s.next !in s.objs && s.next !in s.list
  {}

  lemma Mapped(w: World, self: Id, s: St, k: Key)
    requires Sound(w, self, s, multiset{}) && k in w.files && k != w.linker
    requires forall j :: 1 <= j < |s.list| ==> s.list[j] in s.objs && s.objs[s.list[j]].key != k
    ensures var s' := St(s.list + [s.next], s.objs[s.next := NewObj(w, k)], s.pins[s.next := 0], s.next + 1);
            Sound(w, self, s', multiset{s.next}) && Grown(s, s', s.next)
  {
    hide Balanced, Shape;
    MappedBalance(w, self, s, k);
    MappedShape(w, self, s, k);
    Fresh(w, self, s);
  }

  lemma ListedFiles(w: World, self: Id, s: St)
    requires Sound(w, self, s, multiset{})
    ensures forall o :: o in s.list ==> o in s.objs && s.objs[o].key in w.files
  {
    forall o | o in s.list ensures o in s.objs && s.objs[o].key in w.files { EntryNames(w, self, s, o); }
  }

  lemma EntryNames(w: World, self: Id, s: St, x: Id)
    requires Sound(w, self, s, multiset{}) && x in s.list
    ensures x in s.objs && s.objs[x].key in w.files && |s.objs[x].needed| == |w.files[s.objs[x].key].needed|
    ensures forall o :: o in s.list ==> s.objs[o].key in w.files
  {}

  /** What loading needed entries may change: NULL entries get bound, objects appended, counts grow. */
  ghost predicate Loaded(s: St, s': St) {
    && s.list <= s'.list
    && (forall x :: x in s.objs ==> x in s'.objs && s'.objs[x].key == s.objs[x].key
                                    && s'.objs[x].dlRefcount == s.objs[x].dlRefcount
                                    && |s'.objs[x].needed| == |s.objs[x].needed|
                                    && (s.objs[x].zNodelete ==> s'.objs[x].zNodelete) &&
                                       (s.objs[x].refNodel ==> s'.objs[x].refNodel)
                                    && (s'.objs[x].zNodelete ==> s.objs[x].zNodelete || s'.objs[x].refNodel)
                                    && forall k ::
                                         0 <= k < |s.objs[x].needed| && s.objs[x].needed[k] != NULL ==>
                                           s'.objs[x].needed[k] == s.objs[x].needed[k])
    && (forall x :: x in s'.objs && x !in s.objs ==> s'.objs[x].dlRefcount == 0)
    && (forall x :: x in s.pins ==> x in s'.pins && s.pins[x] <= s'.pins[x])
  }

  lemma LoadedReflexive(s: St)
    ensures Loaded(s, s)
  {}

  lemma LoadedTransitive(a: St, b: St, c: St)
    requires Loaded(a, b) && Loaded(b, c)
    ensures Loaded(a, c)
  {}

  /**
   Loading takes state and book from one to the other.  At startup it pins nothing; later whatever
   it binds and must stay is marked as pinned.
   */
  ghost predicate LoadsTo(w: World, main: bool, s: St, b: Book, s': St, b': Book) {
    Loaded(s, s') && LoadsBook(w, b, b') && (if main then SamePins(s, s') else AllNewPinned(s, s'))
  }

  lemma LoadsToReflexive(w: World, main: bool, s: St, b: Book)
    ensures LoadsTo(w, main, s, b, s, b)
  {}

  lemma LoadsToTransitive(w: World, self: Id, main: bool, s0: St, b0: Book, s: St, b: Book, s': St, b': Book)
    requires Sound(w, self, s, multiset{})
    requires LoadsTo(w, main, s0, b0, s, b) && LoadsTo(w, main, s, b, s', b')
    ensures LoadsTo(w, main, s0, b0, s', b')
  {
    forall x | x in s.objs ensures forall n :: n in s.objs[x].needed && n != NULL ==> n in s.objs {
      NeededListed(w, self, s, x);
    }
    hide Loaded, LoadsBook, SamePins, AllNewPinned, Sound;
    LoadedTransitive(s0, s, s');
    LoadsBookTransitive(w, b0, b, b');
    if main { SamePinsTransitive(s0, s, s'); } else { AllNewPinnedTransitive(s0, s, s'); }
  }

  lemma LoadsToLoaded(w: World, main: bool, s: St, b: Book, s': St, b': Book)
    requires LoadsTo(w, main, s, b, s', b')
    ensures Loaded(s, s') && LoadsBook(w, b, b') && (if main then SamePins(s, s') else AllNewPinned(s, s'))
  {}

  lemma BindBalance(list: seq<Id>, objs: Objs, pins: map<Id, nat>, x: Id, k: nat, o: Id)
    requires NoDuplicates(list) && NULL !in list && Balanced(list, objs, pins, multiset{o})
    requires x in list && objs[x].refcount > 0 && k < |objs[x].needed| && objs[x].needed[k] == NULL
    ensures Balanced(list, objs[x := objs[x].(needed := objs[x].needed[k := o])], pins, multiset{})
  {
    var ob := objs[x].(needed := objs[x].needed[k := o]);
    assert multiset(ob.needed) == multiset(objs[x].needed) - multiset{NULL} + multiset{o};
    forall y | y in list ensures Counted(list, objs[x := ob], pins, multiset{}, y) {
      assert Counted(list, objs, pins, multiset{o}, y);
      LiveRefsUpdate(list, objs, x, ob, y);
    }
  }

  lemma BindShape(w: World, self: Id, s: St, pending: multiset<Id>, x: Id, k: nat, o: Id)
    requires Sound(w, self, s, pending) && x in s.list && o in s.objs
    requires k < |s.objs[x].needed| && Resolves(w, s.objs[x].key, w.files[s.objs[x].key].needed[k], s.objs[o].key)
    ensures Shape(w, s.list, self, s.objs[x := s.objs[x].(needed := s.objs[x].needed[k := o])])
  {
    hide Balanced, Tidy, AllLive, AcyclicBelow, Resolves, WellFormed;
  }

  lemma BindEntry(w: World, self: Id, s0: St, s: St, x: Id, k: nat, o: Id)
    requires Sound(w, self, s, multiset{o}) && Grown(s0, s, o) && x in s0.list && o in s.objs
    requires x in s0.objs && k < |s0.objs[x].needed| && s0.objs[x].needed[k] == NULL
    requires s0.objs[x].key in w.files && k < |w.files[s0.objs[x].key].needed| &&
             Resolves(w, s0.objs[x].key, w.files[s0.objs[x].key].needed[k], s.objs[o].key)
    ensures x in s.objs && k < |s.objs[x].needed| && x in s.list && s.objs[x].needed == s0.objs[x].needed
    ensures var s' := s.(objs := s.objs[x := s.objs[x].(needed := s.objs[x].needed[k := o])]);
            Sound(w, self, s', multiset{}) && Loaded(s0, s')
  {
    hide Shape, Balanced, Loaded, Entries;
    SoundBasics(w, self, s, multiset{o});
    BindBalance(s.list, s.objs, s.pins, x, k, o);
    BindShape(w, self, s, multiset{o}, x, k, o);
    BindLoaded(s0, s, x, k, o);
  }

  lemma BindLoaded(s0: St, s: St, x: Id, k: nat, o: Id)
    requires Grown(s0, s, o) && x in s0.objs && k < |s0.objs[x].needed| && s0.objs[x].needed[k] == NULL
    ensures x in s.objs && k < |s.objs[x].needed| &&
            Loaded(s0, s.(objs := s.objs[x := s.objs[x].(needed := s.objs[x].needed[k := o])]))
  {}

  // ---- pinning ----------------------------------------------------------------------------

  /** Counts and pins of objects grow together. */
  ghost predicate Pinned(s: St, s': St) {
    && s'.list == s.list && s'.next == s.next && OnlyCounts(s.objs, s'.objs)
    && (forall o :: o in s.pins ==> o in s'.pins && s.pins[o] <= s'.pins[o])
  }

  /** How many chains of needed entries lead from root to o. */
  ghost function Paths(objs: Objs, rank: Id -> nat, root: Id, o: Id): nat
    requires root in objs
    decreases rank(root), 1, 0
  {
    (if root == o then 1 else 0) + PathsVia(objs, rank, root, objs[root].needed, o)
  }

  /** ... and how many of them start with one of these entries of root. */
  ghost function PathsVia(objs: Objs, rank: Id -> nat, root: Id, needed: seq<Id>, o: Id): nat
    requires root in objs
    decreases rank(root), 0, |needed|
  {
    if needed == [] then 0
    else
      var n := needed[|needed| - 1];
      PathsVia(objs, rank, root, needed[..|needed| - 1], o) +
      if n in objs && rank(n) < rank(root) then Paths(objs, rank, n, o) else 0
  }

  lemma {:induction false} PathsFrame(objs: Objs, objs': Objs, rank: Id -> nat, root: Id, o: Id)
    requires OnlyCounts(objs, objs') && root in objs
    ensures Paths(objs', rank, root, o) == Paths(objs, rank, root, o)
    decreases rank(root), 1, 0
  {
    PathsViaFrame(objs, objs', rank, root, objs[root].needed, o);
  }

  lemma {:induction false} PathsViaFrame(objs: Objs, objs': Objs, rank: Id -> nat, root: Id, needed: seq<Id>, o: Id)
    requires OnlyCounts(objs, objs') && root in objs
    ensures PathsVia(objs', rank, root, needed, o) == PathsVia(objs, rank, root, needed, o)
    decreases rank(root), 0, |needed|
  {
    if needed != [] {
      var n := needed[|needed| - 1];
      PathsViaFrame(objs, objs', rank, root, needed[..|needed| - 1], o);
      if n in objs && rank(n) < rank(root) { PathsFrame(objs, objs', rank, n, o); }
    }
  }

  /** Every object got one pin more for each chain of needed entries from root to it. */
  ghost predicate PinnedBy(s: St, s': St, rank: Id -> nat, root: Id) {
    root in s.objs && forall o :: o in s.pins ==> o in s'.pins && s'.pins[o] == s.pins[o] + Paths(s.objs, rank, root, o)
  }

  ghost predicate PinnedVia(s: St, s': St, rank: Id -> nat, root: Id, needed: seq<Id>) {
    root in s.objs &&
    forall o :: o in s.pins ==> o in s'.pins && s'.pins[o] == s.pins[o] + PathsVia(s.objs, rank, root, needed, o)
  }

  lemma PinnedViaNext(s: St, mid: St, s': St, rank: Id -> nat, root: Id, needed: seq<Id>, k: nat)
    requires k < |needed| && PinnedVia(s, mid, rank, root, needed[..k]) && Pinned(s, mid)
    requires if needed[k] in s.objs then rank(needed[k]) < rank(root) && PinnedBy(mid, s', rank, needed[k])
             else mid == s'
    ensures PinnedVia(s, s', rank, root, needed[..k + 1])
  {
    var front := needed[..k + 1];
    assert front[..|front| - 1] == needed[..k];
    forall o | o in s.pins ensures o in s'.pins && s'.pins[o] == s.pins[o] + PathsVia(s.objs, rank, root, front, o) {
      if needed[k] in s.objs { PathsFrame(s.objs, mid.objs, rank, needed[k], o); }
    }
  }

  lemma PinnedByRoot(s: St, s1: St, s': St, rank: Id -> nat, root: Id)
    requires root in s.objs && root in s.pins && Pinned(s, s1) && s1.pins == s.pins[root := s.pins[root] + 1]
    requires PinnedVia(s1, s', rank, root, s.objs[root].needed)
    ensures PinnedBy(s, s', rank, root)
  {
    forall o | o in s.pins ensures s'.pins[o] == s.pins[o] + Paths(s.objs, rank, root, o) {
      PathsViaFrame(s.objs, s1.objs, rank, root, s.objs[root].needed, o);
    }
  }

  lemma PinnedBySame(s: St, s1: St, s2: St, rank: Id -> nat, root: Id)
    requires PinnedBy(s, s1, rank, root) && s1.pins == s2.pins
    ensures PinnedBy(s, s2, rank, root)
  {}

  /** A chain of needed entries, each to an object of lower rank. */
  ghost predicate DownChain(objs: Objs, rank: Id -> nat, p: seq<Id>) {
    && p != [] && (forall i :: 0 <= i < |p| ==> p[i] in objs)
    && (forall i :: 0 < i < |p| ==> p[i] in objs[p[i - 1]].needed && rank(p[i]) < rank(p[i - 1]))
  }

  /** Whatever a chain reaches counts, so it gets pinned. */
  lemma {:induction false} ChainCounts(objs: Objs, rank: Id -> nat, p: seq<Id>)
    requires DownChain(objs, rank, p)
    ensures Paths(objs, rank, p[0], p[|p| - 1]) > 0
  {
    if |p| > 1 {
      var o := p[|p| - 1];
      assert DownChain(objs, rank, p[1..]);
      ChainCounts(objs, rank, p[1..]);
      EntryCounts(objs, rank, p[0], objs[p[0]].needed, p[1], o);
    }
  }

  lemma {:induction false} EntryCounts(objs: Objs, rank: Id -> nat, root: Id, needed: seq<Id>, n: Id, o: Id)
    requires root in objs && n in needed && n in objs && rank(n) < rank(root)
    ensures PathsVia(objs, rank, root, needed, o) >= Paths(objs, rank, n, o)
  {
    if needed[|needed| - 1] != n { EntryCounts(objs, rank, root, needed[..|needed| - 1], n, o); }
  }

  lemma PinnedReflexive(s: St)
    ensures Pinned(s, s)
  {}

  lemma PinnedTransitive(a: St, b: St, c: St)
    requires Pinned(a, b) && Pinned(b, c)
    ensures Pinned(a, c)
    ensures forall o :: o in b.pins ==> o in c.pins && b.pins[o] <= c.pins[o]
  {}

  lemma PinnedViaNone(s: St, rank: Id -> nat, root: Id)
    requires root in s.objs
    ensures PinnedVia(s, s, rank, root, [])
  {}

  lemma PinnedKeys(s: St, s': St)
    requires Pinned(s, s')
    ensures s'.objs.Keys == s.objs.Keys && forall o :: o in s.objs ==> s'.objs[o].key == s.objs[o].key
  {}

  lemma PinnedAt(s: St, s': St, o: Id)
    requires Pinned(s, s') && o in s.objs
    ensures o in s'.objs && s'.objs[o] == s.objs[o].(refcount := s'.objs[o].refcount)
  {}

  lemma PinsKnown(w: World, self: Id, s: St, o: Id)
    requires Sound(w, self, s, multiset{}) && self in s.pins && o in s.objs
    ensures o in s.pins && (o in s.list ==> s.objs[o].refcount > 0) && (o == self || o in s.list) && self !in s.list
  {}

  lemma PinOne(w: World, self: Id, s: St, o: Id)
    requires Sound(w, self, s, multiset{}) && o in s.objs && o in s.pins
    ensures var s' := s.(objs := s.objs[o := s.objs[o].(refcount := s.objs[o].refcount + 1)],
                         pins := s.pins[o := s.pins[o] + 1]);
            Sound(w, self, s', multiset{}) && Pinned(s, s')
  {
    hide Tidy;
    var ob := s.objs[o].(refcount := s.objs[o].refcount + 1);
    ShapeCounts(w, s.list, self, s.objs, s.objs[o := ob]);
    NeededKnown(w, s.list, self, s.objs, o);
    CountChange(s.list, s.objs, s.pins, multiset{}, o, ob, s.pins[o := s.pins[o] + 1], multiset{});
    PinOneTidy(s, o);
  }

  /** The first step of _rtld_ref_dag; the count was positive, except perhaps that of the linker's own entry. */
  lemma PinRoot(w: World, self: Id, s: St, b: Book, o: Id)
    requires Sound(w, self, s, multiset{}) && BookOk(w, self, s, b, multiset{}) && b.pinned && o in s.objs
    ensures o in s.pins && (o in s.list ==> s.objs[o].refcount > 0)
    ensures var s' := s.(objs := s.objs[o := s.objs[o].(refcount := s.objs[o].refcount + 1)],
                         pins := s.pins[o := s.pins[o] + 1]);
            Sound(w, self, s', multiset{}) && BookOk(w, self, s', b, multiset{}) && Pinned(s, s')
  {
    hide Sound, BookOk, Pinned;
    BookKnows(w, self, s, b, multiset{});
    PinsKnown(w, self, s, o);
    PinOne(w, self, s, o);
    BookPinOne(w, self, s, b, o);
  }

  lemma PinOneTidy(s: St, o: Id)
    requires Tidy(s.list, s.objs, s.pins, s.next) && o in s.objs && o in s.pins
    ensures Tidy(s.list, s.objs[o := s.objs[o].(refcount := s.objs[o].refcount + 1)], s.pins[o := s.pins[o] + 1],
                 s.next)
  {}

  /** The objects of `below` need only each other, and none of them itself, directly or indirectly. */
  ghost predicate Layered(objs: Objs, below: set<Id>, rank: Id -> nat) {
    forall o, n :: o in below && o in objs && n in objs[o].needed && n in objs ==> n in below && rank(n) < rank(o)
  }

  lemma LayeredPinned(s: St, s': St, below: set<Id>, rank: Id -> nat)
    requires Pinned(s, s') && Layered(s.objs, below, rank)
    ensures Layered(s'.objs, below, rank)
  {}

  lemma LayeredAt(objs: Objs, below: set<Id>, rank: Id -> nat, o: Id, n: Id)
    requires Layered(objs, below, rank) && o in below && o in objs && n in objs[o].needed && n in objs
    ensures n in below && rank(n) < rank(o)
  {}

  /** The loaded objects below an object whose file has no cycles below it. */
  lemma BelowObject(w: World, self: Id, s: St, o: Id) returns (below: set<Id>, rank: Id -> nat)
    requires Sound(w, self, s, multiset{}) && o in s.objs && AcyclicBelow(w, s.objs[o].key)
    ensures o in below && Layered(s.objs, below, rank)
  {
    var keys: set<Key>, r: Key -> nat :| s.objs[o].key in keys && Layers(w, keys, r);
    hide Sound, Layers;
    below := set x | x in s.objs && s.objs[x].key in keys;
    rank := (x: Id) => if x in s.objs then r(s.objs[x].key) else 0;
    forall x, n | x in s.objs && s.objs[x].key in keys && n in s.objs[x].needed && n in s.objs
      ensures s.objs[n].key in keys && r(s.objs[n].key) < r(s.objs[x].key)
    {
      BoundBelow(w, self, s, keys, r, x, n);
    }
    hide AcyclicBelow;
  }

  lemma BoundBelow(w: World, self: Id, s: St, keys: set<Key>, r: Key -> nat, x: Id, n: Id)
    requires Sound(w, self, s, multiset{}) && Layers(w, keys, r) && x in s.objs && s.objs[x].key in keys &&
             n in s.objs[x].needed && n in s.objs
    ensures s.objs[n].key in keys && r(s.objs[n].key) < r(s.objs[x].key)
  {
    assert Entries(w, s.list, self, s.objs, s.objs[x]);
    var k :| 0 <= k < |s.objs[x].needed| && s.objs[x].needed[k] == n;
    assert w.files[s.objs[x].key].needed[k] in w.files[s.objs[x].key].needed;
  }

  lemma LoadedAt(s: St, s': St, o: Id)
    requires Loaded(s, s') && o in s.objs
    ensures o in s'.objs && |s'.objs[o].needed| == |s.objs[o].needed| && (o in s.list ==> o in s'.list) &&
            |s.list| <= |s'.list|
    ensures s'.objs[o].dlRefcount == s.objs[o].dlRefcount && s'.objs[o].key == s.objs[o].key
  {}

  lemma PinnedLoaded(s: St, s': St)
    requires Pinned(s, s')
    ensures Loaded(s, s')
  {}

  lemma NodeleteBelow(w: World, self: Id, s: St, o: Id)
    requires Sound(w, self, s, multiset{}) && o in s.objs && s.objs[o].zNodelete
    ensures AcyclicBelow(w, s.objs[o].key)
  {
    hide AcyclicBelow;
  }

  lemma MarkNodel(w: World, self: Id, s: St, o: Id, zNodelete: bool)
    requires Sound(w, self, s, multiset{}) && o in s.objs && o in s.pins && s.pins[o] > 0 &&
             (zNodelete ==> AcyclicBelow(w, s.objs[o].key))
    requires s.objs[o].zNodelete ==> zNodelete
    ensures var s' := s.(objs := s.objs[o := s.objs[o].(refNodel := true, zNodelete := zNodelete)]);
            Sound(w, self, s', multiset{}) && Loaded(s, s')
  {
    hide Shape, Balanced;
    var ob := s.objs[o].(refNodel := true, zNodelete := zNodelete);
    MarkShape(w, self, s, o, zNodelete);
    SoundBasics(w, self, s, multiset{});
    CountChange(s.list, s.objs, s.pins, multiset{}, o, ob, s.pins, multiset{});
  }

  lemma MarkShape(w: World, self: Id, s: St, o: Id, zNodelete: bool)
    requires Sound(w, self, s, multiset{}) && o in s.objs && (zNodelete ==> AcyclicBelow(w, s.objs[o].key))
    ensures Shape(w, s.list, self, s.objs[o := s.objs[o].(refNodel := true, zNodelete := zNodelete)])
  {
    hide Balanced, Tidy, AllLive, AcyclicBelow, Resolves, WellFormed;
  }

  /** Each file is mapped at most once, not counting the main program, so the list cannot grow without end. */
  lemma KeysBounded(w: World, self: Id, s: St)
    requires Sound(w, self, s, multiset{})
    ensures |s.list| <= |w.files| + 1
    ensures forall i, j ::
              1 <= i < j < |s.list| ==>
                s.list[i] in s.objs && s.list[j] in s.objs && s.objs[s.list[i]].key != s.objs[s.list[j]].key
  {
    hide Balanced;
    var keys: set<Key> := {};
    for i := 1 to |s.list|
      invariant |keys| == i - 1 && keys <= w.files.Keys
      invariant forall k :: k in keys ==> exists j :: 1 <= j < i && s.objs[s.list[j]].key == k
    {
      assert Entries(w, s.list, self, s.objs, s.objs[s.list[i]]);
      keys := keys + {s.objs[s.list[i]].key};
    }
    SubsetSize(keys, w.files.Keys);
  }

  lemma SubsetSize(a: set<Key>, b: set<Key>)
    requires a <= b
    ensures |a| <= |b|
  {
    assert b == a + (b - a);
  }

  // ---- unloading --------------------------------------------------------------------------

  lemma CountsNotNegative(list: seq<Id>, objs: Objs, pins: map<Id, nat>, pending: multiset<Id>)
    requires Balanced(list, objs, pins, pending)
    ensures forall o :: o in list ==> o in objs && objs[o].refcount >= 0
  {}

  lemma SoundParts(w: World, self: Id, s: St, pending: multiset<Id>)
    requires Sound(w, self, s, pending)
    ensures Shape(w, s.list, self, s.objs) && Balanced(s.list, s.objs, s.pins, pending) &&
            Tidy(s.list, s.objs, s.pins, s.next)
    ensures forall o :: o in s.list ==> o in s.objs
  {}

  lemma TidyCounts(list: seq<Id>, objs: Objs, objs': Objs, pins: map<Id, nat>, next: Id)
    requires Tidy(list, objs, pins, next) && OnlyCounts(objs, objs')
    ensures Tidy(list, objs', pins, next)
  {}

  /** The listed objects whose count is not zero, in their order. */
  function Keep(list: seq<Id>, objs: Objs): seq<Id> {
    if list == [] then []
    else
      var x := list[|list| - 1];
      Keep(list[..|list| - 1], objs) + if x in objs && objs[x].refcount != 0 then [x] else []
  }

  /** The objects left when the sweep has passed the first j objects of the list. */
  function SweptObjs(s: St, j: nat): Objs
    requires j <= |s.list|
  {
    map x | x in s.objs && !(x in s.list[..j] && s.objs[x].refcount == 0) :: s.objs[x]
  }

  /** The state after the sweep: the unreferenced listed objects are gone. */
  function Swept(s: St): St { s.(list := Keep(s.list, s.objs), objs := SweptObjs(s, |s.list|)) }

  lemma SweepStart(s: St)
    requires s.list != [] && s.list[0] in s.objs && s.objs[s.list[0]].refcount > 0
    ensures Keep(s.list[..1], s.objs) == [s.list[0]] && SweptObjs(s, 1) == s.objs
  {}

  lemma SweepStep(s: St, j: nat)
    requires j < |s.list| && NoDuplicates(s.list) && s.list[j] in s.objs
    ensures var o := s.list[j];
            && o in SweptObjs(s, j) && SweptObjs(s, j)[o] == s.objs[o]
            && Keep(s.list[..j + 1], s.objs) ==
               Keep(s.list[..j], s.objs) + (if s.objs[o].refcount != 0 then [o] else [])
            && SweptObjs(s, j + 1) == if s.objs[o].refcount == 0 then SweptObjs(s, j) - {o} else SweptObjs(s, j)
  {
    assert s.list[..j + 1] == s.list[..j] + [s.list[j]] && s.list[..j + 1][..j] == s.list[..j];
    assert s.list[j] !in s.list[..j];
  }

  /** The list while the sweep is at place i, which is place j of the list it started with. */
  lemma SweepList(s: St, j: nat, list: seq<Id>, i: nat)
    requires j < |s.list| && list == Keep(s.list[..j], s.objs) + s.list[j..] && i == |Keep(s.list[..j], s.objs)| &&
             s.list[j] in s.objs
    requires Keep(s.list[..j + 1], s.objs) ==
             Keep(s.list[..j], s.objs) + (if s.objs[s.list[j]].refcount != 0 then [s.list[j]] else [])
    ensures i < |list| && list[i] == s.list[j]
    ensures (if s.objs[s.list[j]].refcount == 0 then list[..i] + list[i + 1..] else list) ==
            Keep(s.list[..j + 1], s.objs) + s.list[j + 1..]
  {
    hide Keep;
    var kept := Keep(s.list[..j], s.objs);
    assert s.list[j..] == [s.list[j]] + s.list[j + 1..];
    assert list == kept + [s.list[j]] + s.list[j + 1..];
  }

  lemma SweepEnd(s: St)
    ensures Swept(s) ==
            s.(list := Keep(s.list[..|s.list|], s.objs) + s.list[|s.list|..], objs := SweptObjs(s, |s.list|))
  {
    assert s.list[..|s.list|] == s.list;
  }

  lemma HeadLive(w: World, self: Id, s: St)
    requires Shape(w, s.list, self, s.objs) && Balanced(s.list, s.objs, s.pins, multiset{}) &&
             Tidy(s.list, s.objs, s.pins, s.next)
    ensures s.list != [] && NoDuplicates(s.list) && s.list[0] in s.objs && s.objs[s.list[0]].refcount > 0
    ensures forall o :: o in s.list ==> o in s.objs
  {}

  lemma OnlyCountsAt(a: Objs, b: Objs, o: Id)
    requires OnlyCounts(a, b)
    ensures a.Keys == b.Keys
  {}

  lemma {:induction false} KeepProperties(list: seq<Id>, objs: Objs)
    requires NoDuplicates(list)
    ensures NoDuplicates(Keep(list, objs))
    ensures forall o :: o in Keep(list, objs) <==> o in list && o in objs && objs[o].refcount != 0
    ensures list != [] && list[0] in objs && objs[list[0]].refcount != 0 ==>
              Keep(list, objs) != [] && Keep(list, objs)[0] == list[0]
  {
    if list != [] {
      var front, x := list[..|list| - 1], list[|list| - 1];
      assert list == front + [x];
      KeepProperties(front, objs);
      assert x !in front;
    }
  }

  lemma {:induction false} LiveRefsKeep(list: seq<Id>, objs: Objs, objs': Objs, o: Id)
    requires forall x :: x in list && x in objs && objs[x].refcount != 0 ==> x in objs' && objs'[x] == objs[x]
    ensures LiveRefs(Keep(list, objs), objs', o) == LiveRefs(list, objs, o)
  {
    if list != [] {
      var front, x := list[..|list| - 1], list[|list| - 1];
      assert list == front + [x];
      LiveRefsKeep(front, objs, objs', o);
      if x in objs && objs[x].refcount != 0 {
        assert (Keep(front, objs) + [x])[..|Keep(front, objs)|] == Keep(front, objs);
      } else {
        assert Keep(front, objs) + [] == Keep(front, objs);
      }
    }
  }

  /** What a live object needs is live. */
  lemma NeededLive(w: World, self: Id, s: St, x: Id, n: Id)
    requires Shape(w, s.list, self, s.objs) && Balanced(s.list, s.objs, s.pins, multiset{})
    requires x in s.list && s.objs[x].refcount != 0 && n in s.objs[x].needed && n in s.list
    ensures s.objs[n].refcount > 0
  {
    LiveRefsAtLeast(s.list, s.objs, x, n);
    assert Counted(s.list, s.objs, s.pins, multiset{}, n);
  }

  lemma SweptBalance(w: World, self: Id, s: St)
    requires Shape(w, s.list, self, s.objs) && Balanced(s.list, s.objs, s.pins, multiset{})
    ensures Balanced(Swept(s).list, Swept(s).objs, s.pins, multiset{})
  {
    var s' := Swept(s);
    KeepProperties(s.list, s.objs);
    assert s.list[..|s.list|] == s.list;
    forall o | o in s'.list ensures Counted(s'.list, s'.objs, s.pins, multiset{}, o) {
      assert Counted(s.list, s.objs, s.pins, multiset{}, o);
      LiveRefsKeep(s.list, s.objs, s'.objs, o);
    }
  }

  lemma SweptEntries(w: World, self: Id, s: St, x: Id)
    requires Shape(w, s.list, self, s.objs) && Balanced(s.list, s.objs, s.pins, multiset{}) && x in Swept(s).objs
    ensures Entries(w, Swept(s).list, self, Swept(s).objs, Swept(s).objs[x])
  {
    KeepProperties(s.list, s.objs);
    assert s.list[..|s.list|] == s.list;
    assert Entries(w, s.list, self, s.objs, s.objs[x]);
    NeededKnown(w, s.list, self, s.objs, x);
    forall n | n in s.objs[x].needed && n in s.list ensures s.objs[n].refcount > 0 { NeededLive(w, self, s, x, n); }
  }

  lemma SweptShape(w: World, self: Id, s: St)
    requires Shape(w, s.list, self, s.objs) && Balanced(s.list, s.objs, s.pins, multiset{}) &&
             Tidy(s.list, s.objs, s.pins, s.next)
    ensures Shape(w, Swept(s).list, self, Swept(s).objs)
  {
    HeadLive(w, self, s);
    KeepProperties(s.list, s.objs);
    assert s.list[..|s.list|] == s.list;
    forall x | x in Swept(s).objs
      ensures Entries(w, Swept(s).list, self, Swept(s).objs, Swept(s).objs[x])
    {
      SweptEntries(w, self, s, x);
    }
  }

  lemma SweptSound(w: World, self: Id, s: St)
    requires Shape(w, s.list, self, s.objs) && Balanced(s.list, s.objs, s.pins, multiset{}) &&
             Tidy(s.list, s.objs, s.pins, s.next)
    ensures Sound(w, self, Swept(s), multiset{})
    ensures self in Swept(s).objs && Swept(s).objs[self] == s.objs[self] && MainKept(s, Swept(s))
    ensures forall o :: o in s.list ==> (o in Swept(s).list <==> s.objs[o].refcount > 0)
  {
    SweptBalance(w, self, s);
    SweptShape(w, self, s);
    SweptTidy(w, self, s);
  }

  lemma SweptTidy(w: World, self: Id, s: St)
    requires Shape(w, s.list, self, s.objs) && Balanced(s.list, s.objs, s.pins, multiset{}) &&
             Tidy(s.list, s.objs, s.pins, s.next)
    ensures Tidy(Swept(s).list, Swept(s).objs, s.pins, s.next) && AllLive(Swept(s).list, Swept(s).objs)
    ensures self in Swept(s).objs && Swept(s).objs[self] == s.objs[self] && MainKept(s, Swept(s))
    ensures forall o :: o in s.list ==> (o in Swept(s).list <==> s.objs[o].refcount > 0)
  {
    HeadLive(w, self, s);
    CountsNotNegative(s.list, s.objs, s.pins, multiset{});
    assert self in s.objs && self !in s.list;
    hide Shape, Balanced, Swept, Tidy;
    SweptMembers(s);
    TidyLess(s, Swept(s));
  }

  lemma TidyLess(s: St, s': St)
    requires Tidy(s.list, s.objs, s.pins, s.next) && s.list != [] && s'.list != [] && s'.list[0] == s.list[0] &&
             s'.pins == s.pins && s'.next == s.next
    requires forall o :: o in s'.list ==> o in s.list && o in s'.objs
    requires forall o :: o in s'.objs ==> o in s.objs && s'.objs[o] == s.objs[o]
    ensures Tidy(s'.list, s'.objs, s'.pins, s'.next)
  {}

  /** What the sweep leaves, object by object. */
  lemma SweptMembers(s: St)
    requires NoDuplicates(s.list) && s.list != [] && s.list[0] in s.objs && s.objs[s.list[0]].refcount != 0 &&
             forall o :: o in s.list ==> o in s.objs
    ensures Swept(s).list != [] && Swept(s).list[0] == s.list[0] && Swept(s).pins == s.pins && Swept(s).next == s.next
    ensures forall o :: o in Swept(s).list <==> o in s.list && s.objs[o].refcount != 0
    ensures forall o :: o in Swept(s).objs <==> o in s.objs && (o !in s.list || s.objs[o].refcount != 0)
    ensures forall o :: o in Swept(s).objs ==> Swept(s).objs[o] == s.objs[o]
  {
    KeepProperties(s.list, s.objs);
    assert s.list[..|s.list|] == s.list;
  }

  /** The main program stays where it is. */
  ghost predicate MainKept(s: St, s': St) {
    s.list != [] && s'.list != [] && s'.list[0] == s.list[0] && s.list[0] in s.objs && s.list[0] in s'.objs &&
    s'.objs[s.list[0]].key == s.objs[s.list[0]].key
  }

  lemma StillLive(w: World, self: Id, s: St, s': St, root: Id)
    requires Sound(w, self, s, multiset{root}) && root in s.objs
    requires s' == s.(objs := s.objs[root := s.objs[root].(refcount := s.objs[root].refcount - 1)])
    requires Shape(w, s'.list, self, s'.objs) && Balanced(s'.list, s'.objs, s'.pins, multiset{}) &&
             Tidy(s'.list, s'.objs, s'.pins, s'.next)
    requires s'.objs[root].refcount != 0
    ensures Sound(w, self, s', multiset{})
    ensures forall o :: o in s.list ==> s'.objs[o].refcount > 0
  {}

  /** What unloading may change: objects disappear, counts of the others change, handles and pins stay. */
  ghost predicate Unloaded(s: St, s': St) {
    && s'.pins == s.pins && s'.next == s.next && (forall o :: o in s'.list ==> o in s.list)
    && (forall o :: o in s'.objs ==> o in s.objs && s'.objs[o] == s.objs[o].(refcount := s'.objs[o].refcount))
    && (forall o :: o in s.objs && (o !in s.list || s.objs[o].dlRefcount > 0) ==> o in s'.objs)
  }

  lemma UnloadedSwept(w: World, self: Id, s: St, mid: St)
    requires mid == s.(objs := mid.objs) && OnlyCounts(s.objs, mid.objs)
    requires Shape(w, mid.list, self, mid.objs) && Balanced(mid.list, mid.objs, mid.pins, multiset{})
    ensures Unloaded(s, Swept(mid))
  {
    assert NoDuplicates(mid.list) && forall o :: o in mid.list ==> o in mid.objs;
    hide Shape;
    OpenCounted(mid);
    hide Balanced, Keep;
    SweptUnloads(s, mid);
  }

  lemma OpenCounted(s: St)
    requires Balanced(s.list, s.objs, s.pins, multiset{})
    ensures forall o :: o in s.list && o in s.objs && s.objs[o].dlRefcount > 0 ==> s.objs[o].refcount > 0
  {
    forall o | o in s.list && s.objs[o].dlRefcount > 0 ensures s.objs[o].refcount > 0 {
      assert Counted(s.list, s.objs, s.pins, multiset{}, o);
    }
  }

  lemma SweptUnloads(s: St, mid: St)
    requires mid == s.(objs := mid.objs) && OnlyCounts(s.objs, mid.objs)
    requires NoDuplicates(mid.list) && forall o :: o in mid.list ==> o in mid.objs
    requires forall o :: o in mid.list && mid.objs[o].dlRefcount > 0 ==> mid.objs[o].refcount > 0
    ensures Unloaded(s, Swept(mid))
  {
    KeepProperties(s.list, mid.objs);
    hide Keep;
  }

  lemma BookUnswept(w: World, self: Id, s: St, mid: St, b: Book, b': Book, root: Id)
    requires Recorded(w, self, s, b, multiset{root}) && (root == self ==> Used(b)) &&
             b' == b.(drops := b'.drops, zeroMet := b'.zeroMet)
    requires mid == s.(objs := mid.objs) && OnlyCounts(s.objs, mid.objs) &&
             Accounted(self, mid.list, mid.objs, mid.pins, b', multiset{})
    requires Sound(w, self, mid, multiset{})
    ensures BookOk(w, self, mid, b', multiset{}) && MainKept(s, mid)
  {
    SoundBasics(w, self, mid, multiset{});
    hide Sound, Accounted;
    RecordedCounts(w, self, s, mid, b, b', multiset{root});
  }

  lemma BookSwept(w: World, self: Id, s: St, mid: St, b: Book, b': Book, root: Id)
    requires Recorded(w, self, s, b, multiset{root}) && (root == self ==> Used(b)) &&
             b' == b.(drops := b'.drops, zeroMet := b'.zeroMet)
    requires mid == s.(objs := mid.objs) && OnlyCounts(s.objs, mid.objs) &&
             Accounted(self, mid.list, mid.objs, mid.pins, b', multiset{})
    requires Shape(w, mid.list, self, mid.objs) && Balanced(mid.list, mid.objs, mid.pins, multiset{}) &&
             Tidy(mid.list, mid.objs, mid.pins, mid.next)
    ensures BookOk(w, self, Swept(mid), b', multiset{}) && MainKept(s, Swept(mid))
    ensures root in mid.objs && mid.objs[root].refcount == 0 ==> root !in Swept(mid).list
  {
    HeadLive(w, self, mid);
    assert self !in mid.list;
    hide Shape, Balanced, Tidy;
    SweptMembers(mid);
    AccountedSwept(self, mid, b');
    hide Swept, Accounted;
    RecordedCounts(w, self, s, Swept(mid), b, b', multiset{root});
  }

  lemma AccountedSwept(self: Id, s: St, b: Book)
    requires Accounted(self, s.list, s.objs, s.pins, b, multiset{}) && self !in s.list && NoDuplicates(s.list)
    requires s.list != [] && s.list[0] in s.objs && s.objs[s.list[0]].refcount != 0 &&
             forall o :: o in s.list ==> o in s.objs
    ensures Accounted(self, Swept(s).list, Swept(s).objs, s.pins, b, multiset{})
  {
    SweptMembers(s);
    hide Accounted;
    LiveRefsKeep(s.list, s.objs, Swept(s).objs, self);
    hide LiveRefs, Keep, SweptObjs;
    AccountedSame(self, s, Swept(s), b);
  }

  lemma AccountedSame(self: Id, s: St, s': St, b: Book)
    requires Accounted(self, s.list, s.objs, s.pins, b, multiset{}) && s'.pins == s.pins && self in s'.objs &&
             self in s.objs && s'.objs[self] == s.objs[self]
    requires LiveRefs(s'.list, s'.objs, self) == LiveRefs(s.list, s.objs, self)
    ensures Accounted(self, s'.list, s'.objs, s'.pins, b, multiset{})
  {}

  lemma UnloadedOne(s: St, s': St, root: Id)
    requires s' == s.(objs := s'.objs) && OnlyCounts(s.objs, s'.objs)
    ensures Unloaded(s, s')
  {}

  // ---- what survives ----------------------------------------------------------------------

  /** A chain of needed entries through listed objects. */
  ghost predicate NeedChain(s: St, p: seq<Id>) {
    && p != [] && (forall i :: 0 <= i < |p| ==> p[i] in s.list && p[i] in s.objs)
    && (forall i :: 0 < i < |p| ==> p[i] in s.objs[p[i - 1]].needed)
  }

  /** ... from an object with an open handle or a pin. */
  ghost predicate HeldChain(s: St, p: seq<Id>) {
    NeedChain(s, p) && p[0] in s.pins && s.objs[p[0]].dlRefcount + s.pins[p[0]] > 0
  }

  ghost predicate Reachable(s: St, o: Id) {
    exists p :: HeldChain(s, p) && p[|p| - 1] == o
  }

  predicate InUse(s: St, p: seq<Id>) { forall i :: 0 <= i < |p| ==> p[i] in s.objs && s.objs[p[i]].refcount > 0 }

  /** x is on a cycle of objects in use. */
  ghost predicate OnCycle(s: St, x: Id) {
    exists p :: NeedChain(s, p) && |p| > 1 && p[0] == x && p[|p| - 1] == x && InUse(s, p)
  }

  /** A chain leads to o from an object with a handle or a pin, or from a cycle of objects in use. */
  ghost predicate Anchored(s: St, o: Id) {
    Reachable(s, o) || exists p :: NeedChain(s, p) && p[|p| - 1] == o && OnCycle(s, p[0])
  }

  /** The listed objects have no cycle of needed entries. */
  ghost predicate ListAcyclic(s: St) { exists rank: Id -> nat :: Ranked(s, rank) }

  ghost predicate Ranked(s: St, rank: Id -> nat) {
    forall o, n :: o in s.list && o in s.objs && n in s.objs[o].needed && n in s.list ==> rank(n) < rank(o)
  }

  lemma {:induction false} ChainLive(w: World, self: Id, s: St, p: seq<Id>)
    requires Shape(w, s.list, self, s.objs) && Balanced(s.list, s.objs, s.pins, multiset{}) && NeedChain(s, p) &&
             s.objs[p[0]].refcount > 0
    ensures s.objs[p[|p| - 1]].refcount > 0
  {
    if |p| > 1 {
      var q := p[..|p| - 1];
      assert forall i :: 0 < i < |q| ==> q[i] in s.objs[q[i - 1]].needed;
      ChainLive(w, self, s, q);
      NeededLive(w, self, s, q[|q| - 1], p[|p| - 1]);
    }
  }

  lemma HeldLive(s: St, p: seq<Id>)
    requires Balanced(s.list, s.objs, s.pins, multiset{}) && HeldChain(s, p)
    ensures s.objs[p[0]].refcount > 0
  {
    assert Counted(s.list, s.objs, s.pins, multiset{}, p[0]);
  }

  /** Back along the references: a chain of n objects in use that ends at o, unless a handle or a pin is met before. */
  lemma {:induction false} BackChain(w: World, self: Id, s: St, o: Id, n: nat) returns (p: seq<Id>)
    requires Shape(w, s.list, self, s.objs) && Balanced(s.list, s.objs, s.pins, multiset{}) && o in s.list &&
             s.objs[o].refcount > 0
    ensures NeedChain(s, p) && InUse(s, p) && p[|p| - 1] == o
    ensures HeldChain(s, p) || |p| > n
  {
    if n == 0 {
      p := [o];
    } else {
      var q := BackChain(w, self, s, o, n - 1);
      p := q;
      if !HeldChain(s, q) {
        var x := Referrer(s, q[0]);
        PrependChain(s, x, q);
        p := [x] + q;
      }
    }
  }

  /** An object in use without handle or pin is needed by one in use. */
  lemma Referrer(s: St, o: Id) returns (x: Id)
    requires Balanced(s.list, s.objs, s.pins, multiset{}) && o in s.list && s.objs[o].refcount > 0 &&
             s.objs[o].dlRefcount + s.pins[o] == 0
    ensures x in s.list && x in s.objs && s.objs[x].refcount > 0 && o in s.objs[x].needed
  {
    assert Counted(s.list, s.objs, s.pins, multiset{}, o);
    x := LiveRefsWitness(s.list, s.objs, o);
    CountsNotNegative(s.list, s.objs, s.pins, multiset{});
  }

  lemma PrependChain(s: St, x: Id, q: seq<Id>)
    requires NeedChain(s, q) && InUse(s, q) && x in s.list && x in s.objs && s.objs[x].refcount > 0 &&
             q[0] in s.objs[x].needed
    ensures NeedChain(s, [x] + q) && InUse(s, [x] + q)
  {
    var p := [x] + q;
    forall i | 0 < i < |p|
      ensures p[i] in s.objs[p[i - 1]].needed
    {
      if i > 1 { assert q[i - 1] in s.objs[q[i - 2]].needed; }
    }
  }

  function ToSet(s: seq<Id>): set<Id> { set x | x in s }

  lemma {:induction false} SetSize(s: seq<Id>)
    ensures |ToSet(s)| <= |s| && (NoDuplicates(s) ==> |ToSet(s)| == |s|)
  {
    if s != [] {
      var n := |s| - 1;
      SetSize(s[..n]);
      assert ToSet(s) == ToSet(s[..n]) + {s[n]};
      assert NoDuplicates(s) ==> s[n] !in ToSet(s[..n]);
    }
  }

  /** More places than members: some member comes twice. */
  lemma Pigeonhole(p: seq<Id>, list: seq<Id>)
    requires |p| > |list| && forall i :: 0 <= i < |p| ==> p[i] in list
    ensures exists i, j :: 0 <= i < j < |p| && p[i] == p[j]
  {
    SetSize(p);
    SetSize(list);
    SubsetSize(ToSet(p), ToSet(list));
    assert !NoDuplicates(p);
  }

  /** What is in use, on any graph: exactly what handles, pins and cycles of objects in use lead to. */
  lemma LiveIffAnchored(w: World, self: Id, s: St, o: Id)
    requires Shape(w, s.list, self, s.objs) && Balanced(s.list, s.objs, s.pins, multiset{}) && o in s.list
    ensures s.objs[o].refcount > 0 <==> Anchored(s, o)
  {
    if s.objs[o].refcount > 0 {
      var p := BackChain(w, self, s, o, |s.list|);
      if !HeldChain(s, p) { ChainAnchors(s, p); }
    }
    if Anchored(s, o) {
      if Reachable(s, o) {
        var p :| HeldChain(s, p) && p[|p| - 1] == o;
        HeldLive(s, p);
        ChainLive(w, self, s, p);
      } else {
        var p :| NeedChain(s, p) && p[|p| - 1] == o && OnCycle(s, p[0]);
        ChainLive(w, self, s, p);
      }
    }
  }

  lemma ChainAnchors(s: St, p: seq<Id>)
    requires NeedChain(s, p) && InUse(s, p) && |p| > |s.list|
    ensures Anchored(s, p[|p| - 1])
  {
    Pigeonhole(p, s.list);
    var i, j :| 0 <= i < j < |p| && p[i] == p[j];
    hide NeedChain, InUse, Reachable;
    SubChain(s, p, i, j + 1);
    SubChain(s, p, i, |p|);
    var cycle, rest := p[i..j + 1], p[i..|p|];
    assert cycle[0] == p[i] && cycle[|cycle| - 1] == p[j] && rest[0] == p[i] && rest[|rest| - 1] == p[|p| - 1];
    CycleAnchors(s, cycle, rest);
  }

  lemma CycleAnchors(s: St, cycle: seq<Id>, rest: seq<Id>)
    requires NeedChain(s, cycle) && InUse(s, cycle) && |cycle| > 1 && cycle[0] == cycle[|cycle| - 1] &&
             NeedChain(s, rest) && rest[0] == cycle[0]
    ensures Anchored(s, rest[|rest| - 1])
  {
    assert rest != [];
    hide NeedChain, InUse, Reachable;
    assert OnCycle(s, rest[0]);
  }

  lemma FirstNeeds(s: St, p: seq<Id>)
    requires NeedChain(s, p)
    ensures |p| > 1 ==> s.objs[p[0]].needed != []
  {
    assert |p| > 1 ==> p[1] in s.objs[p[0]].needed;
  }

  lemma SubChain(s: St, p: seq<Id>, i: nat, j: nat)
    requires NeedChain(s, p) && i < j <= |p|
    ensures NeedChain(s, p[i..j]) && (InUse(s, p) ==> InUse(s, p[i..j]))
  {
    var q := p[i..j];
    forall k | 0 < k < |q| ensures q[k] in s.objs[q[k - 1]].needed { assert p[i + k] in s.objs[p[i + k - 1]].needed; }
  }

  lemma {:induction false} ChainRank(s: St, rank: Id -> nat, p: seq<Id>)
    requires Ranked(s, rank) && NeedChain(s, p)
    ensures |p| > 1 ==> rank(p[|p| - 1]) < rank(p[0])
  {
    if |p| > 1 {
      var q := p[..|p| - 1];
      assert NeedChain(s, q);
      ChainRank(s, rank, q);
      assert p[|p| - 1] in s.objs[p[|p| - 2]].needed;
    }
  }

  /** On an acyclic list an object is in use exactly if a handle or a pin leads to it. */
  lemma LiveIffReachable(w: World, self: Id, s: St, o: Id)
    requires Shape(w, s.list, self, s.objs) && Balanced(s.list, s.objs, s.pins, multiset{}) && ListAcyclic(s) &&
             o in s.list
    ensures s.objs[o].refcount > 0 <==> Reachable(s, o)
  {
    LiveIffAnchored(w, self, s, o);
    var rank: Id -> nat :| Ranked(s, rank);
    forall x ensures !OnCycle(s, x) {
      forall p | NeedChain(s, p) && |p| > 1 ensures p[0] != p[|p| - 1] { ChainRank(s, rank, p); }
    }
  }

  /** On an acyclic list what is anchored is what a handle or a pin leads to. */
  lemma AcyclicAnchored(s: St, o: Id)
    requires ListAcyclic(s)
    ensures Anchored(s, o) <==> Reachable(s, o)
  {
    var rank: Id -> nat :| Ranked(s, rank);
    forall x ensures !OnCycle(s, x) {
      forall p | NeedChain(s, p) && |p| > 1 ensures p[0] != p[|p| - 1] { ChainRank(s, rank, p); }
    }
  }

  // ---- what dies ----------------------------------------------------------------------------

  /** Every object of `keep` is in use and needed by another, or itself, of `keep`. */
  ghost predicate Sustained(list: seq<Id>, objs: Objs, keep: set<Id>) {
    forall x :: x in keep ==> x in list && x in objs && objs[x].refcount > 0 && NeededIn(list, objs, keep, x)
  }

  ghost predicate NeededIn(list: seq<Id>, objs: Objs, keep: set<Id>, x: Id) {
    exists y :: y in keep && y in list && y in objs && x in objs[y].needed
  }

  /** Dropping a pending reference leaves such objects in use: another reference comes from among them. */
  lemma SustainedDrop(list: seq<Id>, objs: Objs, pins: map<Id, nat>, pending: multiset<Id>, keep: set<Id>, x: Id)
    requires Balanced(list, objs, pins, pending) && Sustained(list, objs, keep) && x in objs && pending[x] > 0
    ensures Sustained(list, objs[x := objs[x].(refcount := objs[x].refcount - 1)], keep)
  {
    var objs' := objs[x := objs[x].(refcount := objs[x].refcount - 1)];
    hide NeededIn, Balanced;
    forall z | z in keep
      ensures z in list && z in objs' && objs'[z].refcount > 0 && NeededIn(list, objs', keep, z)
    {
      StillSustained(list, objs, pins, pending, keep, x, z);
    }
  }

  lemma StillSustained(list: seq<Id>, objs: Objs, pins: map<Id, nat>, pending: multiset<Id>, keep: set<Id>, x: Id,
                       z: Id)
    requires Balanced(list, objs, pins, pending) && Sustained(list, objs, keep) && x in objs && pending[x] > 0
    requires z in keep
    ensures var objs' := objs[x := objs[x].(refcount := objs[x].refcount - 1)];
            z in list && z in objs' && objs'[z].refcount > 0 && NeededIn(list, objs', keep, z)
  {
    hide NeededIn, Balanced;
    assert NeededIn(list, objs, keep, z);
    NeededIsCounted(list, objs, pins, pending, keep, z);
    hide Sustained;
    NeededInFrame(list, objs, objs[x := objs[x].(refcount := objs[x].refcount - 1)], keep, z);
  }

  lemma NeededInFrame(list: seq<Id>, objs: Objs, objs': Objs, keep: set<Id>, z: Id)
    requires NeededIn(list, objs, keep, z)
    requires objs'.Keys == objs.Keys && forall y :: y in objs ==> objs'[y].needed == objs[y].needed
    ensures NeededIn(list, objs', keep, z)
  {}

  lemma NeededIsCounted(list: seq<Id>, objs: Objs, pins: map<Id, nat>, pending: multiset<Id>, keep: set<Id>, z: Id)
    requires Balanced(list, objs, pins, pending) && z in list && NeededIn(list, objs, keep, z)
    requires forall y :: y in keep && y in objs ==> objs[y].refcount > 0
    ensures z in objs && objs[z].refcount > pending[z]
  {
    var y :| y in keep && y in list && y in objs && z in objs[y].needed;
    LiveRefsAtLeast(list, objs, y, z);
    assert Counted(list, objs, pins, pending, z);
  }

  /** The objects on cycles of objects in use. */
  ghost function CycleSet(s: St): set<Id> { set x | x in s.list && InCycle(s, x) }

  ghost predicate InCycle(s: St, x: Id) { exists p :: Cycle(s, p) && x in p }

  ghost predicate Cycle(s: St, p: seq<Id>) { NeedChain(s, p) && |p| > 1 && p[0] == p[|p| - 1] && InUse(s, p) }

  lemma CyclesSustained(s: St)
    ensures Sustained(s.list, s.objs, CycleSet(s))
  {
    var keep := CycleSet(s);
    forall x | x in keep ensures x in s.objs && s.objs[x].refcount > 0 && NeededIn(s.list, s.objs, keep, x) {
      var p :| Cycle(s, p) && x in p;
      var k :| 0 <= k < |p| && p[k] == x;
      var y := p[if k == 0 then |p| - 2 else k - 1];
      assert y in p && InCycle(s, y);
      assert x in s.objs[y].needed by { assert x == p[if k == 0 then |p| - 1 else k]; }
    }
  }

  /**
   What the drop of one reference leaves in use, on any graph: what handles, pins and cycles
   lead to, as seen before the drop.
   */
  lemma LiveIffWasAnchored(w: World, self: Id, s: St, mid: St, o: Id)
    requires mid == s.(objs := mid.objs) && OnlyCounts(s.objs, mid.objs) && o in s.list
    requires forall x :: x in s.list && x in s.objs ==> mid.objs[x].refcount <= s.objs[x].refcount
    requires Shape(w, mid.list, self, mid.objs) && Balanced(mid.list, mid.objs, mid.pins, multiset{})
    requires Sustained(mid.list, mid.objs, CycleSet(s))
    ensures mid.objs[o].refcount > 0 <==> Anchored(s, o)
  {
    LiveIffAnchored(w, self, mid, o);
    ReachableCounts(s, mid, o);
    hide Reachable;
    if Anchored(mid, o) && !Reachable(mid, o) {
      var p :| NeedChain(mid, p) && p[|p| - 1] == o && OnCycle(mid, p[0]);
      var q :| NeedChain(mid, q) && |q| > 1 && q[0] == p[0] && q[|q| - 1] == p[0] && InUse(mid, q);
      ChainCountsOnly(s, mid, p);
      ChainCountsOnly(s, mid, q);
      assert OnCycle(s, p[0]);
    }
    if Anchored(s, o) && !Reachable(s, o) {
      var p :| NeedChain(s, p) && p[|p| - 1] == o && OnCycle(s, p[0]);
      var q :| NeedChain(s, q) && |q| > 1 && q[0] == p[0] && q[|q| - 1] == p[0] && InUse(s, q);
      assert Cycle(s, q) && p[0] in q;
      assert p[0] in CycleSet(s);
      ChainCountsOnly(s, mid, p);
      ChainLive(w, self, mid, p);
    }
  }

  lemma ChainCountsOnly(s: St, mid: St, p: seq<Id>)
    requires mid == s.(objs := mid.objs) && OnlyCounts(s.objs, mid.objs)
    requires forall x :: x in s.list && x in s.objs ==> mid.objs[x].refcount <= s.objs[x].refcount
    ensures NeedChain(s, p) <==> NeedChain(mid, p)
    ensures NeedChain(s, p) && InUse(mid, p) ==> InUse(s, p)
  {}

  /** The listed objects that nothing will lead to. */
  ghost function Dying(s: St): set<Id> { set x | x in s.list && !Anchored(s, x) }

  /** The needed entries naming o in listed objects of `gone`. */
  function LostRefs(list: seq<Id>, objs: Objs, gone: set<Id>, o: Id): nat {
    if list == [] then 0
    else
      var x := list[|list| - 1];
      LostRefs(list[..|list| - 1], objs, gone, o) + if x in gone && x in objs then multiset(objs[x].needed)[o] else 0
  }

  lemma {:induction false} LostIsDifference(list: seq<Id>, objs: Objs, objs': Objs, gone: set<Id>, o: Id)
    requires OnlyCounts(objs, objs') && forall x :: x in list ==> x in objs && objs[x].refcount != 0
    requires forall x :: x in list ==> (x in gone <==> objs'[x].refcount == 0)
    ensures LiveRefs(list, objs, o) == LiveRefs(list, objs', o) + LostRefs(list, objs, gone, o)
  {
    if list != [] {
      var front := list[..|list| - 1];
      assert list == front + [list[|list| - 1]];
      LostIsDifference(front, objs, objs', gone, o);
    }
  }

  /** How many references to the linker's own entry go when the pending reference to root is dropped. */
  ghost function Lost(self: Id, s: St, root: Id): nat {
    LostRefs(s.list, s.objs, Dying(s), self) + if root == self then 1 else 0
  }

  /** More of them than its count. */
  ghost predicate MeetsZero(self: Id, s: St, root: Id) {
    self in s.objs && Lost(self, s, root) > 0 && Lost(self, s, root) > s.objs[self].refcount
  }

  /** What giving up a reference to root does to the book, told from the state before. */
  ghost predicate GivesUpBook(self: Id, s: St, root: Id, b: Book, b': Book) {
    b' == b.(drops := b.drops + Lost(self, s, root), zeroMet := b.zeroMet || MeetsZero(self, s, root))
  }

  lemma DropsAreLost(self: Id, s: St, mid: St, b: Book, b': Book, root: Id)
    requires NoDuplicates(s.list) && mid == s.(objs := mid.objs) && OnlyCounts(s.objs, mid.objs)
    requires (forall x :: x in s.list ==> x in s.objs && s.objs[x].refcount > 0 && mid.objs[x].refcount >= 0)
    requires forall x :: x in s.list ==> (mid.objs[x].refcount > 0 <==> Anchored(s, x))
    requires Accounted(self, s.list, s.objs, s.pins, b, multiset{root})
    requires Accounted(self, mid.list, mid.objs, mid.pins, b', multiset{}) && DropsBook(b, b', s.pins[self])
    ensures GivesUpBook(self, s, root, b, b')
  {
    hide Anchored;
    LostIsDifference(s.list, s.objs, mid.objs, Dying(s), self);
  }

  /**
   The assertions of _rtld_unload_object on a root whose count is zero fail: for a listed root
   exactly if it is nodelete but nothing pins it, for the linker's own entry if it is open or pinned.
   */
  ghost predicate UnloadBreaks(self: Id, s: St, root: Id)
    requires root in s.objs
  {
    if root in s.list then s.objs[root].zNodelete && !Anchored(s, root)
    else s.objs[root].refcount == 1 && (s.objs[root].dlRefcount > 0 || s.objs[root].zNodelete || s.objs[root].refNodel)
  }

  /** The assertions, as the code tests them. */
  predicate Finished(ob: Obj) { ob.dlRefcount == 0 && !ob.zNodelete && !ob.refNodel }

  lemma BreaksIfNodelete(w: World, self: Id, s: St, mid: St, root: Id)
    requires Sound(w, self, s, multiset{root}) && root in s.objs
    requires root in s.list ==> mid == s.(objs := mid.objs)
    requires OnlyCounts(s.objs, mid.objs) && (root == self ==> mid.objs[root].refcount == s.objs[root].refcount - 1)
    requires root in s.list ==>
               mid.objs[root].refcount >= 0 && (mid.objs[root].refcount > 0 <==> Anchored(s, root))
    ensures mid.objs[root].refcount == 0 && !Finished(mid.objs[root]) <==> UnloadBreaks(self, s, root)
  {
    hide Shape, Balanced;
    SoundBasics(w, self, s, multiset{root});
    if root in s.list && (s.objs[root].dlRefcount > 0 || s.objs[root].refNodel) {
      assert HeldChain(s, [root]);
      assert [root][|[root]| - 1] == root;
      assert Reachable(s, root);
    }
  }

  /** What dropping the reference to root does, told from the state before. */
  lemma Dropped(w: World, self: Id, s: St, mid: St, b: Book, b': Book, root: Id)
    requires Sound(w, self, s, multiset{root}) && root in s.objs
    requires mid == s.(objs := mid.objs) && OnlyCounts(s.objs, mid.objs)
    requires forall x :: x in s.list && x in s.objs ==> mid.objs[x].refcount <= s.objs[x].refcount
    requires root == self ==> mid.objs[root].refcount == s.objs[root].refcount - 1
    requires Shape(w, mid.list, self, mid.objs) && Balanced(mid.list, mid.objs, mid.pins, multiset{})
    requires Sustained(mid.list, mid.objs, CycleSet(s)) && Accounted(self, s.list, s.objs, s.pins, b, multiset{root})
    requires Accounted(self, mid.list, mid.objs, mid.pins, b', multiset{}) && self in s.pins &&
             DropsBook(b, b', s.pins[self])
    ensures forall o :: o in s.list ==> (mid.objs[o].refcount > 0 <==> Anchored(s, o)) && mid.objs[o].refcount >= 0
    ensures GivesUpBook(self, s, root, b, b') && Tidy(mid.list, mid.objs, mid.pins, mid.next)
    ensures mid.objs[root].refcount == 0 && !Finished(mid.objs[root]) <==> UnloadBreaks(self, s, root)
  {
    hide Sound, Balanced, Shape, Tidy, Anchored, Accounted, Sustained, CycleSet, GivesUpBook, UnloadBreaks, DropsBook;
    SoundParts(w, self, s, multiset{root});
    SoundBasics(w, self, s, multiset{root});
    TidyCounts(s.list, s.objs, mid.objs, s.pins, s.next);
    CountsNotNegative(mid.list, mid.objs, mid.pins, multiset{});
    forall o | o in s.list ensures mid.objs[o].refcount > 0 <==> Anchored(s, o) {
      LiveIffWasAnchored(w, self, s, mid, o);
    }
    DropsAreLost(self, s, mid, b, b', root);
    BreaksIfNodelete(w, self, s, mid, root);
  }

  /** ... when the sweep follows, because nothing refers to root any more, */
  lemma DroppedSwept(w: World, self: Id, s: St, mid: St, b: Book, b': Book, root: Id)
    requires Recorded(w, self, s, b, multiset{root}) && (root == self ==> Used(b)) && self in s.pins &&
             DropsBook(b, b', s.pins[self])
    requires mid == s.(objs := mid.objs) && OnlyCounts(s.objs, mid.objs) && root in mid.objs
    requires Shape(w, mid.list, self, mid.objs) && Balanced(mid.list, mid.objs, mid.pins, multiset{}) &&
             Tidy(mid.list, mid.objs, mid.pins, mid.next)
    requires Accounted(self, mid.list, mid.objs, mid.pins, b', multiset{}) && mid.objs[root].refcount == 0
    requires forall o :: o in s.list ==> (mid.objs[o].refcount > 0 <==> Anchored(s, o)) && mid.objs[o].refcount >= 0
    ensures Sound(w, self, Swept(mid), multiset{}) && BookOk(w, self, Swept(mid), b', multiset{})
    ensures Unloaded(s, Swept(mid)) && MainKept(s, Swept(mid)) && root !in Swept(mid).list
    ensures forall o :: o in s.list ==> (o in Swept(mid).list <==> Anchored(s, o))
  {
    hide Sound, Balanced, Shape, Tidy, OnlyCounts, Unloaded, Swept, Anchored, Accounted, Recorded, BookOk, MainKept;
    SweptSound(w, self, mid);
    UnloadedSwept(w, self, s, mid);
    BookSwept(w, self, s, mid, b, b', root);
  }

  /** ... and when it does not. */
  lemma DroppedOne(w: World, self: Id, s: St, mid: St, b: Book, b': Book, root: Id)
    requires Sound(w, self, s, multiset{root}) && Recorded(w, self, s, b, multiset{root}) && root in s.objs
    requires (root == self ==> Used(b)) && self in s.pins && DropsBook(b, b', s.pins[self])
    requires mid == s.(objs := s.objs[root := s.objs[root].(refcount := s.objs[root].refcount - 1)])
    requires Shape(w, mid.list, self, mid.objs) && Balanced(mid.list, mid.objs, mid.pins, multiset{}) &&
             Tidy(mid.list, mid.objs, mid.pins, mid.next)
    requires Accounted(self, mid.list, mid.objs, mid.pins, b', multiset{}) && mid.objs[root].refcount != 0
    ensures Sound(w, self, mid, multiset{}) && BookOk(w, self, mid, b', multiset{})
    ensures Unloaded(s, mid) && MainKept(s, mid) && forall o :: o in s.list ==> mid.objs[o].refcount > 0
  {
    OnlyCountsOne(s.objs, root, s.objs[root].refcount - 1);
    hide Sound, Balanced, Shape, Tidy, OnlyCounts, Unloaded, Accounted, Recorded, BookOk, MainKept;
    StillLive(w, self, s, mid, root);
    UnloadedOne(s, mid, root);
    BookUnswept(w, self, s, mid, b, b', root);
  }

  lemma AllAnchored(w: World, self: Id, s: St)
    requires Sound(w, self, s, multiset{})
    ensures forall o :: o in s.list ==> Anchored(s, o)
  {
    hide Anchored;
    forall o | o in s.list ensures Anchored(s, o) { LiveIffAnchored(w, self, s, o); }
  }

  lemma ReachableCounts(s: St, s': St, o: Id)
    requires s' == s.(objs := s'.objs) && OnlyCounts(s.objs, s'.objs)
    ensures Reachable(s, o) <==> Reachable(s', o)
  {}

  // ---- handles ----------------------------------------------------------------------------

  /** The state in which the handle was given up but the reference it stood for not yet dropped. */
  function Released(s: St, o: Id): St
    requires o in s.objs && s.objs[o].dlRefcount > 0
  {
    s.(objs := s.objs[o := s.objs[o].(dlRefcount := s.objs[o].dlRefcount - 1)])
  }

  /** Giving up a handle on root takes s to s': what stays is exactly what is anchored without that handle. */
  ghost predicate GaveUp(s: St, root: Id, s': St) {
    && root in s.objs && s.objs[root].dlRefcount > 0 && Unloaded(Released(s, root), s')
    && (root in s'.list ==> s'.list == s.list)
    && forall o :: o in s.list ==> (o in s'.list <==> Anchored(Released(s, root), o))
  }

  /** A call gives up no handle, or it gives up one on root in state s. */
  datatype GiveUp = NoGiveUp | GivenUp(s: St, root: Id)

  /** The handle given up costs the linker's own entry more references than it counts. */
  ghost predicate UpMeetsZero(self: Id, up: GiveUp) {
    up.GivenUp? && up.root in up.s.objs && up.s.objs[up.root].dlRefcount > 0 &&
    MeetsZero(self, Released(up.s, up.root), up.root)
  }

  ghost predicate UpBreaks(self: Id, up: GiveUp) {
    up.GivenUp? && up.root in up.s.objs && up.s.objs[up.root].dlRefcount > 0 &&
    UnloadBreaks(self, Released(up.s, up.root), up.root)
  }

  /** A dlopen that began in s0 and opened h in s loads objects and then gives h up again. */
  ghost predicate LoadsAndGivesUp(s0: St, s: St, up: GiveUp, h: Id, s': St) {
    up.GivenUp? && up.root == h && Loaded(s, up.s) && Handles(s0, up.s, h) && GaveUp(up.s, h, s')
  }

  lemma NothingGivenUp(self: Id)
    ensures !UpMeetsZero(self, NoGiveUp) && !UpBreaks(self, NoGiveUp)
    ensures !SomeMeetsZero(self, []) && !SomeBreaks(self, [])
  {}

  /** Whatever is open and must stay is pinned. */
  ghost predicate HandlesPinned(s: St) {
    forall o :: o in s.objs && s.objs[o].dlRefcount > 0 && s.objs[o].zNodelete ==> s.objs[o].refNodel
  }

  lemma PinnedByRelease(s: St, h: Id, s': St)
    requires HandlesPinned(s) && GaveUp(s, h, s')
    ensures HandlesPinned(s')
  {
    hide Anchored;
  }

  /** Closing a handle never unloads a nodelete root. */
  lemma NodeleteStays(w: World, self: Id, s: St, h: Id)
    requires Sound(w, self, s, multiset{}) && HandlesPinned(s) && h in s.list && h in s.objs &&
             s.objs[h].dlRefcount > 0
    ensures !UnloadBreaks(self, Released(s, h), h)
  {
    hide Shape, Balanced;
    if s.objs[h].zNodelete {
      assert HeldChain(Released(s, h), [h]);
      assert [h][|[h]| - 1] == h;
      assert Reachable(Released(s, h), h);
    }
  }

  lemma HandleChange(w: World, self: Id, s: St, pending: multiset<Id>, o: Id, n: nat, pending': multiset<Id>)
    requires Sound(w, self, s, pending) && o in s.objs
    requires n + pending'[o] == s.objs[o].dlRefcount + pending[o] && forall x :: x != o ==> pending'[x] == pending[x]
    ensures Sound(w, self, s.(objs := s.objs[o := s.objs[o].(dlRefcount := n)]), pending')
  {
    hide Shape, Balanced;
    HandleShape(w, self, s, pending, o, n);
    SoundBasics(w, self, s, pending);
    CountChange(s.list, s.objs, s.pins, pending, o, s.objs[o].(dlRefcount := n), s.pins, pending');
  }

  lemma HandleShape(w: World, self: Id, s: St, pending: multiset<Id>, o: Id, n: nat)
    requires Sound(w, self, s, pending) && o in s.objs
    ensures Shape(w, s.list, self, s.objs[o := s.objs[o].(dlRefcount := n)])
  {
    hide Balanced, Tidy, AllLive, AcyclicBelow, Resolves, WellFormed;
  }

  lemma ReleaseHandle(w: World, self: Id, s: St, o: Id)
    requires Sound(w, self, s, multiset{}) && o in s.objs && s.objs[o].dlRefcount > 0
    ensures Sound(w, self, Released(s, o), multiset{o})
  {
    hide Sound;
    HandleChange(w, self, s, multiset{}, o, s.objs[o].dlRefcount - 1, multiset{o});
  }

  lemma TakeHandle(w: World, self: Id, s: St, o: Id)
    requires Sound(w, self, s, multiset{o}) && o in s.objs
    ensures Sound(w, self, Taken(s, o), multiset{})
  {
    hide Sound;
    HandleChange(w, self, s, multiset{o}, o, s.objs[o].dlRefcount + 1, multiset{});
  }

  lemma GrownHandles(s: St, s': St, o: Id)
    requires Grown(s, s', o)
    ensures forall x :: x in s'.objs ==> s'.objs[x].dlRefcount == if x in s.objs then s.objs[x].dlRefcount else 0
    ensures forall x ::
              x in s.objs ==>
                x in s'.objs && s'.objs[x].key == s.objs[x].key && s'.objs[x].zNodelete == s.objs[x].zNodelete &&
                s'.objs[x].refNodel == s.objs[x].refNodel
    ensures s.list <= s'.list
  {}

  /** No handle but h changed, and h, unless NULL, was opened once more; what is open stays, with its marks. */
  ghost predicate Handles(s: St, s': St, h: Id) {
    && (forall o :: o in s'.objs ==>
          s'.objs[o].dlRefcount == (if o in s.objs then s.objs[o].dlRefcount else 0) + (if o == h then 1 else 0))
    && (forall o ::
          o in s.objs && s.objs[o].dlRefcount > 0 ==>
            && o in s'.objs && (s.objs[o].refNodel ==> s'.objs[o].refNodel)
            && (s'.objs[o].zNodelete ==> s.objs[o].zNodelete || s'.objs[o].refNodel))
  }

  /** The state with one more handle on h. */
  function Taken(s: St, h: Id): St
    requires h in s.objs
  {
    s.(objs := s.objs[h := s.objs[h].(dlRefcount := s.objs[h].dlRefcount + 1)])
  }

  lemma HandlesTaken(s: St, s': St, h: Id)
    requires Grown(s, s', h) && h in s'.objs
    ensures Handles(s, Taken(s', h), h)
  {
    GrownHandles(s, s', h);
    hide Grown;
  }

  lemma OpenedTaken(w: World, s: St, s': St, h: Id, name: Name, isMain: bool)
    requires h in s'.objs && Opened(w, s, s', h, name, isMain)
    ensures Opened(w, s, Taken(s', h), h, name, isMain)
  {}

  lemma KeepsTaken(s: St, s': St, h: Id)
    requires Grown(s, s', h) && h in s'.objs && s.list != [] && s.list[0] in s.objs
    ensures Keeps(s, Taken(s', h)) && MainKept(s, Taken(s', h))
  {}

  lemma NotTaken(s: St, s': St)
    requires Grown(s, s', NULL) && NULL !in s'.objs && s.list != [] && s.list[0] in s.objs
    ensures Handles(s, s', NULL) && Keeps(s, s') && MainKept(s, s')
  {
    GrownHandles(s, s', NULL);
  }

  lemma HandlesLoaded(s: St, s1: St, s2: St, h: Id)
    requires Handles(s, s1, h) && Loaded(s1, s2) && h in s1.objs
    ensures Handles(s, s2, h)
  {}

  lemma HandlesAbandoned(s: St, s1: St, s2: St, h: Id)
    requires Handles(s, s1, h) && h in s1.objs && s1.objs[h].dlRefcount > 0 && h != NULL && NULL !in s2.objs
    requires GaveUp(s1, h, s2)
    ensures Handles(s, s2, NULL)
  {
    hide Anchored;
  }

  /** What a dlopen does to the book; only a failed one drops references. */
  ghost predicate OpensBook(w: World, b: Book, b': Book, handle: Id, opens: bool, nodelete: bool) {
    && b'.opens == b.opens + (if opens then 1 else 0) && b.needers <= b'.needers &&
       (NoneNeedsLinker(w) ==> b'.needers == b.needers)
    && (handle != NULL ==> b'.drops == b.drops && b'.zeroMet == b.zeroMet)
    && (NoneStays(w) && !nodelete && !b.pinned ==> !b'.pinned)
  }

  ghost predicate HandleBook(b: Book, b': Book, opens: bool) {
    b' == b.(handed := b'.handed, opens := b.opens + if opens then 1 else 0)
  }

  ghost predicate PinsBook(w: World, b: Book, b': Book, nodelete: bool) {
    b' == b || (b' == b.(pinned := true) && (NoneStays(w) && !nodelete ==> b.pinned))
  }

  lemma NotOpenedBook(w: World, b0: Book, b1: Book, opens: bool, nodelete: bool)
    requires HandleBook(b0, b1, opens)
    ensures OpensBook(w, b0, b1, NULL, opens, nodelete) && b1.zeroMet == b0.zeroMet
  {}

  lemma AbandonsBook(w: World, b0: Book, b1: Book, b3: Book, opens: bool, nodelete: bool)
    requires HandleBook(b0, b1, opens) && LoadsBook(w, b1, b3.(drops := b1.drops, zeroMet := b1.zeroMet))
    ensures OpensBook(w, b0, b3, NULL, opens, nodelete) && b1.zeroMet == b0.zeroMet
  {}

  lemma OpenedLoaded(w: World, s0: St, s1: St, s2: St, handle: Id, name: Name, isMain: bool)
    requires Opened(w, s0, s1, handle, name, isMain) && Loaded(s1, s2) && handle in s1.objs
    ensures Opened(w, s0, s2, handle, name, isMain)
  {}

  lemma KeepsBook(w: World, b0: Book, b1: Book, b2: Book, b3: Book, opens: bool, nodelete: bool)
    requires HandleBook(b0, b1, opens) && LoadsBook(w, b1, b2) && PinsBook(w, b2, b3, nodelete)
    ensures b3.zeroMet == b0.zeroMet && forall handle :: OpensBook(w, b0, b3, handle, opens, nodelete)
  {}

  lemma LoadsZero(w: World, b: Book, b': Book)
    requires LoadsBook(w, b, b')
    ensures b'.zeroMet == b.zeroMet
  {}

  lemma AbandonedBook(w: World, self: Id, s: St, root: Id, b1: Book, b: Book, b': Book)
    requires LoadsBook(w, b1, b) && root in s.objs && s.objs[root].dlRefcount > 0
    requires GivesUpBook(self, Released(s, root), root, b, b')
    ensures LoadsBook(w, b1, b'.(drops := b1.drops, zeroMet := b1.zeroMet))
    ensures b'.zeroMet <==> b1.zeroMet || UpMeetsZero(self, GivenUp(s, root))
    ensures UpBreaks(self, GivenUp(s, root)) <==> UnloadBreaks(self, Released(s, root), root)
  {
    hide MeetsZero, UnloadBreaks, Lost;
  }

  lemma LoadedMain(s: St, s1: St, s2: St)
    requires MainKept(s, s1) && Loaded(s1, s2)
    ensures MainKept(s, s2)
  {}

  /** An object that dlopen pins has no cycles below it. */
  lemma PinAllowed(w: World, self: Id, s0: St, s: St, b: Book, handle: Id, name: Name, isMain: bool, nodelete: bool)
    requires (nodelete ==> MayPin(w, s0, name, isMain)) && Opened(w, s0, s, handle, name, isMain)
    requires Sound(w, self, s, multiset{}) && BookOk(w, self, s, b, multiset{}) && handle in s.objs &&
             (nodelete || s.objs[handle].zNodelete)
    ensures AcyclicBelow(w, s.objs[handle].key) && (NoneStays(w) && !nodelete ==> b.pinned)
  {
    hide AcyclicBelow;
    if s.objs[handle].zNodelete {
      NodeleteBelow(w, self, s, handle);
      BookStays(w, self, s, b, handle);
    }
  }

  /** What RTLD_NODELETE asks of the file that a call opens. */
  ghost predicate MayPin(w: World, s: St, name: Name, isMain: bool) {
    s.list != [] && s.list[0] in s.objs &&
    var main := s.objs[s.list[0]].key;
    (isMain ==> AcyclicBelow(w, main)) && ((main, name) in w.search ==> AcyclicBelow(w, w.search[(main, name)]))
  }

  /** File k is not loaded, and a dlopen may not load it. */
  ghost predicate Refused(w: World, s: St, k: Key, dlopen: bool, noload: bool) {
    && k in w.files && k != w.linker && dlopen && (w.files[k].noopen || noload)
    && forall i :: 1 <= i < |s.list| ==> s.list[i] in s.objs && s.objs[s.list[i]].key != k
  }

  predicate Named(w: World, s: St, name: Name, i: nat) {
    i < |s.list| && s.list[i] in s.objs && s.objs[s.list[i]].key in w.files &&
    name in w.files[s.objs[s.list[i]].key].names
  }

  /**
   What a needed name is bound to: the first object behind the main program with that name,
   else the file that the library search finds.
   */
  ghost predicate BindsTo(w: World, s: St, from: Key, name: Name, o: Id, key: Key) {
    || (exists i ::
          1 <= i < |s.list| && Named(w, s, name, i) && s.list[i] == o &&
          forall j :: 1 <= j < i ==> !Named(w, s, name, j))
    || ((from, name) in w.search && w.search[(from, name)] == key &&
        forall j :: 1 <= j < |s.list| ==> !Named(w, s, name, j))
  }

  /** Every needed name can be found, and what is found may be loaded. */
  ghost predicate Complete(w: World) {
    forall k, name :: k in w.files && name in w.files[k].needed ==>
      (k, name) in w.search && w.search[(k, name)] in w.files && !w.files[w.search[(k, name)]].noopen
  }

  /** A needed name can be bound: a listed object has it, or the search finds a file that may be loaded. */
  ghost predicate Bindable(w: World, s: St, from: Key, name: Name, dlopen: bool) {
    || (exists i :: 1 <= i < |s.list| && Named(w, s, name, i))
    || ((from, name) in w.search && !Refused(w, s, w.search[(from, name)], dlopen, false))
  }

  /** Every needed name can be found; at startup that is enough. */
  ghost predicate AllFound(w: World) {
    forall k, name :: k in w.files && name in w.files[k].needed ==> (k, name) in w.search
  }

  /** The files let every entry be bound, in a dlopen or at startup. */
  ghost predicate Suffices(w: World, main: bool) { if main then AllFound(w) else Complete(w) }

  /** Entry k of x can be bound. */
  ghost predicate EntryBindable(w: World, s: St, x: Id, k: nat, dlopen: bool) {
    && x in s.objs && s.objs[x].key in w.files && k < |w.files[s.objs[x].key].needed|
    && Bindable(w, s, s.objs[x].key, w.files[s.objs[x].key].needed[k], dlopen)
  }

  lemma SufficesEntry(w: World, self: Id, s: St, x: Id, k: nat, main: bool)
    requires Sound(w, self, s, multiset{}) && x in s.list && x in s.objs && k < |s.objs[x].needed|
    ensures Suffices(w, main) ==> EntryBindable(w, s, x, k, !main)
  {
    EntryNames(w, self, s, x);
    hide Sound, Suffices, Bindable;
    if Suffices(w, main) { SufficesBinds(w, s, s.objs[x].key, w.files[s.objs[x].key].needed[k], main); }
  }

  lemma SufficesBinds(w: World, s: St, from: Key, name: Name, main: bool)
    requires Suffices(w, main) && from in w.files && name in w.files[from].needed
    ensures Bindable(w, s, from, name, !main)
  {}

  predicate AllBound(ob: Obj) { forall k :: 0 <= k < |ob.needed| ==> ob.needed[k] != NULL }

  /**
   The first k entries, as far as bound since the object was `before`: those naming nodelete
   objects are marked as pinned.
   */
  ghost predicate NewPinned(before: Obj, now: Obj, objs: Objs, k: nat) {
    |before.needed| == |now.needed| &&
    forall j :: 0 <= j < k && j < |now.needed| && before.needed[j] == NULL && now.needed[j] in objs ==>
      (objs[now.needed[j]].zNodelete ==> objs[now.needed[j]].refNodel)
  }

  lemma NonePinned(ob: Obj, objs: Objs)
    ensures NewPinned(ob, ob, objs, 0)
  {}

  lemma PinnedNext(ob: Obj, s: St, s': St, x: Id, k: nat)
    requires Loaded(s, s') && x in s.objs && x in s'.objs && k < |s.objs[x].needed| &&
             NewPinned(ob, s.objs[x], s.objs, k)
    requires |s'.objs[x].needed| == |s.objs[x].needed| && s.objs[x].needed[k] == ob.needed[k]
    requires forall j :: 0 <= j < k ==> s'.objs[x].needed[j] == s.objs[x].needed[j] && s.objs[x].needed[j] in s.objs
    requires ob.needed[k] == NULL && s'.objs[x].needed[k] in s'.objs ==>
               (s'.objs[s'.objs[x].needed[k]].zNodelete ==> s'.objs[s'.objs[x].needed[k]].refNodel)
    ensures NewPinned(ob, s'.objs[x], s'.objs, k + 1)
  {}

  lemma LoadedFlags(s: St, s': St, x: Id)
    requires Loaded(s, s') && x in s.objs
    ensures x in s'.objs && (!s'.objs[x].refNodel ==> !s.objs[x].refNodel)
  {}

  lemma BoundKnown(w: World, self: Id, s: St, x: Id, k: nat)
    requires Sound(w, self, s, multiset{}) && x in s.objs && k < |s.objs[x].needed| && s.objs[x].needed[k] != NULL
    ensures s.objs[x].needed[k] in s.objs
  {}

  lemma NeededListed(w: World, self: Id, s: St, x: Id)
    requires Sound(w, self, s, multiset{}) && x in s.objs
    ensures forall j :: 0 <= j < |s.objs[x].needed| && s.objs[x].needed[j] != NULL ==> s.objs[x].needed[j] in s.objs
  {}

  /** Every object from position i to before j of the list has all its needed entries bound. */
  ghost predicate BoundBetween(s: St, i: nat, j: nat) {
    forall k :: i <= k < j && k < |s.list| ==> s.list[k] in s.objs && AllBound(s.objs[s.list[k]])
  }

  /** The handle is the main program, or an object made from the file that the search finds. */
  ghost predicate Opened(w: World, s: St, s': St, handle: Id, name: Name, isMain: bool) {
    if isMain then
      && s.list != [] && handle == s.list[0] && handle in s.objs && handle in s'.objs
      && s'.objs[handle].key == s.objs[handle].key
    else
      && s.list != [] && s.list[0] in s.objs && (s.objs[s.list[0]].key, name) in w.search
      && handle in s'.objs && s'.objs[handle].key == w.search[(s.objs[s.list[0]].key, name)]
  }

  lemma BoundKept(s: St, s': St)
    requires Loaded(s, s') && s'.list == s.list
    ensures forall i :: BoundBetween(s, i, |s.list|) ==> BoundBetween(s', i, |s.list|)
  {}

  lemma NothingBetween(s: St, i: nat)
    ensures BoundBetween(s, i, i)
  {}

  lemma BoundAt(s: St, i: nat)
    requires BoundBetween(s, 0, |s.list|) && i < |s.list|
    ensures s.list[i] in s.objs && AllBound(s.objs[s.list[i]])
  {}

  lemma LoadedPrefix(s: St, s': St)
    requires Loaded(s, s')
    ensures s.list <= s'.list
  {}

  lemma BoundNext(s: St, s': St, i: nat, j: nat)
    requires BoundBetween(s, i, j) && Loaded(s, s') && j < |s.list| && s.list[j] in s'.objs &&
             AllBound(s'.objs[s.list[j]])
    ensures BoundBetween(s', i, j + 1)
  {}

  /** The name leads dlopen to the linker itself. */
  ghost predicate OpensLinker(w: World, s: St, name: Name, isMain: bool) {
    !isMain && s.list != [] && s.list[0] in s.objs && (s.objs[s.list[0]].key, name) in w.search &&
    w.search[(s.objs[s.list[0]].key, name)] == w.linker
  }

  /** dlopen of this name finds something to open. */
  ghost predicate Openable(w: World, s: St, name: Name, isMain: bool, noload: bool) {
    isMain || (s.list != [] && s.list[0] in s.objs && (s.objs[s.list[0]].key, name) in w.search &&
               !Refused(w, s, w.search[(s.objs[s.list[0]].key, name)], true, noload))
  }

  /** One call by the program. */
  datatype Call =
    | Open(name: Name, isMain: bool, noload: bool, nodelete: bool, relocPending: bool, relocated: bool)
    | Close(handle: Id)

  /** One call takes s to s', giving up the handle `up`. */
  ghost predicate CallStep(w: World, s: St, s': St, call: Call, up: GiveUp) {
    match call
    case Close(h) =>
      if h in s.list && h in s.objs && s.objs[h].dlRefcount > 0 then up == GivenUp(s, h) && GaveUp(s, h, s')
      else up == NoGiveUp && s' == s
    case Open(_, _, _, _, _, _) => exists handle :: OpenStep(w, s, s', call, up, handle)
  }

  /** Objects stay, and so do the entries that are bound. */
  ghost predicate Keeps(s: St, s': St) {
    && s.list <= s'.list
    && forall o :: o in s.objs ==>
         && o in s'.objs && s'.objs[o].key == s.objs[o].key && |s'.objs[o].needed| == |s.objs[o].needed|
         && forall k :: 0 <= k < |s.objs[o].needed| && s.objs[o].needed[k] != NULL ==>
              s'.objs[o].needed[k] == s.objs[o].needed[k]
  }

  /** A dlopen that finds its object ends with a handle on it, or loads and gives the handle up again. */
  ghost predicate OpenStep(w: World, s: St, s': St, call: Call, up: GiveUp, handle: Id)
    requires call.Open?
  {
    && Handles(s, s', handle) && (handle == NULL || up == NoGiveUp) && (up == NoGiveUp ==> Keeps(s, s'))
    && (handle != NULL || up.GivenUp? <==> Openable(w, s, call.name, call.isMain, call.noload))
    && (handle != NULL ==> Opened(w, s, s', handle, call.name, call.isMain))
    && (up.GivenUp? ==>
          && Opened(w, s, up.s, up.root, call.name, call.isMain) && Handles(s, up.s, up.root)
          && GaveUp(up.s, up.root, s')
          && call.relocPending && !(call.relocated && Complete(w)))
  }

  /** The states between the calls, and the handles that they give up. */
  ghost predicate Trace(w: World, s: St, trace: seq<St>, calls: seq<Call>, ups: seq<GiveUp>) {
    && |trace| == |calls| + 1 && |ups| == |calls| && trace[0] == s
    && forall i :: 0 <= i < |calls| ==> CallStep(w, trace[i], trace[i + 1], calls[i], ups[i])
  }

  lemma TraceNext(w: World, s: St, trace: seq<St>, calls: seq<Call>, i: nat, ups: seq<GiveUp>, s': St, up: GiveUp)
    requires i < |calls| && Trace(w, s, trace, calls[..i], ups) && CallStep(w, trace[i], s', calls[i], up)
    ensures Trace(w, s, trace + [s'], calls[..i + 1], ups + [up])
  {
    hide CallStep;
  }

  /** After every call, whatever is open and must stay is pinned. */
  lemma KeepsLoaded(s: St, s1: St, s2: St)
    requires Keeps(s, s1) && Loaded(s1, s2)
    ensures Keeps(s, s2)
  {}

  lemma PinnedByOpen(w: World, s: St, s': St, call: Call, up: GiveUp, handle: Id)
    requires HandlesPinned(s) && call.Open? && OpenStep(w, s, s', call, up, handle)
    requires handle in s'.objs && s'.objs[handle].zNodelete ==> s'.objs[handle].refNodel
    ensures HandlesPinned(s')
  {
    hide Opened, Openable, GaveUp, Complete;
  }

  lemma NotOpenedStep(w: World, s: St, s': St, call: Call)
    requires call.Open? && Handles(s, s', NULL) && !Openable(w, s, call.name, call.isMain, call.noload) && Keeps(s, s')
    ensures OpenStep(w, s, s', call, NoGiveUp, NULL)
  {
    hide Handles, Openable, Opened, Keeps;
  }

  lemma AbandonedStep(w: World, s: St, s': St, call: Call, up: GiveUp)
    requires call.Open? && Handles(s, s', NULL) && Openable(w, s, call.name, call.isMain, call.noload)
    requires up.GivenUp? && Opened(w, s, up.s, up.root, call.name, call.isMain) && Handles(s, up.s, up.root)
    requires GaveUp(up.s, up.root, s') && call.relocPending && !(call.relocated && Complete(w))
    ensures OpenStep(w, s, s', call, up, NULL)
  {
    hide Handles, Openable, Opened, Complete, GaveUp;
  }

  lemma OpenedStep(w: World, s: St, s': St, call: Call, handle: Id)
    requires call.Open? && Handles(s, s', handle) && Openable(w, s, call.name, call.isMain, call.noload)
    requires handle != NULL && Opened(w, s, s', handle, call.name, call.isMain) && Keeps(s, s')
    ensures OpenStep(w, s, s', call, NoGiveUp, handle)
  {
    hide Handles, Openable, Opened, Keeps;
  }

  ghost predicate SomeMeetsZero(self: Id, ups: seq<GiveUp>) {
    exists i :: 0 <= i < |ups| && UpMeetsZero(self, ups[i])
  }

  ghost predicate SomeBreaks(self: Id, ups: seq<GiveUp>) {
    exists i :: 0 <= i < |ups| && UpBreaks(self, ups[i])
  }

  lemma SomeNext(self: Id, ups: seq<GiveUp>, up: GiveUp)
    ensures SomeMeetsZero(self, ups + [up]) <==> SomeMeetsZero(self, ups) || UpMeetsZero(self, up)
    ensures SomeBreaks(self, ups + [up]) <==> SomeBreaks(self, ups) || UpBreaks(self, up)
  {
    hide UpMeetsZero, UpBreaks;
    var all := ups + [up];
    assert all[|ups|] == up && forall i :: 0 <= i < |ups| ==> all[i] == ups[i];
  }

  lemma FirstSound(w: World, mainKey: Key)
    requires WellFormed(w) && mainKey in w.files
    ensures Sound(w, 2, St([1], FirstObjs(w, mainKey), map[1 := 1, 2 := 1], 3), multiset{})
  {
    var objs := FirstObjs(w, mainKey);
    forall o | o in objs ensures Entries(w, [1], 2, objs, objs[o]) {}
    assert Shape(w, [1], 2, objs) by { hide AcyclicBelow; }
    assert 1 !in objs[1].needed;
    NoRefs([1], objs, 1);
    assert Counted([1], objs, map[1 := 1, 2 := 1], multiset{}, 1);
    hide Shape, Counted;
  }

  function FirstObjs(w: World, mainKey: Key): Objs
    requires mainKey in w.files
  {
    map[1 := NewObj(w, mainKey), 2 := Obj(w.linker, 1, 0, [], false, false)]
  }

  lemma FirstBook(w: World, mainKey: Key)
    requires mainKey in w.files
    ensures BookOk(w, 2, St([1], FirstObjs(w, mainKey), map[1 := 1, 2 := 1], 3), Book(0, 0, false, 0, {}, false),
                   multiset{})
  {
    assert 2 !in FirstObjs(w, mainKey)[1].needed;
    NoRefs([1], FirstObjs(w, mainKey), 2);
  }

  ghost predicate CallOpensLinker(w: World, s: St, call: Call) {
    call.Open? && OpensLinker(w, s, call.name, call.isMain)
  }

  lemma MainStays(w: World, self: Id, s: St)
    requires Sound(w, self, s, multiset{})
    ensures MainKept(s, s)
  {}

  lemma MainKeptTransitive(a: St, b: St, c: St)
    requires MainKept(a, b) && MainKept(b, c)
    ensures MainKept(a, c)
  {}

  lemma SameMain(w: World, s: St, s': St, name: Name, isMain: bool)
    requires MainKept(s, s')
    ensures MayPin(w, s, name, isMain) <==> MayPin(w, s', name, isMain)
    ensures OpensLinker(w, s, name, isMain) <==> OpensLinker(w, s', name, isMain)
  {
    hide AcyclicBelow;
  }

  /** Reference conservation: between calls, count = open handles + pins + needed entries of objects in use. */
  lemma Conserved(w: World, self: Id, s: St)
    requires Sound(w, self, s, multiset{})
    ensures forall o ::
              o in s.list ==>
                o in s.objs && o in s.pins && s.objs[o].refcount > 0 && Counted(s.list, s.objs, s.pins, multiset{}, o)
  {}

  /**
   The linker's own entry is the exception: _rtld_load_object hands it out without counting.
   Its count is conserved if and only if no call ever opens it and no object ever got a needed
   entry bound to it.
   */
  lemma LinkerEntryConserved(w: World, self: Id, s: St, b: Book)
    requires BookOk(w, self, s, b, multiset{})
    ensures self in s.objs && self in s.pins
    ensures Counted(s.list, s.objs, s.pins, multiset{}, self) <==> b.opens == 0 && b.needers == {}
  {}

  /** A linker that nobody opens or needs is never dropped at all. */
  lemma UnusedNeverZero(w: World, self: Id, s: St, b: Book)
    requires BookOk(w, self, s, b, multiset{}) && b.opens == 0 && b.needers == {}
    ensures b.drops == 0 && !b.zeroMet
  {}
}

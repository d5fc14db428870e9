/**
 Searching many objects for a symbol: object lists with strong and weak definitions, the
 default search order, and the search through the dependencies of an object, which may be
 cyclic (_rtld_donelist_check, _rtld_symlook_list, _rtld_symlook_needed,
 _rtld_symlook_default).
 */
module SymbolSearch {
  import opened Options

  type Id = nat                                 // an object; 0 is NULL
  const NULL: Id := 0

  datatype Sym = Sym(num: nat, weak: bool)

  /** A definition and the object it was found in. */
  datatype Def = Def(sym: Sym, obj: Id)

  /** What _rtld_symlook_obj returns for the name, flags and version of one search. */
  type Finder = Id -> Option<Sym>

  function DefIn(find: Finder, o: Id): Option<Def> {
    match find(o) case None => None case Some(s) => Some(Def(s, o))
  }

  predicate Strong(d: Option<Def>) { d.Some? && !d.value.sym.weak }

  // ---- lists of objects already searched ----------------------------------------------------

  /** A DoneList: an array of num_alloc slots of which the first num_used are filled. */
  class DoneList {
    const alloc: nat
    var objs: seq<Id>

    ghost predicate Valid()
      reads this
    {
      |objs| <= alloc && NoDuplicates(objs)
    }

    constructor (alloc: nat)
      ensures Valid() && objs == [] && this.alloc == alloc
    {
      this.alloc := alloc;
      objs := [];
    }

    /** _rtld_donelist_check: whether o is listed; if not, it is added as long as there is room. */
    method Check(o: Id) returns (listed: bool)
      requires Valid()
      modifies this
      ensures Valid() && listed == (o in old(objs))
      ensures objs == if listed || |old(objs)| == alloc then old(objs) else old(objs) + [o]
    {
      for i := 0 to |objs|
        invariant objs == old(objs) && o !in objs[..i]
      {
        if objs[i] == o { return true; }
      }
      if |objs| < alloc { objs := objs + [o]; }
      listed := false;
    }
  }

  ghost predicate NoDuplicates(s: seq<Id>) { forall i, j :: 0 <= i < j < |s| ==> s[i] != s[j] }

  /** The list after all of `list` was checked in turn. */
  function Fill(objs: seq<Id>, alloc: nat, list: seq<Id>): seq<Id> {
    if list == [] then objs
    else
      var f, o := Fill(objs, alloc, list[..|list| - 1]), list[|list| - 1];
      if o in f || |f| >= alloc then f else f + [o]
  }

  lemma FillNext(objs: seq<Id>, alloc: nat, list: seq<Id>, o: Id)
    ensures var f := Fill(objs, alloc, list);
            Fill(objs, alloc, list + [o]) == if o in f || |f| >= alloc then f else f + [o]
  {
    assert (list + [o])[..|list|] == list;
  }

  lemma FillNothing(objs: seq<Id>, alloc: nat)
    ensures Fill(objs, alloc, []) == objs
  {}

  lemma {:induction false} FillConcat(objs: seq<Id>, alloc: nat, s: seq<Id>, t: seq<Id>)
    ensures Fill(Fill(objs, alloc, s), alloc, t) == Fill(objs, alloc, s + t)
  {
    if t == [] {
      assert s + t == s;
    } else {
      var n := |t| - 1;
      FillConcat(objs, alloc, s, t[..n]);
      assert s + t == s + t[..n] + [t[n]];
      FillNext(objs, alloc, s + t[..n], t[n]);
    }
  }

  /** The objects of a list without repetitions, in the order of their first appearance. */
  function Firsts(list: seq<Id>): seq<Id> {
    if list == [] then []
    else
      var f, o := Firsts(list[..|list| - 1]), list[|list| - 1];
      if o in f then f else f + [o]
  }

  /** A DoneList remembers the first `alloc` different objects that were checked, and no others. */
  lemma {:induction false} FillIs(alloc: nat, list: seq<Id>)
    ensures Fill([], alloc, list) == if |Firsts(list)| <= alloc then Firsts(list) else Firsts(list)[..alloc]
    ensures forall o :: o in Firsts(list) <==> o in list
    ensures |Firsts(list)| <= |list|
  {
    if list != [] {
      FillIs(alloc, list[..|list| - 1]);
      assert list == list[..|list| - 1] + [list[|list| - 1]];
    }
  }

  // ---- what a search is for -------------------------------------------------------------------

  /** A later definition replaces an earlier one only if there was none, or if it is not weak. */
  function Prefer(old_: Option<Def>, new_: Option<Def>): Option<Def> {
    if new_.Some? && (old_.None? || Strong(new_)) then new_ else old_
  }

  /** The first non-weak definition in the list, otherwise the first weak one. */
  function Best(find: Finder, list: seq<Id>): Option<Def> {
    if list == [] then None
    else
      var best := Best(find, list[..|list| - 1]);
      if Strong(best) then best else Prefer(best, DefIn(find, list[|list| - 1]))
  }

  lemma {:induction false} BestMeaning(find: Finder, list: seq<Id>)
    ensures match Best(find, list)
            case None => forall o :: o in list ==> find(o).None?
            case Some(d) =>
              exists k :: 0 <= k < |list| && list[k] == d.obj && find(d.obj) == Some(d.sym) &&
                if d.sym.weak then
                  (forall o :: o in list ==> !Strong(DefIn(find, o))) &&
                  (forall j :: 0 <= j < k ==> find(list[j]).None?)
                else forall j :: 0 <= j < k ==> !Strong(DefIn(find, list[j]))
  {
    if list != [] {
      var n := |list| - 1;
      BestMeaning(find, list[..n]);
      assert list == list[..n] + [list[n]];
      assert forall o :: o in list <==> o in list[..n] || o == list[n];
    }
  }

  lemma BestNext(find: Finder, list: seq<Id>, o: Id)
    ensures var b := Best(find, list); Best(find, list + [o]) == if Strong(b) then b else Prefer(b, DefIn(find, o))
  {}

  lemma {:induction false} StrongStays(find: Finder, s: seq<Id>, t: seq<Id>)
    requires Strong(Best(find, s))
    ensures Best(find, s + t) == Best(find, s)
  {
    if t == [] {
      assert s + t == s;
    } else {
      var n := |t| - 1;
      assert s + t == s + t[..n] + [t[n]];
      StrongStays(find, s, t[..n]);
      BestNext(find, s + t[..n], t[n]);
    }
  }

  /** Searching an object again changes nothing. */
  lemma {:induction false} AgainIsVain(find: Finder, list: seq<Id>, o: Id)
    requires o in list
    ensures Best(find, list + [o]) == Best(find, list)
    ensures !Strong(Best(find, list)) ==> !Strong(DefIn(find, o)) && (find(o).Some? ==> Best(find, list).Some?)
  {
    BestNext(find, list, o);
    var n := |list| - 1;
    assert list == list[..n] + [list[n]];
    BestNext(find, list[..n], list[n]);
    if list[n] != o {
      assert o in list[..n];
      AgainIsVain(find, list[..n], o);
      if Strong(Best(find, list[..n])) { assert Best(find, list) == Best(find, list[..n]); }
    }
  }

  // ---- searching a list ------------------------------------------------------------------------

  /**
   _rtld_symlook_list.  `before` is what was searched so far without finding a strong
   definition; with what this search returns, the search of `before + list` is complete,
   whatever the capacity of the DoneList.
   */
  method SymlookList(find: Finder, list: seq<Id>, dl: DoneList, ghost before: seq<Id>) returns (def: Option<Def>)
    requires dl.Valid() && !Strong(Best(find, before)) && Within(dl.objs, before)
    modifies dl
    ensures dl.Valid() && Within(dl.objs, before + list)
    ensures Prefer(Best(find, before), def) == Best(find, before + list)
    ensures !Strong(def) ==> dl.objs == Fill(old(dl.objs), dl.alloc, list)
  {
    FillNothing(dl.objs, dl.alloc);
    ListStart(find, before, list);
    hide Best, Fill, Prefer, Within, NoDuplicates;
    def := None;
    for i := 0 to |list|
      invariant dl.Valid() && Within(dl.objs, before + list[..i])
      invariant Prefer(Best(find, before), def) == Best(find, before + list[..i]) && !Strong(def)
      invariant dl.objs == Fill(old(dl.objs), dl.alloc, list[..i])
    {
      var o := list[i];
      assert list[..i + 1] == list[..i] + [o];
      FillNext(old(dl.objs), dl.alloc, list[..i], o);
      ghost var objs := dl.objs;
      var listed := dl.Check(o);
      WithinNext(objs, dl.objs, before, list, i);
      ListTurn(find, before, list, i, def, listed);
      if !listed {
        var symp := find(o);
        if symp.Some? && (def.None? || !symp.value.weak) {
          def := Some(Def(symp.value, o));
          if !symp.value.weak { return; }
        }
      }
    }
    assert list[..|list|] == list;
  }

  /** Everything listed was searched. */
  ghost predicate Within(objs: seq<Id>, searched: seq<Id>) { forall o :: o in objs ==> o in searched }

  lemma ListStart(find: Finder, before: seq<Id>, list: seq<Id>)
    ensures before + list[..0] == before && Prefer(Best(find, before), None) == Best(find, before)
  {
    assert before + list[..0] == before;
  }

  lemma WithinNext(objs: seq<Id>, objs': seq<Id>, before: seq<Id>, list: seq<Id>, i: nat)
    requires i < |list| && Within(objs, before + list[..i]) && (objs' == objs || objs' == objs + [list[i]])
    ensures Within(objs', before + list[..i + 1]) && Within(objs', before + list)
    ensures list[i] in objs ==> list[i] in before + list[..i]
  {
    SplitAt(before, list, i);
  }

  /** One turn of the search of a list, told by values. */
  lemma ListTurn(find: Finder, before: seq<Id>, list: seq<Id>, i: nat, def: Option<Def>, listed: bool)
    requires i < |list| && !Strong(Best(find, before)) && !Strong(def) &&
             Prefer(Best(find, before), def) == Best(find, before + list[..i])
    requires listed ==> list[i] in before + list[..i]
    ensures var symp := find(list[i]);
            var def' := if !listed && symp.Some? && (def.None? || !symp.value.weak) then Some(Def(symp.value, list[i]))
                        else def;
            && Prefer(Best(find, before), def') == Best(find, before + list[..i + 1])
            && (Strong(def') ==> Prefer(Best(find, before), def') == Best(find, before + list))
  {
    var o, done, rest := list[i], before + list[..i], list[i + 1..];
    SplitAt(before, list, i);
    hide Best;
    if listed { AgainIsVain(find, done, o); } else { BestNext(find, done, o); }
    if Strong(Best(find, done + [o])) { StrongStays(find, done + [o], rest); }
  }

  lemma SplitAt(before: seq<Id>, list: seq<Id>, i: nat)
    requires i < |list|
    ensures before + list[..i + 1] == (before + list[..i]) + [list[i]]
    ensures before + list == (before + list[..i]) + [list[i]] + list[i + 1..]
  {}

  // ---- the default search ----------------------------------------------------------------------

  function Flatten(lists: seq<seq<Id>>): seq<Id> {
    if lists == [] then [] else Flatten(lists[..|lists| - 1]) + lists[|lists| - 1]
  }

  /** The objects in the order of the default search, before the two last resorts. */
  function SearchOrder(refobj: Id, symbolic: bool, main: seq<Id>, global_: seq<Id>, dags: seq<seq<Id>>): seq<Id> {
    (if symbolic then [refobj] else []) + main + global_ + Flatten(dags)
  }

  /** The last resorts: the referencing object, unless skipped, and the linker; each replaces a weak definition. */
  function LastResorts(find: Finder, refobj: Id, linker: Id, skip: bool, best: Option<Def>): Option<Def> {
    var d := if !Strong(best) && !skip && find(refobj).Some? then DefIn(find, refobj) else best;
    if !Strong(d) && find(linker).Some? then DefIn(find, linker) else d
  }

  /** The phases of _rtld_symlook_default that search lists, whatever the capacity of the DoneList. */
  method SymlookLists(find: Finder, refobj: Id, symbolic: bool, main: seq<Id>, global_: seq<Id>, dags: seq<seq<Id>>,
                      dl: DoneList)
    returns (def: Option<Def>)
    requires dl.Valid() && dl.objs == []
    modifies dl
    ensures dl.Valid() && def == Best(find, SearchOrder(refobj, symbolic, main, global_, dags))
    ensures Within(dl.objs, SearchOrder(refobj, symbolic, main, global_, dags))
    ensures !Strong(def) ==> dl.objs == Fill([], dl.alloc, SearchOrder(refobj, symbolic, main, global_, dags))
  {
    hide Best;
    def := None;
    ghost var order: seq<Id> := [];
    BestOfNothing(find);
    if symbolic {
      var listed := dl.Check(refobj);
      def := DefIn(find, refobj);
      BestNext(find, [], refobj);
      FillNext([], dl.alloc, [], refobj);
      assert [] + [refobj] == [refobj];
      order := [refobj];
    }
    def := Continue(find, main, dl, order, def);
    def := Continue(find, global_, dl, order + main, def);
    order := order + main + global_;
    assert order + Flatten(dags[..0]) == order;
    for i := 0 to |dags|
      invariant dl.Valid() && def == Best(find, order + Flatten(dags[..i]))
      invariant Within(dl.objs, order + Flatten(dags[..i]))
      invariant !Strong(def) ==> dl.objs == Fill([], dl.alloc, order + Flatten(dags[..i]))
    {
      assert dags[..i + 1][..i] == dags[..i];
      assert order + Flatten(dags[..i + 1]) == order + Flatten(dags[..i]) + dags[i];
      def := Continue(find, dags[i], dl, order + Flatten(dags[..i]), def);
    }
    assert dags[..|dags|] == dags;
  }

  /** One list phase: searched only while no strong definition is known. */
  method Continue(find: Finder, list: seq<Id>, dl: DoneList, ghost before: seq<Id>, def0: Option<Def>)
    returns (def: Option<Def>)
    requires dl.Valid() && def0 == Best(find, before) && Within(dl.objs, before)
    requires !Strong(def0) ==> dl.objs == Fill([], dl.alloc, before)
    modifies dl
    ensures dl.Valid() && def == Best(find, before + list) && Within(dl.objs, before + list)
    ensures !Strong(def) ==> dl.objs == Fill([], dl.alloc, before + list)
  {
    hide Best;
    def := def0;
    if Strong(def) {
      StrongStays(find, before, list);
    } else {
      FillConcat([], dl.alloc, before, list);
      var symp := SymlookList(find, list, dl, before);
      def := Prefer(def, symp);
    }
  }

  lemma BestOfNothing(find: Finder)
    ensures Best(find, []) == None
  {}

  // ---- which definition the default search prefers ---------------------------------------------------

  ghost predicate HasStrong(find: Finder, list: seq<Id>) { exists o :: o in list && Strong(DefIn(find, o)) }
  ghost predicate HasAny(find: Finder, list: seq<Id>) { exists o :: o in list && find(o).Some? }

  /** def is the first non-weak definition of the list. */
  ghost predicate FirstStrong(find: Finder, list: seq<Id>, def: Option<Def>) {
    exists k :: 0 <= k < |list| && def == DefIn(find, list[k]) && Strong(def) &&
                forall j :: 0 <= j < k ==> !Strong(DefIn(find, list[j]))
  }

  /** def is the first definition of the list. */
  ghost predicate FirstAny(find: Finder, list: seq<Id>, def: Option<Def>) {
    exists k :: 0 <= k < |list| && def == DefIn(find, list[k]) && def.Some? &&
                forall j :: 0 <= j < k ==> find(list[j]).None?
  }

  /**
   The order of preference: a non-weak definition in the referencing object, if it is linked
   symbolically, before one of the program, that before one of the RTLD_GLOBAL objects, and that
   before one of the DAGs, in their order.
   */
  ghost predicate Prefers(find: Finder, refobj: Id, symbolic: bool, main: seq<Id>, global_: seq<Id>,
                          dags: seq<seq<Id>>, def: Option<Def>) {
    if symbolic && Strong(DefIn(find, refobj)) then def == DefIn(find, refobj)
    else if HasStrong(find, main) then FirstStrong(find, main, def)
    else if HasStrong(find, global_) then FirstStrong(find, global_, def)
    else
      forall i ::
        0 <= i < |dags| && HasStrong(find, dags[i]) && (forall j :: 0 <= j < i ==> !HasStrong(find, dags[j])) ==>
          FirstStrong(find, dags[i], def)
  }

  /** Nothing non-weak in any of the lists. */
  ghost predicate AllWeak(find: Finder, refobj: Id, symbolic: bool, main: seq<Id>, global_: seq<Id>,
                          dags: seq<seq<Id>>) {
    && !(symbolic && Strong(DefIn(find, refobj))) && !HasStrong(find, main) && !HasStrong(find, global_)
    && forall i :: 0 <= i < |dags| ==> !HasStrong(find, dags[i])
  }

  /** The first weak definition, in the same order; none if the lists have none. */
  ghost predicate FallsBack(find: Finder, refobj: Id, symbolic: bool, main: seq<Id>, global_: seq<Id>,
                            dags: seq<seq<Id>>, def: Option<Def>) {
    if symbolic && find(refobj).Some? then def == DefIn(find, refobj)
    else if HasAny(find, main) then FirstAny(find, main, def)
    else if HasAny(find, global_) then FirstAny(find, global_, def)
    else
      && (forall i ::
            0 <= i < |dags| && HasAny(find, dags[i]) && (forall j :: 0 <= j < i ==> !HasAny(find, dags[j])) ==>
              FirstAny(find, dags[i], def))
      && ((forall i :: 0 <= i < |dags| ==> !HasAny(find, dags[i])) ==> def == None)
  }

  /** The best of a concatenation is in the first part that has a non-weak definition. */
  lemma BestInPart(find: Finder, pre: seq<Id>, list: seq<Id>, post: seq<Id>)
    requires !HasStrong(find, pre) && HasStrong(find, list)
    ensures FirstStrong(find, list, Best(find, pre + list + post))
  {
    var whole := pre + list + post;
    var o :| o in list && Strong(DefIn(find, o));
    var i :| 0 <= i < |list| && list[i] == o;
    assert whole[|pre| + i] == o;
    BestMeaning(find, whole);
    hide Best;
    assert o in whole;
    var d := Best(find, whole).value;
    assert !d.sym.weak;
    var k :| 0 <= k < |whole| && whole[k] == d.obj && find(d.obj) == Some(d.sym) &&
             forall j :: 0 <= j < k ==> !Strong(DefIn(find, whole[j]));
    assert forall x :: x in pre ==> x != whole[k];
    assert forall j :: 0 <= j < |pre| ==> whole[j] in pre;
    assert |pre| <= k <= |pre| + i;
    assert list[k - |pre|] == whole[k];
    forall j | 0 <= j < k - |pre| ensures !Strong(DefIn(find, list[j])) { assert list[j] == whole[|pre| + j]; }
  }

  /** Without one, it is the first definition of the first part that has any. */
  lemma BestWeakInPart(find: Finder, pre: seq<Id>, list: seq<Id>, post: seq<Id>)
    requires !HasStrong(find, pre + list + post) && !HasAny(find, pre) && HasAny(find, list)
    ensures FirstAny(find, list, Best(find, pre + list + post))
  {
    var whole := pre + list + post;
    var o :| o in list && find(o).Some?;
    var i :| 0 <= i < |list| && list[i] == o;
    assert whole[|pre| + i] == o;
    BestMeaning(find, whole);
    hide Best;
    assert o in whole;
    var d := Best(find, whole).value;
    assert d.sym.weak by { assert d.obj in whole && DefIn(find, d.obj) == Some(d); }
    var k :| 0 <= k < |whole| && whole[k] == d.obj && find(d.obj) == Some(d.sym) &&
             forall j :: 0 <= j < k ==> find(whole[j]).None?;
    assert forall x :: x in pre ==> x != whole[k];
    assert forall j :: 0 <= j < |pre| ==> whole[j] in pre;
    assert |pre| <= k <= |pre| + i;
    assert list[k - |pre|] == whole[k];
    forall j | 0 <= j < k - |pre| ensures find(list[j]).None? { assert list[j] == whole[|pre| + j]; }
  }

  lemma {:induction false} FlattenMembers(dags: seq<seq<Id>>, o: Id)
    ensures o in Flatten(dags) <==> exists i :: 0 <= i < |dags| && o in dags[i]
  {
    if dags != [] {
      var n := |dags| - 1;
      FlattenMembers(dags[..n], o);
      if o in Flatten(dags[..n]) {
        var i :| 0 <= i < n && o in dags[..n][i];
        assert o in dags[i];
      }
      if i :| 0 <= i < |dags| && o in dags[i] { assert i < n ==> o in dags[..n][i]; }
    }
  }

  lemma {:induction false} FlattenSplits(dags: seq<seq<Id>>, i: nat)
    requires i < |dags|
    ensures Flatten(dags) == Flatten(dags[..i]) + dags[i] + Flatten(dags[i + 1..])
  {
    var n := |dags| - 1;
    if i == n {
      assert dags[i + 1..] == [];
    } else {
      FlattenSplits(dags[..n], i);
      assert dags[..n][..i] == dags[..i] && dags[..n][i + 1..] == dags[i + 1..][..n - i - 1];
      assert dags[i + 1..][|dags[i + 1..]| - 1] == dags[n];
    }
  }

  /** The four parts of the search order, one after the other. */
  lemma SearchPrefers(find: Finder, refobj: Id, symbolic: bool, main: seq<Id>, global_: seq<Id>, dags: seq<seq<Id>>)
    ensures Prefers(find, refobj, symbolic, main, global_, dags,
                    Best(find, SearchOrder(refobj, symbolic, main, global_, dags)))
  {
    var ref := if symbolic then [refobj] else [];
    var rest := Flatten(dags);
    var order := SearchOrder(refobj, symbolic, main, global_, dags);
    hide Best, FirstStrong, Flatten;
    if symbolic && Strong(DefIn(find, refobj)) {
      assert refobj in ref;
      assert order == [] + ref + (main + global_ + rest);
      BestInPart(find, [], ref, main + global_ + rest);
      OnlyStrong(find, refobj, Best(find, order));
    } else if HasStrong(find, main) {
      assert order == ref + main + (global_ + rest);
      BestInPart(find, ref, main, global_ + rest);
    } else if HasStrong(find, global_) {
      assert order == (ref + main) + global_ + rest;
      BestInPart(find, ref + main, global_, rest);
    } else {
      forall i | 0 <= i < |dags| && HasStrong(find, dags[i]) && (forall j :: 0 <= j < i ==> !HasStrong(find, dags[j]))
        ensures FirstStrong(find, dags[i], Best(find, order))
      {
        FlattenSplits(dags, i);
        var pre := ref + main + global_ + Flatten(dags[..i]);
        forall o ensures o in Flatten(dags[..i]) <==> exists j :: 0 <= j < i && o in dags[..i][j] {
          FlattenMembers(dags[..i], o);
        }
        assert forall j :: 0 <= j < i ==> dags[..i][j] == dags[j];
        assert order == pre + dags[i] + Flatten(dags[i + 1..]);
        BestInPart(find, pre, dags[i], Flatten(dags[i + 1..]));
      }
    }
  }

  lemma OnlyStrong(find: Finder, o: Id, def: Option<Def>)
    requires FirstStrong(find, [o], def)
    ensures def == DefIn(find, o)
  {}

  lemma NothingStrong(find: Finder, refobj: Id, symbolic: bool, main: seq<Id>, global_: seq<Id>, dags: seq<seq<Id>>)
    requires AllWeak(find, refobj, symbolic, main, global_, dags)
    ensures !HasStrong(find, SearchOrder(refobj, symbolic, main, global_, dags))
  {
    hide Flatten;
    forall o | o in SearchOrder(refobj, symbolic, main, global_, dags) ensures !Strong(DefIn(find, o)) {
      FlattenMembers(dags, o);
    }
  }

  lemma SearchFallsBack(find: Finder, refobj: Id, symbolic: bool, main: seq<Id>, global_: seq<Id>, dags: seq<seq<Id>>)
    requires AllWeak(find, refobj, symbolic, main, global_, dags)
    ensures !Strong(Best(find, SearchOrder(refobj, symbolic, main, global_, dags)))
    ensures FallsBack(find, refobj, symbolic, main, global_, dags,
                      Best(find, SearchOrder(refobj, symbolic, main, global_, dags)))
  {
    var ref := if symbolic then [refobj] else [];
    var rest := Flatten(dags);
    var order := SearchOrder(refobj, symbolic, main, global_, dags);
    NothingStrong(find, refobj, symbolic, main, global_, dags);
    WeakBest(find, order);
    Groupings(ref, main, global_, rest);
    assert order == ref + main + global_ + rest;
    hide Best, FirstAny, Flatten, AllWeak, HasStrong, SearchOrder;
    if symbolic && find(refobj).Some? {
      assert refobj in ref;
      BestWeakInPart(find, [], ref, main + global_ + rest);
      OnlyAny(find, refobj, Best(find, order));
    } else if HasAny(find, main) {
      BestWeakInPart(find, ref, main, global_ + rest);
    } else if HasAny(find, global_) {
      BestWeakInPart(find, ref + main, global_, rest);
    } else {
      forall i | 0 <= i < |dags| && HasAny(find, dags[i]) && (forall j :: 0 <= j < i ==> !HasAny(find, dags[j]))
        ensures FirstAny(find, dags[i], Best(find, order))
      {
        DagFallsBack(find, ref + main + global_, dags, i);
      }
      if forall i :: 0 <= i < |dags| ==> !HasAny(find, dags[i]) {
        NothingAny(find, refobj, symbolic, main, global_, dags);
      }
    }
  }

  lemma Groupings(a: seq<Id>, b: seq<Id>, c: seq<Id>, d: seq<Id>)
    ensures [] + a + (b + c + d) == a + b + c + d && a + b + (c + d) == a + b + c + d
  {}

  lemma DagFallsBack(find: Finder, front: seq<Id>, dags: seq<seq<Id>>, i: nat)
    requires i < |dags| && !HasStrong(find, front + Flatten(dags)) && !HasAny(find, front) && HasAny(find, dags[i])
    requires forall j :: 0 <= j < i ==> !HasAny(find, dags[j])
    ensures FirstAny(find, dags[i], Best(find, front + Flatten(dags)))
  {
    FlattenSplits(dags, i);
    NoneBefore(find, front, dags, i);
    hide Best, FirstAny, Flatten, HasStrong, HasAny;
    Regroup(front, Flatten(dags[..i]), dags[i], Flatten(dags[i + 1..]));
    BestWeakInPart(find, front + Flatten(dags[..i]), dags[i], Flatten(dags[i + 1..]));
  }

  lemma Regroup(a: seq<Id>, b: seq<Id>, c: seq<Id>, d: seq<Id>)
    ensures a + (b + c + d) == (a + b) + c + d
  {}

  lemma NoneBefore(find: Finder, pre: seq<Id>, dags: seq<seq<Id>>, i: nat)
    requires i <= |dags| && !HasAny(find, pre) && forall j :: 0 <= j < i ==> !HasAny(find, dags[j])
    ensures !HasAny(find, pre + Flatten(dags[..i]))
  {
    hide Flatten;
    forall o | o in Flatten(dags[..i]) ensures find(o).None? {
      FlattenMembers(dags[..i], o);
      var j :| 0 <= j < i && o in dags[..i][j];
      assert o in dags[j];
    }
  }

  lemma NothingAny(find: Finder, refobj: Id, symbolic: bool, main: seq<Id>, global_: seq<Id>, dags: seq<seq<Id>>)
    requires !(symbolic && find(refobj).Some?) && !HasAny(find, main) && !HasAny(find, global_)
    requires forall i :: 0 <= i < |dags| ==> !HasAny(find, dags[i])
    ensures Best(find, SearchOrder(refobj, symbolic, main, global_, dags)) == None
  {
    var order := SearchOrder(refobj, symbolic, main, global_, dags);
    hide Flatten, Best;
    forall o | o in order ensures find(o).None? { FlattenMembers(dags, o); }
    BestMeaning(find, order);
  }

  lemma StrongInLists(find: Finder, refobj: Id, symbolic: bool, main: seq<Id>, global_: seq<Id>, dags: seq<seq<Id>>)
    requires !AllWeak(find, refobj, symbolic, main, global_, dags)
    ensures Strong(Best(find, SearchOrder(refobj, symbolic, main, global_, dags)))
  {
    var order := SearchOrder(refobj, symbolic, main, global_, dags);
    hide Flatten;
    assert HasStrong(find, order) by {
      if i :| 0 <= i < |dags| && HasStrong(find, dags[i]) {
        var o :| o in dags[i] && Strong(DefIn(find, o));
        FlattenMembers(dags, o);
        assert o in order;
      } else if symbolic && Strong(DefIn(find, refobj)) {
        assert refobj in order;
      } else {
        var o :| (o in main || o in global_) && Strong(DefIn(find, o));
        assert o in order;
      }
    }
    assert order == [] + order + [];
    hide Best;
    BestInPart(find, [], order, []);
  }

  lemma WeakBest(find: Finder, list: seq<Id>)
    requires !HasStrong(find, list)
    ensures !Strong(Best(find, list))
  {
    BestMeaning(find, list);
    hide Best;
    if Best(find, list).Some? {
      var d := Best(find, list).value;
      assert d.obj in list && DefIn(find, d.obj) == Some(d);
    }
  }

  lemma OnlyAny(find: Finder, o: Id, def: Option<Def>)
    requires FirstAny(find, [o], def)
    ensures def == DefIn(find, o)
  {}

  /** _rtld_symlook_default; skip tells whether the referencing object was passed over at the end. */
  method SymlookDefault(find: Finder, refobj: Id, symbolic: bool, main: seq<Id>, global_: seq<Id>, dags: seq<seq<Id>>,
                        linker: Id, alloc: nat)
    returns (def: Option<Def>, skip: bool)
    ensures var order := SearchOrder(refobj, symbolic, main, global_, dags);
            && def == LastResorts(find, refobj, linker, skip, Best(find, order))
            && (symbolic ==> skip)
            && (!symbolic && !Strong(Best(find, order)) ==> (skip <==> refobj in Fill([], alloc, order)))
    ensures !AllWeak(find, refobj, symbolic, main, global_, dags) ==>
              Prefers(find, refobj, symbolic, main, global_, dags, def) && Strong(def)
    ensures AllWeak(find, refobj, symbolic, main, global_, dags) ==>
              if !skip && Strong(DefIn(find, refobj)) then def == DefIn(find, refobj)
              else if find(linker).Some? then def == DefIn(find, linker)
              else if !skip && find(refobj).Some? then def == DefIn(find, refobj)
              else FallsBack(find, refobj, symbolic, main, global_, dags, def)
  {
    SearchPrefers(find, refobj, symbolic, main, global_, dags);
    if AllWeak(find, refobj, symbolic, main, global_, dags) {
      SearchFallsBack(find, refobj, symbolic, main, global_, dags);
    } else {
      StrongInLists(find, refobj, symbolic, main, global_, dags);
    }
    hide Prefers, FallsBack, AllWeak, Best, Fill, SearchOrder;
    var dl := new DoneList(alloc);
    def := SymlookLists(find, refobj, symbolic, main, global_, dags, dl);
    skip := true;
    if !Strong(def) && !symbolic {
      skip := dl.Check(refobj);
      if !skip && find(refobj).Some? { def := DefIn(find, refobj); }
    }
    if !Strong(def) && find(linker).Some? { def := DefIn(find, linker); }
  }

  /**
   Passing over a referencing object that was searched before makes no difference if and only
   if a strong definition was found, it has no definition or the chosen one, or the linker has one.
   */
  lemma SkipIsVain(find: Finder, refobj: Id, linker: Id, order: seq<Id>)
    requires refobj in order
    ensures LastResorts(find, refobj, linker, true, Best(find, order)) ==
            LastResorts(find, refobj, linker, false, Best(find, order)) <==>
            Strong(Best(find, order)) || find(refobj).None? || Best(find, order) == DefIn(find, refobj) ||
            find(linker).Some?
  {}

  /** It can make a difference: two weak definitions, the second in the referencing object itself. */
  lemma SkipMatters() returns (find: Finder, order: seq<Id>)
    ensures 2 in order &&
            LastResorts(find, 2, 9, true, Best(find, order)) != LastResorts(find, 2, 9, false, Best(find, order))
  {
    find := (o: Id) => if o == 1 || o == 2 then Some(Sym(o, true)) else None;
    order := [1, 2];
    assert order[..1] == [1] && order[..1][..0] == [];
    assert Best(find, [1]) == Some(Def(Sym(1, true), 1));
  }

  // ---- searching dependencies --------------------------------------------------------------------

  /** The DT_NEEDED entries of each object, NULL where not loaded. */
  type Graph = map<Id, seq<Id>>

  ghost predicate Closed(g: Graph) {
    NULL !in g && forall o, n :: o in g && n in g[o] && n != NULL ==> n in g
  }

  /** A DoneList with room for all objects of the graph. */
  ghost predicate Roomy(dl: DoneList, g: Graph)
    reads dl
  {
    dl.Valid() && |g| <= dl.alloc && forall o :: o in dl.objs ==> o in g
  }

  lemma {:induction false} RoomLeft(objs: seq<Id>, all: set<Id>, o: Id)
    requires NoDuplicates(objs) && (forall x :: x in objs ==> x in all) && o in all && o !in objs
    ensures |objs| < |all|
  {
    if objs != [] {
      var n := |objs| - 1;
      var x := objs[n];
      assert x !in objs[..n];
      RoomLeft(objs[..n], all - {x}, o);
    }
  }

  lemma {:induction false} RoomMost(objs: seq<Id>, all: set<Id>)
    requires NoDuplicates(objs) && forall x :: x in objs ==> x in all
    ensures |objs| <= |all|
  {
    if objs != [] {
      var n := |objs| - 1;
      var x := objs[n];
      assert x !in objs[..n];
      RoomMost(objs[..n], all - {x});
    }
  }

  /** Everything that the objects of `some` need is in `all`. */
  ghost predicate NeedsWithin(g: Graph, some: seq<Id>, all: seq<Id>) {
    forall o, n :: o in some && o in g && n in g[o] && n != NULL ==> n in all
  }

  /** No object of the list has a non-weak definition. */
  ghost predicate NoneStrong(find: Finder, list: seq<Id>) { forall o :: o in list ==> !StrongSym(find(o)) }

  /** What the search leaves behind when it finds no strong definition: what it visited is searched through. */
  ghost predicate Explored(g: Graph, find: Finder, needed: seq<Id>, depth0: seq<Id>, breadth: seq<Id>, depth: seq<Id>) {
    && NoneStrong(find, breadth) && depth0 <= depth
    && (forall n :: n in needed && n != NULL ==> n in breadth && n in depth)
    && NeedsWithin(g, depth[|depth0|..], breadth) && NeedsWithin(g, depth[|depth0|..], depth)
  }

  predicate StrongSym(def: Option<Sym>) { def.Some? && !def.value.weak }

  /** A definition, as long as there is one, is the one of the object that is kept beside it. */
  predicate Owned(find: Finder, def: Option<Sym>, defobj: Id) { def.Some? ==> find(defobj) == def }

  /** The definition, if any, in the last object searched; no earlier one counts. */
  function LastSearched(find: Finder, before: nat, breadth: seq<Id>): Option<Sym> {
    if before < |breadth| then find(breadth[|breadth| - 1]) else None
  }

  /** The objects of the list that are not yet listed, each once. */
  function Unlisted(needed: seq<Id>, listed: seq<Id>): seq<Id> {
    if needed == [] then []
    else
      var u, o := Unlisted(needed[..|needed| - 1], listed), needed[|needed| - 1];
      if o == NULL || o in listed || o in u then u else u + [o]
  }

  /** The objects that the search goes into, in the order in which it does: depth first. */
  function DepthFirst(g: Graph, needed: seq<Id>, depth: seq<Id>): (r: seq<Id>)
    requires Closed(g) && forall n :: n in needed && n != NULL ==> n in g
    ensures depth <= r
    decreases g.Keys - ToSet(depth), |needed|
  {
    if needed == [] then depth
    else
      var o := needed[0];
      if o == NULL || o in depth then DepthFirst(g, needed[1..], depth)
      else
        assert o in g.Keys - ToSet(depth) && o in ToSet(depth + [o]);
        var d := DepthFirst(g, g[o], depth + [o]);
        PrefixMembers(depth + [o], d);
        assert o in depth + [o] && forall x :: x in depth ==> x in depth + [o];
        assert o in ToSet(d) && ToSet(depth) <= ToSet(d);
        DepthFirst(g, needed[1..], d)
  }

  function ToSet(s: seq<Id>): set<Id> { set o | o in s }

  /** What was searched after the levels of `needed` and of each visit. */
  function Spread(g: Graph, needed: seq<Id>, breadth: seq<Id>, visits: seq<Id>): seq<Id>
    requires forall v :: v in visits ==> v in g
    decreases |visits|
  {
    var b := breadth + Unlisted(needed, breadth);
    if visits == [] then b else Spread(g, g[visits[0]], b, visits[1..])
  }

  /**
   Which weak definition is returned: the first level, in depth-first order, of which the last
   object searched has a definition.  Definitions before the last object of a level are lost.
   */
  function WeakAnswer(g: Graph, find: Finder, needed: seq<Id>, breadth: seq<Id>, visits: seq<Id>): Option<Sym>
    requires forall v :: v in visits ==> v in g
    decreases |visits|
  {
    var b := breadth + Unlisted(needed, breadth);
    var def := LastSearched(find, |breadth|, b);
    if def.Some? || visits == [] then def else WeakAnswer(g, find, g[visits[0]], b, visits[1..])
  }

  lemma {:induction false} AnswerMore(g: Graph, find: Finder, needed: seq<Id>, breadth: seq<Id>, visits: seq<Id>, o: Id,
                                      more: seq<Id>)
    requires o in g && (forall v :: v in visits ==> v in g) && forall v :: v in more ==> v in g
    ensures var b, d := Spread(g, needed, breadth, visits), WeakAnswer(g, find, needed, breadth, visits);
            && Spread(g, needed, breadth, visits + [o] + more) == Spread(g, g[o], b, more)
            && WeakAnswer(g, find, needed, breadth, visits + [o] + more) ==
               if d.Some? then d else WeakAnswer(g, find, g[o], b, more)
    decreases |visits|
  {
    var all := visits + [o] + more;
    var b := breadth + Unlisted(needed, breadth);
    if visits == [] {
      assert all[0] == o && all[1..] == more;
    } else {
      assert all[0] == visits[0] && all[1..] == visits[1..] + [o] + more;
      AnswerMore(g, find, g[visits[0]], b, visits[1..], o, more);
    }
  }

  /** The state of a search that found no strong definition, told from the lists at its start. */
  ghost predicate Searched(g: Graph, find: Finder, needed: seq<Id>, breadth0: seq<Id>, depth0: seq<Id>,
                           def: Option<Sym>, breadth: seq<Id>, depth: seq<Id>) {
    && depth0 <= depth && (forall v :: v in depth[|depth0|..] ==> v in g)
    && breadth == Spread(g, needed, breadth0, depth[|depth0|..])
    && def == WeakAnswer(g, find, needed, breadth0, depth[|depth0|..])
  }

  lemma SearchedMore(g: Graph, find: Finder, needed: seq<Id>, breadth0: seq<Id>, depth0: seq<Id>, def: Option<Sym>,
                     b1: seq<Id>, d1: seq<Id>, o: Id, defw: Option<Sym>, b2: seq<Id>, d2: seq<Id>)
    requires Searched(g, find, needed, breadth0, depth0, def, b1, d1) && o in g
    requires Searched(g, find, g[o], b1, d1 + [o], defw, b2, d2)
    ensures Searched(g, find, needed, breadth0, depth0, if def.Some? then def else defw, b2, d2)
  {
    var visits, more := d1[|depth0|..], d2[|d1| + 1..];
    assert |d1 + [o]| == |d1| + 1 && d2 == d1 + [o] + more;
    assert d2[|depth0|..] == visits + [o] + more;
    AnswerMore(g, find, needed, breadth0, visits, o, more);
  }

  lemma SearchedNone(g: Graph, find: Finder, needed: seq<Id>, breadth0: seq<Id>, depth0: seq<Id>, breadth: seq<Id>)
    requires breadth == breadth0 + Unlisted(needed, breadth0)
    ensures Searched(g, find, needed, breadth0, depth0, LastSearched(find, |breadth0|, breadth), breadth, depth0)
  {
    assert depth0[|depth0|..] == [];
  }

  /**
   The first loop of _rtld_symlook_needed: the directly needed objects.  A miss clears `def` but
   leaves `defobj` at an earlier object.
   */
  method SearchDirect(g: Graph, find: Finder, needed: seq<Id>, breadth: DoneList)
    returns (def: Option<Sym>, defobj: Id)
    requires Closed(g) && Roomy(breadth, g) && NoneStrong(find, breadth.objs) &&
             forall n :: n in needed && n != NULL ==> n in g
    modifies breadth
    ensures Roomy(breadth, g) && old(breadth.objs) <= breadth.objs && Owned(find, def, defobj)
    ensures !StrongSym(def) ==>
              NoneStrong(find, breadth.objs) && forall n :: n in needed && n != NULL ==> n in breadth.objs
    ensures def == LastSearched(find, |old(breadth.objs)|, breadth.objs)
    ensures !StrongSym(def) ==> breadth.objs == old(breadth.objs) + Unlisted(needed, old(breadth.objs))
  {
    def, defobj := None, NULL;
    for i := 0 to |needed|
      invariant Roomy(breadth, g) && old(breadth.objs) <= breadth.objs && Owned(find, def, defobj) && !StrongSym(def)
      invariant NoneStrong(find, breadth.objs) && forall n :: n in needed[..i] && n != NULL ==> n in breadth.objs
      invariant def == LastSearched(find, |old(breadth.objs)|, breadth.objs)
      invariant breadth.objs == old(breadth.objs) + Unlisted(needed[..i], old(breadth.objs))
    {
      assert needed[..i + 1][..i] == needed[..i];
      var obj := needed[i];
      if obj != NULL {
        if obj !in breadth.objs { RoomLeft(breadth.objs, g.Keys, obj); }
        var listed := breadth.Check(obj);
        if !listed {
          def := find(obj);
          if def.Some? {
            defobj := obj;
            if StrongSym(def) { return; }
          }
        }
      }
    }
    assert needed[..|needed|] == needed;
  }

  /**
   _rtld_symlook_needed: terminates on any graph, as every level adds an object to the depth
   list.  `out` is what defobj_out points to, set only with a definition.
   */
  method SymlookNeeded(g: Graph, find: Finder, needed: seq<Id>, out0: Id, breadth: DoneList, depth: DoneList)
    returns (def: Option<Sym>, out: Id)
    requires Closed(g) && breadth != depth && Roomy(breadth, g) && Roomy(depth, g) && NoneStrong(find, breadth.objs)
    requires forall n :: n in needed && n != NULL ==> n in g
    modifies breadth, depth
    ensures Roomy(breadth, g) && Roomy(depth, g)
    ensures Owned(find, def, out) && (def.None? ==> out == out0)
    ensures old(breadth.objs) <= breadth.objs && old(depth.objs) <= depth.objs
    ensures !StrongSym(def) ==> Explored(g, find, needed, old(depth.objs), breadth.objs, depth.objs)
    ensures !StrongSym(def) ==>
              depth.objs == DepthFirst(g, needed, old(depth.objs)) &&
              Searched(g, find, needed, old(breadth.objs), old(depth.objs), def, breadth.objs, depth.objs)
    decreases |g| - |depth.objs|, 2
  {
    var defobj: Id;
    out := out0;
    def, defobj := SearchDirect(g, find, needed, breadth);
    if StrongSym(def) {
      out := defobj;
      return;
    }
    SearchedNone(g, find, needed, old(breadth.objs), depth.objs, breadth.objs);
    def, defobj := SearchBelow(g, find, needed, def, defobj, breadth, depth, old(breadth.objs));
    if def.Some? { out := defobj; }
  }

  /** The second loop of _rtld_symlook_needed: what the directly needed objects need. */
  method SearchBelow(g: Graph, find: Finder, needed: seq<Id>, def0: Option<Sym>, defobj0: Id, breadth: DoneList,
                     depth: DoneList, ghost breadth0: seq<Id>)
    returns (def: Option<Sym>, defobj: Id)
    requires Closed(g) && breadth != depth && Roomy(breadth, g) && Roomy(depth, g) && NoneStrong(find, breadth.objs)
    requires forall n :: n in needed && n != NULL ==> n in g && n in breadth.objs
    requires Owned(find, def0, defobj0) && !StrongSym(def0)
    requires Searched(g, find, needed, breadth0, depth.objs, def0, breadth.objs, depth.objs)
    modifies breadth, depth
    ensures Roomy(breadth, g) && Roomy(depth, g) && Owned(find, def, defobj)
    ensures old(breadth.objs) <= breadth.objs && old(depth.objs) <= depth.objs
    ensures !StrongSym(def) ==>
              && Explored(g, find, needed, old(depth.objs), breadth.objs, depth.objs)
              && depth.objs == DepthFirst(g, needed, old(depth.objs))
              && Searched(g, find, needed, breadth0, old(depth.objs), def, breadth.objs, depth.objs)
    decreases |g| - |depth.objs|, 1
  {
    ghost var depth0 := depth.objs;
    var defobj1: Id := *;
    def, defobj := def0, defobj0;
    GoingStart(g, find, needed, breadth0, depth0, def, breadth.objs);
    hide Explored, Searched, DepthFirst, NoneStrong, Going, Closed, NoDuplicates;
    for i := 0 to |needed|
      invariant Roomy(breadth, g) && Roomy(depth, g) && Owned(find, def, defobj) && !StrongSym(def)
      invariant old(breadth.objs) <= breadth.objs && depth0 <= depth.objs
      invariant Going(g, find, needed, i, breadth0, depth0, def, breadth.objs, depth.objs)
    {
      RoomMost(depth.objs, g.Keys);
      def, defobj, defobj1 := SearchEntry(g, find, needed, i, def, defobj, defobj1, breadth, depth, breadth0, depth0);
      if StrongSym(def) { break; }
    }
    if !StrongSym(def) { GoingEnd(g, find, needed, breadth0, depth0, def, breadth.objs, depth.objs); }
  }

  /** One turn of that loop. */
  method SearchEntry(g: Graph, find: Finder, needed: seq<Id>, i: nat, def0: Option<Sym>, defobj0: Id, inner: Id,
                     breadth: DoneList, depth: DoneList, ghost breadth0: seq<Id>, ghost depth0: seq<Id>)
    returns (def: Option<Sym>, defobj: Id, defobj1: Id)
    requires breadth != depth && Roomy(breadth, g) && Roomy(depth, g) && i < |needed|
    requires Owned(find, def0, defobj0) && !StrongSym(def0)
    requires Going(g, find, needed, i, breadth0, depth0, def0, breadth.objs, depth.objs)
    modifies breadth, depth
    ensures Roomy(breadth, g) && Roomy(depth, g) && Owned(find, def, defobj)
    ensures old(breadth.objs) <= breadth.objs && old(depth.objs) <= depth.objs
    ensures !StrongSym(def) ==> Going(g, find, needed, i + 1, breadth0, depth0, def, breadth.objs, depth.objs)
    decreases |g| - |depth.objs|, 0
  {
    def, defobj, defobj1 := def0, defobj0, inner;
    var obj := needed[i];
    ghost var b1, d1 := breadth.objs, depth.objs;
    GoingOn(g, find, needed, i, breadth0, depth0, def, b1, d1);
    hide Explored, Searched, DepthFirst, NoneStrong, Going;
    if obj != NULL {
      if obj !in depth.objs { RoomLeft(depth.objs, g.Keys, obj); }
      var listed := depth.Check(obj);
      if !listed {
        var defw;
        defw, defobj1 := SymlookNeeded(g, find, g[obj], defobj1, breadth, depth);
        if defw.Some? && (def.None? || StrongSym(defw)) { def, defobj := defw, defobj1; }
        if !StrongSym(def) {
          GoneBelow(g, find, needed, i, breadth0, depth0, def0, b1, d1, defw, breadth.objs, depth.objs);
        }
      }
    }
  }

  /** The second loop at entry i. */
  ghost predicate Going(g: Graph, find: Finder, needed: seq<Id>, i: nat, breadth0: seq<Id>, depth0: seq<Id>,
                        def: Option<Sym>, breadth: seq<Id>, depth: seq<Id>) {
    && Closed(g) && i <= |needed| && (forall n :: n in needed && n != NULL ==> n in g && n in breadth)
    && Explored(g, find, needed[..i], depth0, breadth, depth)
    && Searched(g, find, needed, breadth0, depth0, def, breadth, depth)
    && DepthFirst(g, needed, depth0) == DepthFirst(g, needed[i..], depth)
  }

  lemma GoingStart(g: Graph, find: Finder, needed: seq<Id>, breadth0: seq<Id>, depth0: seq<Id>, def: Option<Sym>,
                   breadth: seq<Id>)
    requires Closed(g) && NoneStrong(find, breadth) && forall n :: n in needed && n != NULL ==> n in g && n in breadth
    requires Searched(g, find, needed, breadth0, depth0, def, breadth, depth0)
    ensures Going(g, find, needed, 0, breadth0, depth0, def, breadth, depth0)
  {
    assert needed[0..] == needed && needed[..0] == [];
    ExploredNone(g, find, depth0, breadth);
  }

  /** An entry that is NULL, or in which the search has been, is passed over. */
  lemma GoingOn(g: Graph, find: Finder, needed: seq<Id>, i: nat, breadth0: seq<Id>, depth0: seq<Id>,
                def: Option<Sym>, breadth: seq<Id>, depth: seq<Id>)
    requires Going(g, find, needed, i, breadth0, depth0, def, breadth, depth) && i < |needed|
    ensures NoneStrong(find, breadth) && Closed(g)
    ensures needed[i] != NULL ==> needed[i] in g && forall n :: n in g[needed[i]] && n != NULL ==> n in g
    ensures needed[i] == NULL || needed[i] in depth ==>
              Going(g, find, needed, i + 1, breadth0, depth0, def, breadth, depth)
  {
    var obj := needed[i];
    assert needed[..i + 1] == needed[..i] + [obj];
    DepthStep(g, needed, i, depth);
    ExploredNoneStrong(g, find, needed[..i], depth0, breadth, depth);
    hide Explored, Searched, DepthFirst, NoneStrong;
    if obj == NULL || obj in depth { ExploredSame(g, find, needed[..i], obj, depth0, breadth, depth); }
  }

  /** The search has been in entry i. */
  lemma GoneBelow(g: Graph, find: Finder, needed: seq<Id>, i: nat, breadth0: seq<Id>, depth0: seq<Id>,
                  def: Option<Sym>, b1: seq<Id>, d1: seq<Id>, defw: Option<Sym>, b2: seq<Id>, d2: seq<Id>)
    requires Going(g, find, needed, i, breadth0, depth0, def, b1, d1) && i < |needed|
    requires needed[i] != NULL && needed[i] !in d1 && needed[i] in g && b1 <= b2
    requires Explored(g, find, g[needed[i]], d1 + [needed[i]], b2, d2) &&
             d2 == DepthFirst(g, g[needed[i]], d1 + [needed[i]])
    requires Searched(g, find, g[needed[i]], b1, d1 + [needed[i]], defw, b2, d2)
    ensures Going(g, find, needed, i + 1, breadth0, depth0, if def.Some? then def else defw, b2, d2)
  {
    var obj := needed[i];
    assert needed[..i + 1] == needed[..i] + [obj];
    PrefixMembers(b1, b2);
    DepthStep(g, needed, i, d1);
    hide Explored, Searched, DepthFirst;
    ExploredMore(g, find, needed[..i], obj, depth0, b1, d1, b2, d2);
    SearchedMore(g, find, needed, breadth0, depth0, def, b1, d1, obj, defw, b2, d2);
  }

  lemma GoingEnd(g: Graph, find: Finder, needed: seq<Id>, breadth0: seq<Id>, depth0: seq<Id>, def: Option<Sym>,
                 breadth: seq<Id>, depth: seq<Id>)
    requires Going(g, find, needed, |needed|, breadth0, depth0, def, breadth, depth)
    ensures Explored(g, find, needed, depth0, breadth, depth) && depth == DepthFirst(g, needed, depth0)
    ensures Searched(g, find, needed, breadth0, depth0, def, breadth, depth)
  {
    assert needed[..|needed|] == needed && needed[|needed|..] == [];
    DepthNone(g, depth);
  }

  lemma DepthStep(g: Graph, needed: seq<Id>, i: nat, depth: seq<Id>)
    requires Closed(g) && i < |needed| && forall n :: n in needed && n != NULL ==> n in g
    ensures var o := needed[i];
            DepthFirst(g, needed[i..], depth) ==
            if o == NULL || o in depth then DepthFirst(g, needed[i + 1..], depth)
            else DepthFirst(g, needed[i + 1..], DepthFirst(g, g[o], depth + [o]))
  {
    assert needed[i..][0] == needed[i] && needed[i..][1..] == needed[i + 1..];
  }

  lemma DepthNone(g: Graph, depth: seq<Id>)
    requires Closed(g)
    ensures DepthFirst(g, [], depth) == depth
  {}

  lemma ExploredNone(g: Graph, find: Finder, depth: seq<Id>, breadth: seq<Id>)
    requires NoneStrong(find, breadth)
    ensures Explored(g, find, [], depth, breadth, depth)
  {}

  lemma ExploredNoneStrong(g: Graph, find: Finder, needed: seq<Id>, depth0: seq<Id>, breadth: seq<Id>, depth: seq<Id>)
    requires Explored(g, find, needed, depth0, breadth, depth)
    ensures NoneStrong(find, breadth)
  {}

  lemma ExploredSame(g: Graph, find: Finder, needed: seq<Id>, obj: Id, depth0: seq<Id>, breadth: seq<Id>,
                     depth: seq<Id>)
    requires Explored(g, find, needed, depth0, breadth, depth) && (obj != NULL ==> obj in breadth && obj in depth)
    ensures Explored(g, find, needed + [obj], depth0, breadth, depth)
  {}

  /** Adding an object to the depth list and searching through what it needs. */
  lemma ExploredMore(g: Graph, find: Finder, needed: seq<Id>, obj: Id, depth0: seq<Id>,
                     b1: seq<Id>, d1: seq<Id>, b2: seq<Id>, d2: seq<Id>)
    requires Explored(g, find, needed, depth0, b1, d1) && b1 <= b2 && obj in g && obj in b1
    requires Explored(g, find, g[obj], d1 + [obj], b2, d2)
    ensures Explored(g, find, needed + [obj], depth0, b2, d2)
  {
    var new_ := d2[|depth0|..];
    assert forall o :: o in new_ ==> o in d1[|depth0|..] || o == obj || o in d2[|d1| + 1..] by {
      forall k | |depth0| <= k < |d2| ensures d2[k] in d1[|depth0|..] || d2[k] == obj || d2[k] in d2[|d1| + 1..] {
        if k < |d1| { assert d2[k] == d1[k] && d1[k] == d1[|depth0|..][k - |depth0|]; }
        else if k > |d1| { assert d2[k] == d2[|d1| + 1..][k - |d1| - 1]; }
      }
    }
    PrefixMembers(b1, b2);
    PrefixMembers(d1 + [obj], d2);
    assert |d1 + [obj]| == |d1| + 1 && obj in d1 + [obj] && forall o :: o in d1 ==> o in d1 + [obj];
  }

  lemma PrefixMembers(a: seq<Id>, b: seq<Id>)
    requires a <= b
    ensures forall o :: o in a ==> o in b
  {}

  // ---- the theorems ------------------------------------------------------------------------------

  ghost predicate IsPath(g: Graph, p: seq<Id>) {
    && p != [] && (forall i :: 0 <= i < |p| ==> p[i] in g) && (forall i :: 0 < i < |p| ==> p[i] in g[p[i - 1]])
  }

  lemma {:induction false} PathExplored(g: Graph, find: Finder, root: Id, breadth: seq<Id>, depth: seq<Id>, p: seq<Id>)
    requires Closed(g) && Explored(g, find, [root], [], breadth, depth) && IsPath(g, p) && p[0] == root
    ensures p[|p| - 1] in breadth && p[|p| - 1] in depth
  {
    assert depth[0..] == depth;
    if |p| == 1 {
      assert root in [root];
    } else {
      var q := p[..|p| - 1];
      assert IsPath(g, q);
      PathExplored(g, find, root, breadth, depth, q);
      assert p[|p| - 1] in g[q[|q| - 1]];
    }
  }

  /**
   dlsym through the dependencies of an object: on any graph, cyclic ones included, a non-weak
   definition is returned whenever a reachable object has one, and every definition returned
   belongs to the object it is said to be in.
   */
  method SearchFrom(g: Graph, find: Finder, root: Id, out0: Id, alloc: nat) returns (def: Option<Sym>, out: Id)
    requires Closed(g) && root in g && |g| <= alloc
    ensures Owned(find, def, out) && (def.None? ==> out == out0)
    ensures (exists p :: IsPath(g, p) && p[0] == root && StrongSym(find(p[|p| - 1]))) ==> StrongSym(def)
    ensures !StrongSym(def) ==>
              (forall v :: v in DepthFirst(g, [root], []) ==> v in g) &&
              def == WeakAnswer(g, find, [root], [], DepthFirst(g, [root], []))
  {
    var breadth := new DoneList(alloc);
    var depth := new DoneList(alloc);
    def, out := SymlookNeeded(g, find, [root], out0, breadth, depth);
    if !StrongSym(def) {
      forall p | IsPath(g, p) && p[0] == root ensures !StrongSym(find(p[|p| - 1])) {
        PathExplored(g, find, root, breadth.objs, depth.objs, p);
      }
    }
  }

  // ---- a weak definition can be missed ----------------------------------------------------------------

  /** The needed entries of level k of a search: those it starts with, then those of each object visited. */
  function LevelOf(g: Graph, needed: seq<Id>, visits: seq<Id>, k: nat): seq<Id>
    requires k <= |visits| && forall v :: v in visits ==> v in g
  {
    if k == 0 then needed else g[visits[k - 1]]
  }

  /** The last object that level k searches has a definition. */
  predicate LevelHits(g: Graph, find: Finder, needed: seq<Id>, breadth: seq<Id>, visits: seq<Id>, k: nat)
    requires k <= |visits| && forall v :: v in visits ==> v in g
  {
    var b := if k == 0 then breadth else Spread(g, needed, breadth, visits[..k - 1]);
    var u := Unlisted(LevelOf(g, needed, visits, k), b);
    u != [] && find(u[|u| - 1]).Some?
  }

  /** Without a strong one, a definition is returned if and only if some level ends with an object that has one. */
  lemma {:induction false} FoundIffLevelHits(g: Graph, find: Finder, needed: seq<Id>, breadth: seq<Id>, visits: seq<Id>)
    requires forall v :: v in visits ==> v in g
    ensures WeakAnswer(g, find, needed, breadth, visits).Some? <==>
              exists k :: 0 <= k <= |visits| && LevelHits(g, find, needed, breadth, visits, k)
    decreases |visits|
  {
    var b := breadth + Unlisted(needed, breadth);
    FirstLevel(g, find, needed, breadth, visits);
    if visits != [] {
      var n, rest := g[visits[0]], visits[1..];
      FoundIffLevelHits(g, find, n, b, rest);
      forall k | 0 <= k < |visits|
        ensures LevelHits(g, find, n, b, rest, k) <==> LevelHits(g, find, needed, breadth, visits, k + 1)
      {
        LaterLevel(g, find, needed, breadth, visits, k);
      }
      hide LevelHits;
      if k :| 0 <= k <= |visits| && LevelHits(g, find, needed, breadth, visits, k) {
        if k > 0 { assert LevelHits(g, find, n, b, rest, k - 1); }
      }
    }
  }

  lemma FirstLevel(g: Graph, find: Finder, needed: seq<Id>, breadth: seq<Id>, visits: seq<Id>)
    requires forall v :: v in visits ==> v in g
    ensures LevelHits(g, find, needed, breadth, visits, 0) <==>
            LastSearched(find, |breadth|, breadth + Unlisted(needed, breadth)).Some?
  {}

  lemma LaterLevel(g: Graph, find: Finder, needed: seq<Id>, breadth: seq<Id>, visits: seq<Id>, k: nat)
    requires k < |visits| && forall v :: v in visits ==> v in g
    ensures LevelHits(g, find, g[visits[0]], breadth + Unlisted(needed, breadth), visits[1..], k) <==>
            LevelHits(g, find, needed, breadth, visits, k + 1)
  {
    if k == 0 {
      assert visits[..0] == [];
    } else {
      assert visits[..k][0] == visits[0] && visits[..k][1..] == visits[1..][..k - 1];
    }
  }

  /** 1 needs 2 and 3; only 2 has a definition, a weak one. */
  function Fork(): Graph { map[1 := [2, 3], 2 := [], 3 := []] }
  function OnlySecond(): Finder { (o: Id) => if o == 2 then Some(Sym(5, true)) else None }

  lemma ForkVisits()
    ensures Closed(Fork()) && DepthFirst(Fork(), [1], []) == [1, 2, 3]
  {
    var g := Fork();
    DepthStep(g, [1], 0, []);
    DepthStep(g, [2, 3], 0, [1]);
    DepthStep(g, [2, 3], 1, [1, 2]);
    DepthNone(g, [1, 2]);
    DepthNone(g, [1, 2, 3]);
    assert [1][0..] == [1] && [1][1..] == [] && [2, 3][0..] == [2, 3] && [2, 3][2..] == [];
    assert [] + [1] == [1] && [1] + [2] == [1, 2] && [1, 2] + [3] == [1, 2, 3];
    assert [2, 3][1..] == [3];
  }

  lemma ForkAnswer()
    ensures WeakAnswer(Fork(), OnlySecond(), [1], [], [1, 2, 3]) == None
  {
    var g, find := Fork(), OnlySecond();
    assert Unlisted([1], []) == [1] by { assert [1][..0] == []; }
    assert Unlisted([2, 3], [1]) == [2, 3] by { assert [2, 3][..1] == [2] && [2][..0] == []; }
    assert [] + [1] == [1] && [1] + [2, 3] == [1, 2, 3] && [1, 2, 3] + [] == [1, 2, 3];
    assert [1, 2, 3][1..] == [2, 3] && [2, 3][1..] == [3] && [3][1..] == [];
    assert WeakAnswer(g, find, [], [1, 2, 3], []) == None;
    assert WeakAnswer(g, find, [], [1, 2, 3], [3]) == None;
    assert WeakAnswer(g, find, [2, 3], [1], [2, 3]) == None;
  }

  /** A dlsym that misses: the object needed last has no definition, and the one before is forgotten. */
  method WeakIsMissed() returns (def: Option<Sym>, find: Finder, p: seq<Id>)
    ensures IsPath(Fork(), p) && p[0] == 1 && find(p[|p| - 1]).Some? && def == None
  {
    ForkVisits();
    ForkAnswer();
    find, p := OnlySecond(), [1, 2];
    hide Closed, DepthFirst, WeakAnswer;
    var out;
    def, out := SearchFrom(Fork(), find, 1, NULL, 3);
    if StrongSym(def) { assert find(out) == def; }
  }
}

/**
 Which relocations _rtld_call_ifunc goes through: the two counters that the relocation loops
 leave behind, and that going through the counted entries meets every IRELATIVE relocation of
 both tables once.  A table is given by which of its entries are IRELATIVE.
 */
module Irelative {
  import opened InitRuns

  /** The last `remaining` entries hold every IRELATIVE relocation and start with one. */
  predicate Covers(table: seq<bool>, remaining: nat) {
    && remaining <= |table| && (forall i :: 0 <= i < |table| - remaining ==> !table[i])
    && (remaining > 0 ==> table[|table| - remaining])
  }

  /** The forward loop of _rtld_relocate_nonplt_objects: the first IRELATIVE entry sets the counter. */
  method CountNonPlt(table: seq<bool>) returns (remaining: nat)
    ensures Covers(table, remaining)
  {
    remaining := 0;
    for i := 0 to |table|
      invariant remaining <= |table|
      invariant if remaining == 0 then forall k :: 0 <= k < i ==> !table[k] else Covers(table, remaining)
    {
      if table[i] {
        if remaining == 0 { remaining := |table| - i; }
      }
    }
  }

  /** The backward loop of _rtld_relocate_plt_lazy: every IRELATIVE entry sets the counter. */
  method CountPlt(table: seq<bool>) returns (remaining: nat)
    ensures Covers(table, remaining)
  {
    remaining := 0;
    var i := |table|;
    while i > 0
      invariant 0 <= i <= |table| && remaining <= |table| - i
      invariant forall k :: i <= k < |table| - remaining ==> !table[k]
      invariant remaining > 0 ==> table[|table| - remaining]
    {
      i := i - 1;
      if table[i] { remaining := |table| - i; }
    }
  }

  /** What _rtld_call_ifunc has to do for an object with these tables and counters. */
  function ResolverWork(plt: seq<bool>, pltLeft: nat, nonplt: seq<bool>, nonpltLeft: nat): Work
    requires pltLeft <= |plt| && nonpltLeft <= |nonplt|
  {
    Work(pltLeft, pltLeft, nonpltLeft, nonpltLeft, plt[|plt| - pltLeft..] + nonplt[|nonplt| - nonpltLeft..])
  }

  /**
   The resolvers run for that work, in the order ks, are those of exactly the IRELATIVE
   entries: entry i of the PLT table is number i - (|plt| - pltLeft), the others follow.
   */
  lemma ResolversRun(o: Id, plt: seq<bool>, pltLeft: nat, nonplt: seq<bool>, nonpltLeft: nat) returns (ks: seq<nat>)
    requires Covers(plt, pltLeft) && Covers(nonplt, nonpltLeft)
    ensures var w := ResolverWork(plt, pltLeft, nonplt, nonpltLeft);
            var es := InOrder(Item(o, Ifunc), w.calls, |w.calls|);
            WfWork(w) && Pairs(es, ks, Item(o, Ifunc))
    ensures forall i, j :: 0 <= i < j < |ks| ==> ks[i] < ks[j]
    ensures forall i :: 0 <= i < |plt| ==> (plt[i] <==> |plt| - pltLeft <= i && i - (|plt| - pltLeft) in ks)
    ensures forall i ::
              0 <= i < |nonplt| ==>
                (nonplt[i] <==> |nonplt| - nonpltLeft <= i && pltLeft + i - (|nonplt| - nonpltLeft) in ks)
    ensures forall k :: k in ks ==> k < pltLeft + nonpltLeft
  {
    var w := ResolverWork(plt, pltLeft, nonplt, nonpltLeft);
    ks := InOrderMeaning(Item(o, Ifunc), w.calls, |w.calls|);
    forall i | |plt| - pltLeft <= i < |plt| ensures plt[i] <==> i - (|plt| - pltLeft) in ks {
      assert w.calls[i - (|plt| - pltLeft)] == plt[i];
    }
    forall i | |nonplt| - nonpltLeft <= i < |nonplt|
      ensures nonplt[i] <==> pltLeft + i - (|nonplt| - nonpltLeft) in ks
    {
      assert w.calls[pltLeft + i - (|nonplt| - nonpltLeft)] == nonplt[i];
    }
  }
}

/**
 Looking a symbol up in one object: the GNU and System V hash tables against a plain scan of
 the symbol table (_rtld_symlook_obj_matched_symbol, _rtld_symlook_obj_gnu,
 _rtld_symlook_obj_sysv, and the chain count in _rtld_digest_dynamic).
 */
module SymbolTable {
  import opened PowerOfTwo
  import opened Options

  // ---- one symbol -------------------------------------------------------------------------

  datatype Sym = Sym(name: string, undefined: bool, value: nat, isFunc: bool)

  const VER_NDX_GIVEN: nat := 2
  const VER_NDX_HIDDEN: nat := 0x8000

  /** An entry of the version table. */
  datatype Version = Version(hash: nat, name: string)

  /** An object: its symbols and, if it is versioned, a version word for each of them. */
  datatype Obj = Obj(symtab: seq<Sym>, versyms: Option<seq<nat>>, vertab: seq<Version>, vertabnum: nat,
                     names: set<string>)

  datatype Query = Query(name: string, inPlt: bool, dlsym: bool, version: Option<Version>)

  /** Accept: this is the symbol.  Candidate: it is, if no other symbol is.  Reject: it is not. */
  datatype Verdict = Accept | Candidate | Reject

  ghost predicate WellVersioned(ob: Obj) {
    ob.versyms.Some? ==> |ob.versyms.value| == |ob.symtab| && ob.vertabnum < |ob.vertab|
  }

  /** What _rtld_symlook_obj_matched_symbol makes of symbol i. */
  function Judge(q: Query, ob: Obj, i: nat): Verdict
    requires WellVersioned(ob) && i < |ob.symtab|
  {
    var sym := ob.symtab[i];
    if sym.name != q.name then Reject
    else if sym.undefined && (q.inPlt || sym.value == 0 || !sym.isFunc) then Reject
    else if q.version.None? then
      if ob.versyms.None? then Accept
      else
        var word := ob.versyms.value[i];
        var verndx := word % VER_NDX_HIDDEN;
        if verndx > ob.vertabnum then Reject
        else if !q.dlsym && verndx == VER_NDX_GIVEN then Accept
        else if verndx >= VER_NDX_GIVEN then
          if (word / VER_NDX_HIDDEN) % 2 == 0 then Candidate else Reject
        else Accept
    else if ob.versyms.None? then
      if q.version.value.name in ob.names then Reject else Accept
    else
      var word := ob.versyms.value[i];
      var verndx := word % VER_NDX_HIDDEN;
      if verndx > ob.vertabnum then Reject
      else if ob.vertab[verndx] != q.version.value &&
              (q.dlsym || (word / VER_NDX_HIDDEN) % 2 == 1 || verndx >= VER_NDX_GIVEN) then Reject
      else Accept
  }

  // ---- the plain scan ---------------------------------------------------------------------

  /** The variables vsymp and vcount of a lookup, and whether it is over. */
  datatype Progress = Progress(found: bool, vsym: Option<nat>, vcount: nat)

  const START: Progress := Progress(false, None, 0)

  function Look(v: Verdict, i: nat, p: Progress): Progress {
    if p.found then p
    else match v
      case Accept => Progress(true, Some(i), p.vcount)
      case Candidate => Progress(false, if p.vsym.None? then Some(i) else p.vsym, p.vcount + 1)
      case Reject => p
  }

  function Result(p: Progress): Option<nat> { if p.found || p.vcount == 1 then p.vsym else None }

  /** Looking at the symbols of a list one after the other. */
  function Scan(v: nat -> Verdict, list: seq<nat>): Progress {
    if list == [] then START else Look(v(list[|list| - 1]), list[|list| - 1], Scan(v, list[..|list| - 1]))
  }

  function Range(lo: nat, hi: nat): seq<nat>
    requires lo <= hi
  {
    seq(hi - lo, k => lo + k)
  }

  /** The verdicts on all symbols of an object, for one query. */
  function Verdicts(q: Query, ob: Obj): nat -> Verdict
    requires WellVersioned(ob)
  {
    (i: nat) => if i < |ob.symtab| then Judge(q, ob, i) else Reject
  }

  lemma {:induction false} ScanRejects(v: nat -> Verdict, s: seq<nat>, t: seq<nat>)
    requires forall i :: i in t ==> v(i).Reject?
    ensures Scan(v, s + t) == Scan(v, s)
  {
    if t == [] {
      assert s + t == s;
    } else {
      var n := |t| - 1;
      assert (s + t)[..|s + t| - 1] == s + t[..n];
      assert forall i :: i in t[..n] ==> i in t;
      ScanRejects(v, s, t[..n]);
      assert v(t[n]).Reject?;
    }
  }

  lemma {:induction false} ScanRejectsFirst(v: nat -> Verdict, s: seq<nat>, t: seq<nat>)
    requires forall i :: i in s ==> v(i).Reject?
    ensures Scan(v, s + t) == Scan(v, t)
  {
    if t == [] {
      assert [] + s == s && s + t == s;
      ScanRejects(v, [], s);
    } else {
      var n := |t| - 1;
      assert (s + t)[..|s + t| - 1] == s + t[..n];
      ScanRejectsFirst(v, s, t[..n]);
    }
  }

  // ---- what a scan returns ------------------------------------------------------------------

  lemma {:induction false} ScanMeaning(v: nat -> Verdict, list: seq<nat>)
    ensures var p := Scan(v, list);
            && (p.found <==> exists i :: i in list && v(i).Accept?)
            && (p.found ==> p.vsym.Some? && p.vsym.value in list && v(p.vsym.value).Accept?)
            && (!p.found ==> p.vcount == |Candidates(v, list)|)
            && (!p.found ==> p.vsym == if p.vcount == 0 then None else Some(Candidates(v, list)[0]))
  {
    if list != [] {
      var n := |list| - 1;
      assert list == list[..n] + [list[n]];
      ScanMeaning(v, list[..n]);
    }
  }

  function Candidates(v: nat -> Verdict, list: seq<nat>): seq<nat> {
    if list == [] then []
    else Candidates(v, list[..|list| - 1]) + if v(list[|list| - 1]).Candidate? then [list[|list| - 1]] else []
  }

  lemma {:induction false} CandidatesAre(v: nat -> Verdict, list: seq<nat>)
    ensures forall i :: i in Candidates(v, list) <==> i in list && v(i).Candidate?
    ensures NoDuplicates(list) ==> NoDuplicates(Candidates(v, list))
  {
    if list != [] {
      var n := |list| - 1;
      assert list == list[..n] + [list[n]];
      CandidatesAre(v, list[..n]);
      assert NoDuplicates(list) ==> list[n] !in list[..n];
    }
  }

  ghost predicate NoDuplicates(s: seq<nat>) { forall i, j :: 0 <= i < j < |s| ==> s[i] != s[j] }

  function ToSet(s: seq<nat>): set<nat> { set i | i in s }

  lemma {:induction false} SizeOfSet(s: seq<nat>)
    requires NoDuplicates(s)
    ensures |ToSet(s)| == |s|
  {
    if s != [] {
      var n := |s| - 1;
      SizeOfSet(s[..n]);
      assert s[n] !in ToSet(s[..n]);
      assert ToSet(s) == ToSet(s[..n]) + {s[n]};
    }
  }

  /** With at most one outright match, the order in which the symbols are visited does not matter. */
  lemma OrderIrrelevant(v: nat -> Verdict, s: seq<nat>, t: seq<nat>)
    requires NoDuplicates(s) && NoDuplicates(t)
    requires forall i :: !v(i).Reject? ==> (i in s <==> i in t)
    requires forall i, j :: i in s && j in s && v(i).Accept? && v(j).Accept? ==> i == j
    ensures Result(Scan(v, s)) == Result(Scan(v, t))
  {
    ScanMeaning(v, s);
    ScanMeaning(v, t);
    CandidatesAre(v, s);
    CandidatesAre(v, t);
    SizeOfSet(Candidates(v, s));
    SizeOfSet(Candidates(v, t));
    assert ToSet(Candidates(v, s)) == ToSet(Candidates(v, t));
    if |Candidates(v, s)| == 1 {
      assert Candidates(v, s)[0] in Candidates(v, t);
    }
  }

  // ---- which symbol a lookup is to find ------------------------------------------------------

  /**
   The symbol has the name and can be referred to: it is defined or, outside the PLT, a function
   that has a PLT slot in the program.
   */
  predicate Exported(q: Query, ob: Obj, i: nat) {
    i < |ob.symtab| && ob.symtab[i].name == q.name &&
    (ob.symtab[i].undefined ==> ob.symtab[i].isFunc && ob.symtab[i].value != 0 && !q.inPlt)
  }

  /** Its version index, of a versioned object, which must be in the version table. */
  function Index(ob: Obj, i: nat): nat
    requires WellVersioned(ob) && ob.versyms.Some? && i < |ob.symtab|
  {
    ob.versyms.value[i] % VER_NDX_HIDDEN
  }

  predicate Hidden(ob: Obj, i: nat)
    requires WellVersioned(ob) && ob.versyms.Some? && i < |ob.symtab|
  {
    ob.versyms.value[i] / VER_NDX_HIDDEN % 2 == 1
  }

  /** Versioned before anything was: a symbol with index 0 or 1. */
  predicate Global(ob: Obj, i: nat)
    requires WellVersioned(ob) && ob.versyms.Some? && i < |ob.symtab|
  {
    Index(ob, i) < VER_NDX_GIVEN
  }

  /**
   The symbol is what was asked for.  In an object without versions it is, unless a version of this
   very object was asked for.  With a version asked it has exactly that version, or, outside
   dlvsym, is global and not hidden.  Without, it is global or, outside dlsym, of the first version.
   */
  predicate Matches(q: Query, ob: Obj, i: nat)
    requires WellVersioned(ob)
  {
    Exported(q, ob, i) &&
    if ob.versyms.None? then q.version.Some? ==> q.version.value.name !in ob.names
    else
      Index(ob, i) <= ob.vertabnum &&
      match q.version
      case Some(v) => ob.vertab[Index(ob, i)] == v || (Global(ob, i) && !Hidden(ob, i) && !q.dlsym)
      case None => Global(ob, i) || (Index(ob, i) == VER_NDX_GIVEN && !q.dlsym)
  }

  /** The symbol will do if it is the only one: no version was asked for, and it has one that is not hidden. */
  predicate WillDo(q: Query, ob: Obj, i: nat)
    requires WellVersioned(ob)
  {
    Exported(q, ob, i) && q.version.None? && ob.versyms.Some? && !Matches(q, ob, i) &&
    Index(ob, i) <= ob.vertabnum && !Global(ob, i) && !Hidden(ob, i)
  }

  /** What a lookup among the symbols from lo on may return. */
  ghost predicate Finds(q: Query, ob: Obj, lo: nat, r: Option<nat>)
    requires WellVersioned(ob)
  {
    match r
    case Some(i) =>
      && lo <= i < |ob.symtab|
      && (Matches(q, ob, i) ||
          (WillDo(q, ob, i) &&
           forall j :: lo <= j < |ob.symtab| ==> !Matches(q, ob, j) && (WillDo(q, ob, j) ==> j == i)))
    case None =>
      && (forall j :: lo <= j < |ob.symtab| ==> !Matches(q, ob, j))
      && ((forall j :: lo <= j < |ob.symtab| ==> !WillDo(q, ob, j)) ||
          exists i, j ::
            lo <= i < |ob.symtab| && lo <= j < |ob.symtab| && i != j && WillDo(q, ob, i) && WillDo(q, ob, j))
  }

  /** No match comes before the symbol returned. */
  ghost predicate FindsFirst(q: Query, ob: Obj, lo: nat, r: Option<nat>)
    requires WellVersioned(ob)
  {
    forall i :: lo <= i < |ob.symtab| && Matches(q, ob, i) ==> r.Some? && r.value <= i
  }

  lemma JudgeMeaning(q: Query, ob: Obj, i: nat)
    requires WellVersioned(ob) && i < |ob.symtab|
    ensures Judge(q, ob, i).Accept? <==> Matches(q, ob, i)
    ensures Judge(q, ob, i).Candidate? <==> WillDo(q, ob, i)
  {}

  /** A scan that meets every symbol with the name, and each only once, finds it. */
  lemma ScanFinds(q: Query, ob: Obj, list: seq<nat>, lo: nat)
    requires WellVersioned(ob) && NoDuplicates(list) && forall i :: i in list ==> lo <= i < |ob.symtab|
    requires forall i :: lo <= i < |ob.symtab| && ob.symtab[i].name == q.name ==> i in list
    ensures Finds(q, ob, lo, Result(Scan(Verdicts(q, ob), list)))
  {
    var v := Verdicts(q, ob);
    forall i: nat | i < |ob.symtab|
      ensures (v(i).Accept? <==> Matches(q, ob, i)) && (v(i).Candidate? <==> WillDo(q, ob, i))
    {
      JudgeMeaning(q, ob, i);
    }
    Decides(v, list);
    hide Verdicts, Judge, Scan, Matches, WillDo;
    assert forall i :: lo <= i < |ob.symtab| && (Matches(q, ob, i) || WillDo(q, ob, i)) ==> i in list by {
      forall i | lo <= i < |ob.symtab| && (Matches(q, ob, i) || WillDo(q, ob, i)) ensures i in list {
        HasName(q, ob, i);
      }
    }
  }

  lemma HasName(q: Query, ob: Obj, i: nat)
    requires WellVersioned(ob) && (Matches(q, ob, i) || WillDo(q, ob, i))
    ensures i < |ob.symtab| && ob.symtab[i].name == q.name
  {}

  /** What a scan returns, by the verdicts: a match, else the only candidate. */
  lemma Decides(v: nat -> Verdict, list: seq<nat>)
    requires NoDuplicates(list)
    ensures match Result(Scan(v, list))
            case Some(i) =>
              && i in list
              && (v(i).Accept? ||
                  (v(i).Candidate? && forall j :: j in list ==> !v(j).Accept? && (v(j).Candidate? ==> j == i)))
            case None =>
              && (forall i :: i in list ==> !v(i).Accept?)
              && ((forall i :: i in list ==> !v(i).Candidate?) ||
                  exists i, j :: i in list && j in list && i != j && v(i).Candidate? && v(j).Candidate?)
  {
    ScanMeaning(v, list);
    CandidatesAre(v, list);
    hide Scan;
    var c := Candidates(v, list);
    assert forall k :: 0 <= k < |c| ==> c[k] in c;
    if |c| > 1 { assert c[0] != c[1] && v(c[0]).Candidate? && v(c[1]).Candidate?; }
  }

  lemma {:induction false} ScanFirst(v: nat -> Verdict, list: seq<nat>, k: nat)
    requires k < |list| && v(list[k]).Accept? && forall j :: 0 <= j < k ==> !v(list[j]).Accept?
    ensures Scan(v, list).found && Scan(v, list).vsym == Some(list[k])
  {
    var n := |list| - 1;
    if k < n {
      ScanFirst(v, list[..n], k);
    } else {
      ScanMeaning(v, list[..n]);
    }
  }

  /** An ascending scan returns the first match. */
  lemma RangeFinds(q: Query, ob: Obj, lo: nat)
    requires WellVersioned(ob) && lo <= |ob.symtab|
    ensures var r := Result(Scan(Verdicts(q, ob), Range(lo, |ob.symtab|)));
            Finds(q, ob, lo, r) && FindsFirst(q, ob, lo, r)
  {
    var list := Range(lo, |ob.symtab|);
    forall i | lo <= i < |ob.symtab| ensures i in list { assert list[i - lo] == i; }
    ScanFinds(q, ob, list, lo);
    var r := Result(Scan(Verdicts(q, ob), list));
    forall i | lo <= i < |ob.symtab| && Matches(q, ob, i) ensures r.Some? && r.value <= i { FirstUpTo(q, ob, lo, i); }
  }

  lemma {:induction false} FirstUpTo(q: Query, ob: Obj, lo: nat, i: nat)
    requires WellVersioned(ob) && lo <= i < |ob.symtab| && Matches(q, ob, i)
    ensures var r := Result(Scan(Verdicts(q, ob), Range(lo, |ob.symtab|))); r.Some? && r.value <= i
  {
    var list, v := Range(lo, |ob.symtab|), Verdicts(q, ob);
    if j :| lo <= j < i && Matches(q, ob, j) {
      FirstUpTo(q, ob, lo, j);
    } else {
      forall k | 0 <= k <= i - lo ensures v(list[k]).Accept? <==> k == i - lo { JudgeMeaning(q, ob, list[k]); }
      ScanFirst(v, list, i - lo);
    }
  }

  // ---- the GNU hash table -------------------------------------------------------------------

  const ELFSIZE: nat := 64

  /** The DT_GNU_HASH fields; chains[i] belongs to symbol i, and those below symndx do not exist. */
  datatype Gnu = Gnu(bloom: seq<nat>, shift2: nat, buckets: seq<nat>, symndx: nat, chains: seq<nat>)

  predicate Passes(t: Gnu, h: nat)
    requires t.bloom != []
  {
    var word := t.bloom[(h / ELFSIZE) % |t.bloom|];
    Bit(word, h % ELFSIZE) && Bit(word, (h / Pow2(t.shift2)) % ELFSIZE)
  }

  /** The bucket of a hash. */
  function Slot(t: Gnu, h: nat): (r: nat)
    requires t.buckets != []
    ensures r < |t.buckets|
  {
    h % |t.buckets|
  }

  /**
   The chain word belongs to a symbol with this hash, as far as the word tells; its low bit marks
   the end of the chain.
   */
  predicate SameHash(word: nat, h: nat) { word / 2 == h / 2 }
  predicate IsLast(word: nat) { word % 2 == 1 }

  /** The bucket that symbol i belongs to. */
  function BucketOf(t: Gnu, ob: Obj, hash: string -> nat, i: nat): nat
    requires t.buckets != [] && i < |ob.symtab|
  {
    hash(ob.symtab[i].name) % |t.buckets|
  }

  /** Symbol i is the last of its bucket. */
  predicate LastInBucket(t: Gnu, ob: Obj, hash: string -> nat, i: nat)
    requires t.buckets != [] && i < |ob.symtab|
  {
    i + 1 == |ob.symtab| || BucketOf(t, ob, hash, i + 1) != BucketOf(t, ob, hash, i)
  }

  /** What a linker that writes the table must ensure. */
  ghost predicate WellFormedGnu(t: Gnu, ob: Obj, hash: string -> nat) {
    && t.bloom != [] && t.buckets != [] && 1 <= t.symndx <= |ob.symtab| == |t.chains|
    // the hashed symbols are sorted by bucket
    && (forall i, j :: t.symndx <= i < j < |ob.symtab| ==> BucketOf(t, ob, hash, i) <= BucketOf(t, ob, hash, j))
    // a bucket holds the first of its symbols, or 0
    && (forall b :: 0 <= b < |t.buckets| ==> BucketRight(t, ob, hash, b))
    // a chain word is the hash with the low bit marking the last of a bucket
    && (forall i :: t.symndx <= i < |ob.symtab| ==> ChainRight(t, ob, hash, i))
    // the filter passes every hashed symbol
    && (forall i :: t.symndx <= i < |ob.symtab| ==> BloomRight(t, hash(ob.symtab[i].name)))
  }

  /** Both bits of the hash are set in its word of the filter. */
  ghost predicate BloomRight(t: Gnu, h: nat)
    requires t.bloom != []
  {
    && Bit(t.bloom[(h / ELFSIZE) % |t.bloom|], h % ELFSIZE)
    && Bit(t.bloom[(h / ELFSIZE) % |t.bloom|], (h / Pow2(t.shift2)) % ELFSIZE)
  }

  ghost predicate BucketRight(t: Gnu, ob: Obj, hash: string -> nat, b: nat)
    requires t.buckets != [] && b < |t.buckets| && 1 <= t.symndx <= |ob.symtab|
  {
    if t.buckets[b] == 0 then forall i :: t.symndx <= i < |ob.symtab| ==> BucketOf(t, ob, hash, i) != b
    else
      && t.symndx <= t.buckets[b] < |ob.symtab| && BucketOf(t, ob, hash, t.buckets[b]) == b
      && forall i :: t.symndx <= i < t.buckets[b] ==> BucketOf(t, ob, hash, i) != b
  }

  ghost predicate ChainRight(t: Gnu, ob: Obj, hash: string -> nat, i: nat)
    requires t.buckets != [] && i < |ob.symtab| == |t.chains|
  {
    && t.chains[i] / 2 == hash(ob.symtab[i].name) / 2
    && t.chains[i] % 2 == if LastInBucket(t, ob, hash, i) then 1 else 0
  }

  lemma RangeExtends(lo: nat, hi: nat)
    requires lo <= hi
    ensures Range(lo, hi + 1) == Range(lo, hi) + [hi] && Range(lo, hi + 1)[..hi - lo] == Range(lo, hi)
  {}

  /** Symbols of another bucket, or of another hash, cannot match. */
  lemma OtherNames(t: Gnu, ob: Obj, hash: string -> nat, q: Query, i: nat)
    requires WellVersioned(ob) && t.buckets != [] && i < |ob.symtab|
    requires BucketOf(t, ob, hash, i) != Slot(t, hash(q.name)) || !SameHash(hash(ob.symtab[i].name), hash(q.name))
    ensures Verdicts(q, ob)(i).Reject?
  {}

  lemma {:induction false} ScanFoundStays(v: nat -> Verdict, s: seq<nat>, t: seq<nat>)
    requires Scan(v, s).found
    ensures Scan(v, s + t) == Scan(v, s)
  {
    if t == [] {
      assert s + t == s;
    } else {
      var n := |t| - 1;
      assert (s + t)[..|s + t| - 1] == s + t[..n];
      ScanFoundStays(v, s, t[..n]);
    }
  }

  /** A name that the filter stops, or whose bucket is empty, is not in the table. */
  lemma NotInTable(t: Gnu, ob: Obj, hash: string -> nat, q: Query)
    requires WellVersioned(ob) && WellFormedGnu(t, ob, hash)
    requires !Passes(t, hash(q.name)) || t.buckets[Slot(t, hash(q.name))] == 0
    ensures Result(Scan(Verdicts(q, ob), Range(t.symndx, |ob.symtab|))) == None
  {
    var v, all := Verdicts(q, ob), Range(t.symndx, |ob.symtab|);
    if t.buckets[Slot(t, hash(q.name))] == 0 { assert BucketRight(t, ob, hash, Slot(t, hash(q.name))); }
    forall i | i in all ensures v(i).Reject? {
      assert Passes(t, hash(ob.symtab[i].name));
      assert t.buckets[Slot(t, hash(q.name))] == 0 ==> BucketOf(t, ob, hash, i) != Slot(t, hash(q.name));
    }
    assert [] + all == all;
    ScanRejects(v, [], all);
  }

  /** Nothing in front of the first symbol of a bucket belongs to it. */
  lemma BeforeBucket(t: Gnu, ob: Obj, hash: string -> nat, q: Query, first: nat, tail: seq<nat>)
    requires WellVersioned(ob) && WellFormedGnu(t, ob, hash)
    requires first == t.buckets[Slot(t, hash(q.name))] && first != 0
    ensures t.symndx <= first < |ob.symtab| && BucketOf(t, ob, hash, first) == Slot(t, hash(q.name))
    ensures Scan(Verdicts(q, ob), Range(t.symndx, first) + tail) == Scan(Verdicts(q, ob), tail)
  {
    assert BucketRight(t, ob, hash, Slot(t, hash(q.name)));
    forall i | i in Range(t.symndx, first) ensures Verdicts(q, ob)(i).Reject? { OtherNames(t, ob, hash, q, i); }
    ScanRejectsFirst(Verdicts(q, ob), Range(t.symndx, first), tail);
  }

  /** Nothing behind the last symbol of a bucket belongs to it. */
  lemma AfterBucket(t: Gnu, ob: Obj, hash: string -> nat, q: Query, last: nat, head: seq<nat>)
    requires WellVersioned(ob) && WellFormedGnu(t, ob, hash) && t.symndx <= last < |ob.symtab|
    requires BucketOf(t, ob, hash, last) == Slot(t, hash(q.name)) && IsLast(t.chains[last])
    ensures Scan(Verdicts(q, ob), head + Range(last + 1, |ob.symtab|)) == Scan(Verdicts(q, ob), head)
  {
    assert ChainRight(t, ob, hash, last);
    forall i | i in Range(last + 1, |ob.symtab|) ensures Verdicts(q, ob)(i).Reject? {
      assert BucketOf(t, ob, hash, last + 1) <= BucketOf(t, ob, hash, i) || i == last + 1;
      assert BucketOf(t, ob, hash, last) <= BucketOf(t, ob, hash, last + 1);
      OtherNames(t, ob, hash, q, i);
    }
    ScanRejects(Verdicts(q, ob), head, Range(last + 1, |ob.symtab|));
  }

  /** One turn of the chain walk: skipping a word with another hash skips no match. */
  lemma ChainTurn(t: Gnu, ob: Obj, hash: string -> nat, q: Query, first: nat, i: nat)
    requires WellVersioned(ob) && WellFormedGnu(t, ob, hash) && t.symndx <= first <= i < |ob.symtab|
    ensures var p := Scan(Verdicts(q, ob), Range(first, i));
            Scan(Verdicts(q, ob), Range(first, i + 1)) ==
            if SameHash(t.chains[i], hash(q.name)) then Look(Judge(q, ob, i), i, p) else p
    ensures !IsLast(t.chains[i]) ==> i + 1 < |ob.symtab| && BucketOf(t, ob, hash, i + 1) == BucketOf(t, ob, hash, i)
  {
    assert ChainRight(t, ob, hash, i);
    RangeExtends(first, i);
    if !SameHash(t.chains[i], hash(q.name)) { OtherNames(t, ob, hash, q, i); }
  }

  lemma WholeRange(lo: nat, first: nat, next: nat, hi: nat)
    requires lo <= first <= next <= hi
    ensures Range(lo, hi) == Range(lo, first) + (Range(first, next) + Range(next, hi))
  {}

  /** The walk so far decides the scan: it found a match, or reached the last symbol of the bucket. */
  lemma WalkDecides(t: Gnu, ob: Obj, hash: string -> nat, q: Query, first: nat, i: nat)
    requires WellVersioned(ob) && WellFormedGnu(t, ob, hash) && first == t.buckets[Slot(t, hash(q.name))] &&
             0 < first <= i < |ob.symtab|
    requires t.symndx <= first && BucketOf(t, ob, hash, i) == Slot(t, hash(q.name))
    requires Scan(Verdicts(q, ob), Range(first, i + 1)).found || IsLast(t.chains[i])
    ensures Scan(Verdicts(q, ob), Range(t.symndx, |ob.symtab|)) == Scan(Verdicts(q, ob), Range(first, i + 1))
  {
    hide Scan, Range, Verdicts;
    var n := |ob.symtab|;
    WholeRange(t.symndx, first, i + 1, n);
    BeforeBucket(t, ob, hash, q, first, Range(first, i + 1) + Range(i + 1, n));
    if IsLast(t.chains[i]) { AfterBucket(t, ob, hash, q, i, Range(first, i + 1)); }
    else { ScanFoundStays(Verdicts(q, ob), Range(first, i + 1), Range(i + 1, n)); }
  }

  /** _rtld_symlook_obj_gnu: Bloom filter, bucket and chain find what an ascending scan finds. */
  method LookupGnu(q: Query, h: nat, ob: Obj, t: Gnu, ghost hash: string -> nat) returns (r: Option<nat>)
    requires WellVersioned(ob) && WellFormedGnu(t, ob, hash) && h == hash(q.name)
    ensures r == Result(Scan(Verdicts(q, ob), Range(t.symndx, |ob.symtab|)))
    ensures Finds(q, ob, t.symndx, r) && FindsFirst(q, ob, t.symndx, r)
  {
    TableShape(t, ob, hash);
    RangeFinds(q, ob, t.symndx);
    hide Finds, FindsFirst, WellFormedGnu, Scan, Range, Passes, Verdicts, WellVersioned, Slot, Result;
    if !Passes(t, h) { NotInTable(t, ob, hash, q); return None; }
    var bucket := t.buckets[Slot(t, h)];
    if bucket == 0 { NotInTable(t, ob, hash, q); return None; }
    r := WalkBucket(q, h, ob, t, bucket, hash);
  }

  /** The walk along the chain of a bucket, to the first match or to the end of the bucket. */
  method WalkBucket(q: Query, h: nat, ob: Obj, t: Gnu, bucket: nat, ghost hash: string -> nat)
    returns (r: Option<nat>)
    requires WellVersioned(ob) && WellFormedGnu(t, ob, hash) && h == hash(q.name)
    requires bucket == t.buckets[Slot(t, h)] && bucket != 0
    ensures r == Result(Scan(Verdicts(q, ob), Range(t.symndx, |ob.symtab|)))
  {
    TableShape(t, ob, hash);
    BeforeBucket(t, ob, hash, q, bucket, []);
    ScanNothing(Verdicts(q, ob), bucket);
    hide WellFormedGnu, Scan, Judge, Range, Verdicts, WellVersioned, BucketOf, Slot, SameHash, IsLast, Look, Result;
    var p := START;
    var symnum := bucket;
    while true
      invariant bucket <= symnum < |ob.symtab| && BucketOf(t, ob, hash, symnum) == Slot(t, h)
      invariant p == Scan(Verdicts(q, ob), Range(bucket, symnum)) && !p.found
      decreases |ob.symtab| - symnum
    {
      WalkTurn(t, ob, hash, q, bucket, symnum);
      if SameHash(t.chains[symnum], h) {
        p := Look(Judge(q, ob, symnum), symnum, p);
        if p.found {
          ResultFound(p);
          return p.vsym;
        }
      }
      if IsLast(t.chains[symnum]) { break; }
      symnum := symnum + 1;
    }
    r := Result(p);
  }

  /** One turn of the walk, and when it decides the whole scan. */
  lemma WalkTurn(t: Gnu, ob: Obj, hash: string -> nat, q: Query, first: nat, i: nat)
    requires WellVersioned(ob) && WellFormedGnu(t, ob, hash) && first == t.buckets[Slot(t, hash(q.name))] &&
             0 < first <= i < |ob.symtab| && t.symndx <= first && BucketOf(t, ob, hash, i) == Slot(t, hash(q.name))
    ensures var p := Scan(Verdicts(q, ob), Range(first, i));
            var p' := if SameHash(t.chains[i], hash(q.name)) then Look(Judge(q, ob, i), i, p) else p;
            && (p'.found || IsLast(t.chains[i]) ==> Scan(Verdicts(q, ob), Range(t.symndx, |ob.symtab|)) == p')
            && (!IsLast(t.chains[i]) ==>
                  && i + 1 < |ob.symtab| && BucketOf(t, ob, hash, i + 1) == Slot(t, hash(q.name))
                  && Scan(Verdicts(q, ob), Range(first, i + 1)) == p')
  {
    hide Scan, Judge, Range, Verdicts, SameHash, IsLast, Look;
    ChainTurn(t, ob, hash, q, first, i);
    if Scan(Verdicts(q, ob), Range(first, i + 1)).found || IsLast(t.chains[i]) {
      WalkDecides(t, ob, hash, q, first, i);
    }
  }

  lemma TableShape(t: Gnu, ob: Obj, hash: string -> nat)
    requires WellFormedGnu(t, ob, hash)
    ensures t.bloom != [] && t.buckets != [] && 1 <= t.symndx <= |ob.symtab| == |t.chains|
  {}

  lemma ScanNothing(v: nat -> Verdict, lo: nat)
    ensures Scan(v, Range(lo, lo)) == START
  {}

  // ---- counting the symbols ------------------------------------------------------------------

  /** The symbols whose bucket comes before b are exactly those below n. */
  ghost predicate SplitAt(t: Gnu, ob: Obj, hash: string -> nat, b: nat, n: nat)
    requires t.buckets != []
  {
    forall i :: t.symndx <= i < |ob.symtab| ==> (i < n <==> BucketOf(t, ob, hash, i) < b)
  }

  lemma EmptyBucket(t: Gnu, ob: Obj, hash: string -> nat, b: nat, n: nat)
    requires WellFormedGnu(t, ob, hash) && b < |t.buckets| && t.buckets[b] == 0 && SplitAt(t, ob, hash, b, n)
    ensures SplitAt(t, ob, hash, b + 1, n)
  {
    assert BucketRight(t, ob, hash, b);
  }

  lemma StartOfBucket(t: Gnu, ob: Obj, hash: string -> nat, b: nat, n: nat)
    requires WellFormedGnu(t, ob, hash) && b < |t.buckets| && t.buckets[b] != 0 && SplitAt(t, ob, hash, b, n) &&
             t.symndx <= n <= |ob.symtab|
    ensures n == t.buckets[b] < |ob.symtab| && BucketOf(t, ob, hash, n) == b
  {
    assert BucketRight(t, ob, hash, b);
    var first := t.buckets[b];
    var least := if n < first then n else first;
    assert BucketOf(t, ob, hash, least) <= BucketOf(t, ob, hash, first);
  }

  lemma EndOfBucket(t: Gnu, ob: Obj, hash: string -> nat, b: nat, i: nat)
    requires WellFormedGnu(t, ob, hash) && t.symndx <= i < |ob.symtab| && BucketOf(t, ob, hash, i) == b
    ensures !IsLast(t.chains[i]) ==> i + 1 < |ob.symtab| && BucketOf(t, ob, hash, i + 1) == b
    ensures IsLast(t.chains[i]) ==> SplitAt(t, ob, hash, b + 1, i + 1)
  {
    assert ChainRight(t, ob, hash, i);
    if IsLast(t.chains[i]) {
      forall j | t.symndx <= j < |ob.symtab| ensures j < i + 1 <==> BucketOf(t, ob, hash, j) < b + 1 {
        if j < i { assert BucketOf(t, ob, hash, j) <= BucketOf(t, ob, hash, i); }
        if j > i {
          assert BucketOf(t, ob, hash, i) <= BucketOf(t, ob, hash, i + 1);
          if j > i + 1 { assert BucketOf(t, ob, hash, i + 1) <= BucketOf(t, ob, hash, j); }
        }
      }
    }
  }

  lemma AllCounted(t: Gnu, ob: Obj, hash: string -> nat, n: nat)
    requires t.buckets != [] && t.symndx <= n <= |ob.symtab| && SplitAt(t, ob, hash, |t.buckets|, n)
    ensures n == |ob.symtab|
  {
    var last := |ob.symtab| - 1;
    if t.symndx <= last { assert BucketOf(t, ob, hash, last) < |t.buckets|; }
  }

  /** The number of symbols of an object without a System V table, counted along the chains. */
  method CountSymbols(ob: Obj, t: Gnu, ghost hash: string -> nat) returns (nchains: nat)
    requires WellFormedGnu(t, ob, hash)
    ensures nchains == |ob.symtab|
  {
    TableShape(t, ob, hash);
    hide WellFormedGnu, Slot, IsLast;
    nchains := t.symndx;
    for b := 0 to |t.buckets|
      invariant t.symndx <= nchains <= |ob.symtab| && SplitAt(t, ob, hash, b, nchains)
    {
      var bkt := t.buckets[b];
      if bkt == 0 {
        EmptyBucket(t, ob, hash, b, nchains);
      } else {
        StartOfBucket(t, ob, hash, b, nchains);
        var hashval := bkt;
        nchains := nchains + 1;
        EndOfBucket(t, ob, hash, b, hashval);
        while !IsLast(t.chains[hashval])
          invariant t.symndx <= hashval < |ob.symtab| && nchains == hashval + 1 && BucketOf(t, ob, hash, hashval) == b
          invariant !IsLast(t.chains[hashval]) ==> hashval + 1 < |ob.symtab| && BucketOf(t, ob, hash, hashval + 1) == b
          decreases |ob.symtab| - hashval
        {
          hashval := hashval + 1;
          nchains := nchains + 1;
          EndOfBucket(t, ob, hash, b, hashval);
        }
        EndOfBucket(t, ob, hash, b, hashval);
      }
    }
    AllCounted(t, ob, hash, nchains);
  }

  // ---- the System V hash table ---------------------------------------------------------------

  /** The chain words lead from `start` through the symbols of `list` to 0. */
  ghost predicate IsChain(chains: seq<nat>, start: nat, list: seq<nat>)
    decreases |list|
  {
    if list == [] then start == 0
    else list[0] == start && 0 < start < |chains| && IsChain(chains, chains[start], list[1..])
  }

  /** Every symbol but the first, which is reserved, is on the chain of its bucket, once. */
  ghost predicate WellFormedSysv(buckets: seq<nat>, chains: seq<nat>, ob: Obj, hash: string -> nat,
                                 lists: seq<seq<nat>>) {
    && buckets != [] && |lists| == |buckets| && |chains| == |ob.symtab|
    && (forall b :: 0 <= b < |buckets| ==> IsChain(chains, buckets[b], lists[b]) && NoDuplicates(lists[b]))
    && (forall i :: 0 < i < |ob.symtab| ==> i in lists[hash(ob.symtab[i].name) % |buckets|])
  }

  lemma {:induction false} ChainInRange(chains: seq<nat>, start: nat, list: seq<nat>)
    requires IsChain(chains, start, list)
    ensures forall i :: i in list ==> 0 < i < |chains|
    decreases |list|
  {
    if list != [] {
      ChainInRange(chains, chains[start], list[1..]);
      assert list == [list[0]] + list[1..];
    }
  }

  lemma ChainFinds(q: Query, ob: Obj, buckets: seq<nat>, chains: seq<nat>, hash: string -> nat, lists: seq<seq<nat>>)
    requires WellVersioned(ob) && WellFormedSysv(buckets, chains, ob, hash, lists)
    ensures Finds(q, ob, 1, Result(Scan(Verdicts(q, ob), lists[hash(q.name) % |buckets|])))
  {
    var list := lists[hash(q.name) % |buckets|];
    ChainInRange(chains, buckets[hash(q.name) % |buckets|], list);
    ScanFinds(q, ob, list, 1);
  }

  lemma ScanTurn(q: Query, ob: Obj, list: seq<nat>, k: nat)
    requires WellVersioned(ob) && k < |list| && list[k] < |ob.symtab|
    ensures Scan(Verdicts(q, ob), list[..k + 1]) ==
            Look(Judge(q, ob, list[k]), list[k], Scan(Verdicts(q, ob), list[..k]))
  {
    assert list[..k + 1][..k] == list[..k];
  }

  lemma ScanNone(v: nat -> Verdict, list: seq<nat>)
    ensures Scan(v, list[..0]) == START
  {}

  lemma ResultFound(p: Progress)
    requires p.found
    ensures Result(p) == p.vsym
  {}

  /** _rtld_symlook_obj_sysv: the chain of the bucket, in the order of the chain words. */
  method LookupSysv(q: Query, h: nat, ob: Obj, buckets: seq<nat>, chains: seq<nat>, ghost hash: string -> nat,
                    ghost lists: seq<seq<nat>>)
    returns (r: Option<nat>)
    requires WellVersioned(ob) && WellFormedSysv(buckets, chains, ob, hash, lists) && h == hash(q.name)
    ensures r == Result(Scan(Verdicts(q, ob), lists[h % |buckets|])) && Finds(q, ob, 1, r)
  {
    ChainFinds(q, ob, buckets, chains, hash, lists);
    hide Finds, Scan, Verdicts, Result, IsChain, NoDuplicates;
    r := WalkChain(q, ob, chains, buckets[h % |buckets|], lists[h % |buckets|]);
  }

  /** The walk along a chain, to the first match or to its end. */
  method WalkChain(q: Query, ob: Obj, chains: seq<nat>, start: nat, ghost list: seq<nat>) returns (r: Option<nat>)
    requires WellVersioned(ob) && IsChain(chains, start, list) && |chains| == |ob.symtab|
    ensures r == Result(Scan(Verdicts(q, ob), list))
  {
    ghost var v := Verdicts(q, ob);
    var symnum, p := start, START;
    ghost var k := 0;
    assert list[0..] == list;
    ScanNone(v, list);
    hide Judge, WellVersioned, Scan, Verdicts, Look, Result, IsChain;
    while symnum != 0
      invariant 0 <= k <= |list| && IsChain(chains, symnum, list[k..]) && p == Scan(v, list[..k]) && !p.found
      decreases |list| - k
    {
      ChainStep(chains, symnum, list, k);
      ScanTurn(q, ob, list, k);
      p := Look(Judge(q, ob, symnum), symnum, p);
      k := k + 1;
      if p.found {
        assert list == list[..k] + list[k..];
        ScanFoundStays(v, list[..k], list[k..]);
        ResultFound(p);
        return p.vsym;
      }
      symnum := chains[symnum];
    }
    ChainEnds(chains, list, k);
    r := Result(p);
  }

  lemma ChainStep(chains: seq<nat>, start: nat, list: seq<nat>, k: nat)
    requires k <= |list| && IsChain(chains, start, list[k..]) && start != 0
    ensures k < |list| && list[k] == start < |chains| && IsChain(chains, chains[start], list[k + 1..])
  {
    assert k < |list| ==> list[k..][1..] == list[k + 1..];
  }

  lemma ChainEnds(chains: seq<nat>, list: seq<nat>, k: nat)
    requires k <= |list| && IsChain(chains, 0, list[k..])
    ensures list[..k] == list
  {}

  /** Both tables find the same symbol if at most one symbol is accepted outright and GNU leaves no match unhashed. */
  lemma TablesAgree(q: Query, ob: Obj, t: Gnu, hash: string -> nat,
                    buckets: seq<nat>, chains: seq<nat>, sysv: string -> nat, lists: seq<seq<nat>>)
    requires WellVersioned(ob) && WellFormedGnu(t, ob, hash) && WellFormedSysv(buckets, chains, ob, sysv, lists)
    requires forall i :: 0 <= i < t.symndx ==> Verdicts(q, ob)(i).Reject?
    requires forall i, j :: 0 <= i < j < |ob.symtab| ==> !(Verdicts(q, ob)(i).Accept? && Verdicts(q, ob)(j).Accept?)
    ensures Result(Scan(Verdicts(q, ob), lists[sysv(q.name) % |buckets|])) ==
            Result(Scan(Verdicts(q, ob), Range(t.symndx, |ob.symtab|)))
  {
    var v, list, range := Verdicts(q, ob), lists[sysv(q.name) % |buckets|], Range(t.symndx, |ob.symtab|);
    ChainInRange(chains, buckets[sysv(q.name) % |buckets|], list);
    forall i: nat | !v(i).Reject? ensures i in list <==> i in range {
      assert i < |ob.symtab| && ob.symtab[i].name == q.name;
      assert range[i - t.symndx] == i;
    }
    hide Verdicts;
    OrderIrrelevant(v, list, range);
  }
}

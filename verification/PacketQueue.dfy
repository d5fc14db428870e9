/**
 The circular packet queue of ALTQ classes (_addq, _getq, _getq_tail, _getq_random, _removeq,
 _flushq): packets are linked in a ring through m_nextpkt, and the queue knows only the tail.
 */
module PacketQueue {

  class Packet {
    var next: Packet?                // m_nextpkt

    constructor ()
      ensures next == null
    {
      next := null;
    }
  }

  function Without<T>(s: seq<T>, k: nat): seq<T>
    requires k < |s|
  {
    s[..k] + s[k + 1..]
  }

  /** The neighbours of place k in a ring of n. */
  function Succ(k: nat, n: nat): nat { if k + 1 == n then 0 else k + 1 }
  function Pred(k: nat, n: nat): int { if k == 0 then n - 1 else k - 1 }

  ghost predicate Distinct(ps: seq<Packet>) { forall i, j :: 0 <= i < j < |ps| ==> ps[i] != ps[j] }

  /** Each packet is linked to the next one, and the last to the first. */
  ghost predicate Ring(ps: seq<Packet>)
    reads ps
  {
    forall k :: 0 <= k < |ps| ==> ps[k].next == ps[Succ(k, |ps|)]
  }

  /** Taking place k out of a ring joins its neighbours and leaves all other successions. */
  lemma WithoutSucc<T>(s: seq<T>, k: nat, j: nat)
    requires k < |s| && 0 <= j < |s| - 1
    ensures var i := if j < k then j else j + 1;
            && Without(s, k)[j] == s[i]
            && Without(s, k)[Succ(j, |s| - 1)] == if i == Pred(k, |s|) then s[Succ(k, |s|)] else s[Succ(i, |s|)]
  {}

  lemma WithoutFacts(s: seq<Packet>, k: nat)
    requires k < |s| && Distinct(s)
    ensures |Without(s, k)| == |s| - 1 && s[k] !in Without(s, k) && Distinct(Without(s, k))
    ensures |s| > 1 ==> Without(s, k)[|s| - 2] == if k == |s| - 1 then s[Pred(k, |s|)] else s[|s| - 1]
  {}

  /** prev->m_nextpkt = m->m_nextpkt: the ring goes round without m. */
  method Bypass(ghost ps: seq<Packet>, prev: Packet, m: Packet, ghost k: nat)
    requires Distinct(ps) && Ring(ps) && k < |ps| && m == ps[k] && prev == ps[Pred(k, |ps|)]
    modifies prev
    ensures Ring(Without(ps, k))
  {
    prev.next := m.next;
    hide Without;
    WithoutFacts(ps, k);
    ghost var without := Without(ps, k);
    forall j | 0 <= j < |without| ensures without[j].next == without[Succ(j, |without|)] {
      WithoutSucc(ps, k, j);
    }
  }

  class Queue {
    var tail: Packet?                // tail_
    var qlen: int                    // qlen_
    ghost var packets: seq<Packet>   // what the ring represents, from head to tail

    ghost predicate Valid()
      reads this, packets
    {
      && qlen == |packets| && Distinct(packets) && Ring(packets)
      && tail == if packets == [] then null else packets[|packets| - 1]
    }

    constructor ()
      ensures Valid() && packets == []
    {
      tail, qlen, packets := null, 0, [];
    }

    /** _addq: appends m. */
    method Add(m: Packet)
      requires Valid() && m !in packets
      modifies this, tail, m
      ensures Valid() && packets == old(packets) + [m]
      ensures forall p :: p in old(packets) && p != old(tail) ==> p.next == old(p.next)
    {
      var m0 := tail;
      if m0 != null {
        m.next := m0.next;
      } else {
        m0 := m;
      }
      m0.next := m;
      tail := m;
      qlen := qlen + 1;
      packets := packets + [m];
    }

    /** _getq: removes the head, or returns NULL if there is none. */
    method Get() returns (m0: Packet?)
      requires Valid()
      modifies this, packets
      ensures Valid()
      ensures old(packets) == [] ==> m0 == null && packets == []
      ensures old(packets) != [] ==> m0 == old(packets)[0] && packets == old(packets)[1..] && m0.next == null
    {
      var m := tail;
      if m == null { return null; }
      m0 := m.next;
      if m0 != m { m.next := m0.next; } else { tail := null; }
      qlen := qlen - 1;
      m0.next := null;
      packets := packets[1..];
    }

    /** Unlinks m, the k-th packet, from prev in front of it, and moves the tail if it was the tail. */
    method Unlink(prev: Packet, m: Packet, ghost k: nat)
      requires Valid() && k < |packets| && m == packets[k] && prev == packets[Pred(k, |packets|)]
      modifies this, prev
      ensures Valid() && packets == Without(old(packets), k) && m !in packets
    {
      WithoutFacts(packets, k);
      Bypass(packets, prev, m, k);
      hide Without, Ring, Distinct;
      if prev == m { tail := null; } else if tail == m { tail := prev; }
      qlen := qlen - 1;
      packets := Without(packets, k);
    }

    /** A packet that has left the queue is no longer linked. */
    method Detach(m: Packet)
      requires Valid() && m !in packets
      modifies m
      ensures Valid() && m.next == null
    {
      m.next := null;
    }

    /** The do-while walk round the ring from the tail, up to the packet in front of m. */
    method Walk(m: Packet) returns (prev: Packet, ghost k: nat)
      requires Valid() && m in packets
      ensures prev in packets && prev.next == m
      ensures k < |packets| && m == packets[k] && prev == packets[Pred(k, |packets|)]
    {
      ghost var target :| 0 <= target < |packets| && packets[target] == m;
      prev := tail;
      var m0: Packet := tail.next;
      k := 0;
      while m0 != m
        invariant k <= target && m0 == packets[k] && prev == packets[Pred(k, |packets|)]
        decreases target - k
      {
        prev := m0;
        m0 := m0.next;
        k := k + 1;
      }
    }

    /** The loop of _getq_random: n steps round the ring from the tail. */
    method WalkSteps(n: nat) returns (prev: Packet, m: Packet)
      requires Valid() && 1 <= n <= |packets|
      ensures m == packets[n - 1] && prev == packets[Pred(n - 1, |packets|)]
    {
      prev, m := tail, tail.next;
      var i := 1;
      while i < n
        invariant 1 <= i <= n && m == packets[i - 1] && prev == packets[Pred(i - 1, |packets|)]
      {
        prev := m;
        m := m.next;
        i := i + 1;
      }
    }

    /** _getq_tail: removes the packet at the tail. */
    method GetTail() returns (m: Packet?)
      requires Valid()
      modifies this, packets
      ensures Valid()
      ensures old(packets) == [] ==> m == null && packets == []
      ensures old(packets) != [] ==>
                var n := |old(packets)| - 1; m == old(packets)[n] && packets == old(packets)[..n] && m.next == null
    {
      m := tail;
      if m == null { return; }
      var prev, k := Walk(m);
      assert k == |packets| - 1;
      hide Valid;
      Unlink(prev, m, k);
      Detach(m);
    }

    /** _getq_random: removes the packet that the random number selects. */
    method GetRandom(random: nat) returns (m: Packet?)
      requires Valid()
      modifies this, packets
      ensures Valid()
      ensures old(packets) == [] ==> m == null && packets == []
      ensures old(packets) != [] ==>
                var k := random % |old(packets)|;
                m == old(packets)[k] && packets == Without(old(packets), k) && m.next == null
    {
      if tail == null { return null; }
      var k := random % qlen;
      var q: Packet := tail;
      if q.next == q {
        assert |packets| == 1 && k == 0;
        tail := null;
        qlen := qlen - 1;
        packets := [];
      } else {
        var prev;
        prev, q := WalkSteps(k + 1);
        hide Valid;
        Unlink(prev, q, k);
      }
      Detach(q);
      m := q;
    }

    /** _removeq: removes m, which must be queued; its link is left as it was. */
    method Remove(m: Packet)
      requires Valid() && m in packets
      modifies this, packets
      ensures Valid()
      ensures exists k :: 0 <= k < |old(packets)| && old(packets)[k] == m && packets == Without(old(packets), k)
    {
      var prev, k := Walk(m);
      Unlink(prev, m, k);
    }

    /** _flushq: takes the packets off from the head until none is left. */
    method Flush() returns (freed: seq<Packet>)
      requires Valid()
      modifies this, packets
      ensures Valid() && packets == [] && freed == old(packets)
    {
      hide Valid;
      freed := [];
      ghost var all, i := packets, 0;
      var m := Get();
      while m != null
        invariant Valid() && 0 <= i <= |all| && all == old(packets) && freed == all[..i]
        invariant if m == null then i == |all| && packets == [] else i < |all| && m == all[i] && packets == all[i + 1..]
        decreases |all| - i
      {
        freed := freed + [m];
        m := Get();
        i := i + 1;
      }
    }
  }
}

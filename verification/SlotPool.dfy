/** The pool pattern of the message, buffer and sample factories: a fixed array of slots,
    each with a list node, and a free list that hands out at the front and takes back at
    the tail (tool/msg_factory.c:39-139, tool/buf_factory.c:16-94,
    image/sample_factory.c:20-75). */
module SlotPool {
  import opened LinkedList

  function UpTo(n: nat): (q: seq<nat>)
    ensures |q| == n && forall i :: 0 <= i < n ==> q[i] == i
  {
    if n == 0 then [] else UpTo(n - 1) + [n - 1]
  }

  // ---------------------------------------------------------------- runs

  /** A pool of n slots over a run. `out` and `back` are history: the slots handed out and
      the slots given back, in order. */
  datatype Ledger = Ledger(n: nat, free: seq<nat>, busy: set<nat>, out: seq<nat>, back: seq<nat>)

  datatype Event = TakeOne | GiveOne(slot: nat)

  function Start(n: nat): Ledger {
    Ledger(n, UpTo(n), {}, [], [])
  }

  /** What Pool.Take and Pool.Give do to the free list; only a slot in use is given back. */
  predicate Enabled(l: Ledger, e: Event) {
    e.GiveOne? ==> e.slot in l.busy
  }

  function Next(l: Ledger, e: Event): Ledger
    requires Enabled(l, e)
  {
    match e
    case TakeOne =>
      if l.free == [] then l
      else l.(free := l.free[1..], busy := l.busy + {l.free[0]}, out := l.out + [l.free[0]])
    case GiveOne(slot) => l.(free := l.free + [slot], busy := l.busy - {slot}, back := l.back + [slot])
  }

  ghost predicate Run(l: Ledger, es: seq<Event>, t: Ledger)
    decreases |es|
  {
    if es == [] then l == t else Enabled(l, es[0]) && Run(Next(l, es[0]), es[1..], t)
  }

  /** Every slot is free once or in use, never both. */
  ghost predicate Partition(l: Ledger) {
    && (forall i, j :: 0 <= i < j < |l.free| ==> l.free[i] != l.free[j])
    && (forall s :: 0 <= s < l.n ==> (s in l.free <==> s !in l.busy))
    && (forall s :: s in l.free || s in l.busy ==> 0 <= s < l.n)
  }

  /** Slots are handed out in the order of the array first, then in the order in which
      they came back. */
  ghost predicate Fifo(l: Ledger) {
    l.out + l.free == UpTo(l.n) + l.back
  }

  lemma StartKeeps(n: nat)
    ensures Partition(Start(n)) && Fifo(Start(n))
  {
    forall s: nat | s < n ensures s in UpTo(n) {
      assert UpTo(n)[s] == s;
    }
  }

  lemma TakeKeeps(l: Ledger)
    requires Partition(l) && Fifo(l)
    ensures Partition(Next(l, TakeOne)) && Fifo(Next(l, TakeOne))
  {
    if l.free != [] {
      var l' := Next(l, TakeOne);
      assert l.free == [l.free[0]] + l'.free;
      assert l'.out + l'.free == l.out + l.free;
    }
  }

  lemma GiveKeeps(l: Ledger, slot: nat)
    requires Partition(l) && Fifo(l) && slot in l.busy
    ensures Partition(Next(l, GiveOne(slot))) && Fifo(Next(l, GiveOne(slot)))
  {
    var l' := Next(l, GiveOne(slot));
    assert l'.out + l'.free == (l.out + l.free) + [slot];
    assert UpTo(l.n) + l'.back == (UpTo(l.n) + l.back) + [slot];
  }

  lemma {:induction false} RunKeeps(l: Ledger, es: seq<Event>, t: Ledger)
    requires Partition(l) && Fifo(l) && Run(l, es, t)
    ensures Partition(t) && Fifo(t) && t.n == l.n
    decreases |es|
  {
    if es != [] {
      match es[0] {
        case TakeOne => TakeKeeps(l);
        case GiveOne(slot) => GiveKeeps(l, slot);
      }
      RunKeeps(Next(l, es[0]), es[1..], t);
    }
  }

  lemma {:induction false} SetOf(q: seq<nat>) returns (all: set<nat>)
    requires forall i, j :: 0 <= i < j < |q| ==> q[i] != q[j]
    ensures |all| == |q| && forall s :: s in all <==> s in q
  {
    if q == [] {
      all := {};
    } else {
      var rest := SetOf(q[1..]);
      all := {q[0]} + rest;
      assert forall s :: s in q <==> s == q[0] || s in q[1..];
    }
  }

  lemma CountSlots(l: Ledger)
    requires Partition(l)
    ensures |l.free| + |l.busy| == l.n
  {
    var free := SetOf(l.free);
    var all := SetOf(UpTo(l.n));
    forall s: nat | s < l.n ensures s in UpTo(l.n) {
      assert UpTo(l.n)[s] == s;
    }
    assert all == free + l.busy && free !! l.busy;
  }

  /** Main result: over any run, free and used slots partition the slots, and slots are
      handed out first in, first out. */
  lemma PoolsPartition(n: nat, es: seq<Event>, t: Ledger)
    requires Run(Start(n), es, t)
    ensures Partition(t) && Fifo(t) && |t.free| + |t.busy| == n
  {
    StartKeeps(n);
    RunKeeps(Start(n), es, t);
    CountSlots(t);
  }

  // ---------------------------------------------------------------- creation

  /** The allocation loop of the three create functions. */
  method NewRing(n: nat) returns (list: ListHead, nodes: seq<ListHead>)
    ensures |nodes| == n && Ring(list, nodes) && fresh(list)
    ensures forall i :: 0 <= i < n ==> fresh(nodes[i]) && nodes[i].owner == i
  {
    list := new ListHead(0);
    InitListHead(list);
    nodes := [];
    var i := 0;
    while i < n
      invariant 0 <= i <= n && |nodes| == i && fresh(list) && Ring(list, nodes)
      invariant forall k :: 0 <= k < i ==> fresh(nodes[k]) && nodes[k].owner == k
    {
      var node := new ListHead(i);
      ListAddTail(node, list, nodes);
      nodes := nodes + [node];
      i := i + 1;
    }
  }

  // ---------------------------------------------------------------- the pool

  /** The nodes of the slots, and the list of the free ones. `ledger` is history: which
      slots are free, in list order, and what was handed out and given back so far; it
      is always what a run of the ledger leads to. `ring` are the nodes of the free
      slots. */
  class Pool {
    const list: ListHead
    const nodes: seq<ListHead>
    ghost var ledger: Ledger
    ghost var ring: seq<ListHead>

    ghost predicate Valid()
      reads this, list, nodes, ring
    {
      && (forall i :: 0 <= i < |nodes| ==> nodes[i].owner == i && nodes[i] != list)
      && ledger.n == |nodes| && Partition(ledger) && Fifo(ledger)
      && |ring| == |ledger.free| && Ring(list, ring)
      && (forall k :: 0 <= k < |ledger.free| ==> ledger.free[k] < |nodes| && ring[k] == nodes[ledger.free[k]])
    }

    constructor (n: nat)
      ensures Valid() && |nodes| == n && ledger == Start(n)
      ensures fresh(list) && forall i :: 0 <= i < n ==> fresh(nodes[i])
    {
      var l, r := NewRing(n);
      StartKeeps(n);
      list, nodes, ledger, ring := l, r, Start(n), r;
    }

    /** Take the first free slot, if there is one. (buf_factory_produce ends the program
        if there is none.) */
    method Take() returns (ok: bool, slot: nat)
      requires Valid()
      modifies this, list, nodes
      ensures Valid() && ok == (old(ledger).free != []) && ledger == Next(old(ledger), TakeOne)
      ensures ok ==> slot == old(ledger).free[0]
    {
      var empty := ListEmpty(list, ring);
      if empty {
        return false, 0;
      }
      assert list == Around(list, ring)[0] && list.next == Around(list, ring)[1] == ring[0];
      var node := list.next;
      ListDel(node, list, ring, 0);
      TakeKeeps(ledger);
      ledger, ring := Next(ledger, TakeOne), Removed(ring, 0);
      return true, node.owner;
    }

    /** Give back the slot that `node` belongs to. */
    method Give(node: ListHead)
      requires Valid() && node.owner < |nodes| && nodes[node.owner] == node && node.owner in ledger.busy
      modifies this, list, nodes
      ensures Valid() && ledger == Next(old(ledger), GiveOne(node.owner))
    {
      forall k | 0 <= k < |ring| ensures ring[k] != node {
        assert ledger.free[k] in ledger.free;
      }
      ListAddTail(node, list, ring);
      GiveKeeps(ledger, node.owner);
      ledger, ring := Next(ledger, GiveOne(node.owner)), ring + [node];
    }
  }
}

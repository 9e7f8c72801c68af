/** The idle and busy DSP lists on linked nodes, updated in place (image/dsp.c:538-570,
    616-625), proved against the sequences of module DspProtocol. A waiting
    dsp_factory_produce is one that is not called yet. */
module DspFactory {
  import opened LinkedList
  import D = DspProtocol
  import SlotPool

  /** Two rings without a common node. */
  ghost predicate Apart(a: ListHead, q: seq<ListHead>, b: ListHead, r: seq<ListHead>) {
    && a != b && a !in r && b !in q
    && forall i, j :: 0 <= i < |q| && 0 <= j < |r| ==> q[i] != r[j]
  }

  /** list_del from one list, list_add_tail to the other. */
  method MoveNode(node: ListHead, ghost from: ListHead, ghost q: seq<ListHead>, ghost k: nat,
                  to: ListHead, ghost r: seq<ListHead>)
    requires Ring(from, q) && Ring(to, r) && (Apart(from, q, to, r) || Apart(to, r, from, q))
    requires k < |q| && q[k] == node
    modifies from, q, to, r
    ensures Ring(from, Removed(q, k)) && Ring(to, r + [node])
  {
    ListDel(node, from, q, k);
    ListAddTail(node, to, r);
  }

  lemma {:induction false} WithoutAt(q: seq<nat>, d: nat, k: nat)
    requires k < |q| && q[k] == d && forall i :: 0 <= i < |q| && i != k ==> q[i] != d
    ensures D.Without(q, d) == Removed(q, k)
  {
    if k > 0 {
      WithoutAt(q[1..], d, k - 1);
      assert Removed(q, k) == [q[0]] + Removed(q[1..], k - 1);
    } else {
      assert Removed(q, 0) == q[1..];
    }
  }

  ghost predicate Separate(idle: seq<nat>, busy: seq<nat>) {
    forall i, j :: 0 <= i < |idle| && 0 <= j < |busy| ==> idle[i] != busy[j]
  }

  lemma SeparateStill(idle: seq<nat>, busy: seq<nat>, k: nat)
    requires Separate(idle, busy) && k < |busy| && forall i :: 0 <= i < |busy| && i != k ==> busy[i] != busy[k]
    ensures Separate(idle + [busy[k]], Removed(busy, k))
  {}

  class Factory {
    const idleList: ListHead
    const busyList: ListHead
    const nodes: seq<ListHead>
    ghost var idle: seq<nat>
    ghost var busy: seq<nat>
    ghost var idleRing: seq<ListHead>
    ghost var busyRing: seq<ListHead>

    /** `ring` are the nodes of the DSPs in q. */
    ghost predicate Carries(ring: seq<ListHead>, q: seq<nat>) {
      |ring| == |q| && forall k :: 0 <= k < |q| ==> q[k] < |nodes| && ring[k] == nodes[q[k]]
    }

    ghost predicate Valid()
      reads this, idleList, busyList, nodes, idleRing, busyRing
    {
      && idleList != busyList && idleList !in nodes && busyList !in nodes
      && (forall i :: 0 <= i < |nodes| ==> nodes[i].owner == i)
      && Carries(idleRing, idle) && Carries(busyRing, busy)
      && Ring(idleList, idleRing) && Ring(busyList, busyRing)
      && Separate(idle, busy)
    }

    lemma OnceIn(k: nat)
      requires Valid() && k < |busy|
      ensures forall i :: 0 <= i < |busy| && i != k ==> busy[i] != busy[k]
    {
      forall i | 0 <= i < |busy| && i != k ensures busy[i] != busy[k] {
        assert busyRing[i] != busyRing[k];
      }
    }

    /** create_dsp_factory: DSP1 and DSP2 idle, in this order. */
    constructor ()
      ensures Valid() && |nodes| == D.DSPS && idle == D.INIT.idle && busy == D.INIT.busy
    {
      var b := new ListHead(0);
      InitListHead(b);
      var i, dsps := SlotPool.NewRing(D.DSPS);
      idleList, busyList, nodes := i, b, dsps;
      idle, busy, idleRing, busyRing := [0, 1], [], dsps, [];
    }

    /** dsp_factory_produce, once the idle list is not empty. */
    method Produce() returns (d: nat)
      requires Valid() && idle != []
      modifies this, idleList, busyList, nodes
      ensures Valid() && d == old(idle)[0]
      ensures idle == old(idle)[1..] && busy == old(busy) + [d]
    {
      assert idleList == Around(idleList, idleRing)[0] && idleList.next == Around(idleList, idleRing)[1] == idleRing[0];
      assert idle[0] == idleRing[0].owner;
      var node := idleList.next;
      RingsApart();
      MoveNode(node, idleList, idleRing, 0, busyList, busyRing);
      idle, idleRing := idle[1..], Removed(idleRing, 0);
      busy, busyRing := busy + [node.owner], busyRing + [node];
      d := node.owner;
    }

    /** dsp_factory_recycle of a busy DSP. */
    method Recycle(d: nat)
      requires Valid() && d in busy
      modifies this, idleList, busyList, nodes
      ensures Valid() && busy == D.Without(old(busy), d) && idle == old(idle) + [d]
    {
      ghost var k :| 0 <= k < |busy| && busy[k] == d;
      OnceIn(k);
      WithoutAt(busy, d, k);
      MoveBack(nodes[d], k);
    }

    lemma RingsApart()
      requires Valid()
      ensures Apart(idleList, idleRing, busyList, busyRing)
    {
      forall i, j | 0 <= i < |idleRing| && 0 <= j < |busyRing| ensures idleRing[i] != busyRing[j] {
        assert idle[i] != busy[j];
      }
    }

    /** What the lists look like once the k-th busy DSP has moved to the idle ones. */
    lemma MovedLists(k: nat)
      requires Valid() && k < |busy|
      ensures busyRing[k] == nodes[busy[k]] && busyRing[k].owner == busy[k]
      ensures Carries(Removed(busyRing, k), Removed(busy, k)) && Carries(idleRing + [busyRing[k]], idle + [busy[k]])
      ensures Separate(idle + [busy[k]], Removed(busy, k))
    {
      OnceIn(k);
      SeparateStill(idle, busy, k);
    }

    method MoveBack(node: ListHead, ghost k: nat)
      requires Valid() && k < |busy| && busyRing[k] == node
      modifies this, idleList, busyList, nodes
      ensures Valid() && busy == Removed(old(busy), k) && idle == old(idle) + [node.owner]
    {
      RingsApart();
      MovedLists(k);
      MoveNode(node, busyList, busyRing, k, idleList, idleRing);
      busy, busyRing := Removed(busy, k), Removed(busyRing, k);
      idle, idleRing := idle + [node.owner], idleRing + [node];
    }

    /** is_dsps_idle. */
    method IsIdle() returns (yes: bool)
      requires Valid()
      ensures yes == (busy == [])
    {
      yes := ListEmpty(busyList, busyRing);
    }
  }
}

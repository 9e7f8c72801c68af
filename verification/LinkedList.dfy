/** The intrusive circular doubly linked list (tool/list.c), on heap nodes, against
    sequences. */
module LinkedList {

  /** `owner` is the index of the structure the node belongs to. */
  class ListHead {
    var next: ListHead?
    var prev: ListHead?
    const owner: nat

    constructor (owner: nat)
      ensures this.owner == owner && next == null && prev == null
    {
      this.owner, next, prev := owner, null, null;
    }
  }

  /** The nodes of a ring in order, from the head to the head. */
  function Around(head: ListHead, q: seq<ListHead>): (n: seq<ListHead>)
    ensures |n| == |q| + 2
  {
    [head] + q + [head]
  }

  ghost predicate Distinct(head: ListHead, q: seq<ListHead>) {
    && head !in q
    && forall i, j :: 0 <= i < j < |q| ==> q[i] != q[j]
  }

  ghost predicate Linked(n: seq<ListHead>)
    reads n
  {
    forall i :: 0 <= i < |n| - 1 ==> n[i].next == n[i + 1] && n[i + 1].prev == n[i]
  }

  /** `head` is the head of a circular doubly linked list of exactly the nodes q. */
  ghost predicate Ring(head: ListHead, q: seq<ListHead>)
    reads head, q
  {
    Distinct(head, q) && Linked(Around(head, q))
  }

  method InitListHead(list: ListHead)
    modifies list
    ensures Ring(list, [])
  {
    list.next := list;
    list.prev := list;
  }

  function Inserted<T>(q: seq<T>, k: nat, x: T): seq<T>
    requires k <= |q|
  {
    q[..k] + [x] + q[k..]
  }

  function Removed<T>(q: seq<T>, k: nat): seq<T>
    requires k < |q|
  {
    q[..k] + q[k + 1..]
  }

  /** _list_add, between the k-th node from the head on and the one after it, which are
      the same node in an empty ring. */
  method AddBetween(node: ListHead, prev: ListHead, next: ListHead,
                    ghost head: ListHead, ghost q: seq<ListHead>, ghost k: nat)
    requires Ring(head, q) && node != head && node !in q
    requires k <= |q| && prev == Around(head, q)[k] && next == Around(head, q)[k + 1]
    modifies node`next, node`prev, prev`next, next`prev
    ensures Ring(head, Inserted(q, k, node))
  {
    ghost var n := Around(head, q);
    ghost var n' := Around(head, Inserted(q, k, node));
    assert forall i :: 0 <= i < |n| - 1 ==> n[i].next == n[i + 1] && n[i + 1].prev == n[i];
    next.prev := node;
    node.next := next;
    node.prev := prev;
    prev.next := node;
    assert n' == n[..k + 1] + [node] + n[k + 1..];
    forall i | 0 <= i < |n'| - 1 ensures n'[i].next == n'[i + 1] && n'[i + 1].prev == n'[i] {
      if i < k {
        assert n'[i] == n[i] && n'[i + 1] == n[i + 1];
      } else if i > k + 1 {
        assert n'[i] == n[i - 1] && n'[i + 1] == n[i];
      }
    }
  }

  /** list_add: in front. */
  method ListAdd(node: ListHead, head: ListHead, ghost q: seq<ListHead>)
    requires Ring(head, q) && node != head && node !in q
    modifies node, head, q
    ensures Ring(head, [node] + q)
  {
    assert head == Around(head, q)[0] && head.next == Around(head, q)[1];
    AddBetween(node, head, head.next, head, q, 0);
    assert Inserted(q, 0, node) == [node] + q;
  }

  /** list_add_tail: behind. */
  method ListAddTail(node: ListHead, head: ListHead, ghost q: seq<ListHead>)
    requires Ring(head, q) && node != head && node !in q
    modifies node, head, q
    ensures Ring(head, q + [node])
  {
    assert head == Around(head, q)[|q| + 1] && head.prev == Around(head, q)[|q|];
    AddBetween(node, head.prev, head, head, q, |q|);
    assert Inserted(q, |q|, node) == q + [node];
  }

  /** list_del: the k-th node, wherever it is. */
  method ListDel(entry: ListHead, ghost head: ListHead, ghost q: seq<ListHead>, ghost k: nat)
    requires Ring(head, q) && k < |q| && entry == q[k]
    modifies head, q
    ensures Ring(head, Removed(q, k)) && entry.next == null && entry.prev == null
  {
    ghost var n := Around(head, q);
    ghost var n' := Around(head, Removed(q, k));
    assert n[k + 1] == entry && entry.prev == n[k] && entry.next == n[k + 2];
    assert forall i :: 0 <= i < |n| - 1 ==> n[i].next == n[i + 1] && n[i + 1].prev == n[i];
    var prev, next := entry.prev, entry.next;
    next.prev := prev;
    prev.next := next;
    entry.next := null;
    entry.prev := null;
    assert n' == n[..k + 1] + n[k + 2..];
    forall i | 0 <= i < |n'| - 1 ensures n'[i].next == n'[i + 1] && n'[i + 1].prev == n'[i] {
      if i < k {
        assert n'[i] == n[i] && n'[i + 1] == n[i + 1];
      } else if i > k {
        assert n'[i] == n[i + 1] && n'[i + 1] == n[i + 2];
      }
    }
  }

  /** list_empty. */
  method ListEmpty(head: ListHead, ghost q: seq<ListHead>) returns (empty: bool)
    requires Ring(head, q)
    ensures empty == (q == [])
  {
    assert head == Around(head, q)[0] && head.next == Around(head, q)[1];
    empty := head.next == head;
  }
}

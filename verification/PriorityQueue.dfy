/** The order of a POSIX message queue (IEEE Std 1003.1, System Interfaces, mq_send): a
    message goes behind every queued one of the same or a higher priority. */
module PriorityQueue {

  function Insert<T>(prio: T -> nat, q: seq<T>, m: T): (r: seq<T>)
    ensures |r| == |q| + 1
  {
    if q == [] || prio(q[0]) < prio(m) then [m] + q else [q[0]] + Insert(prio, q[1..], m)
  }

  ghost predicate Sorted<T>(prio: T -> nat, q: seq<T>) {
    forall i, j :: 0 <= i < j < |q| ==> prio(q[i]) >= prio(q[j])
  }

  lemma {:induction false} InsertHas<T>(prio: T -> nat, q: seq<T>, m: T)
    ensures multiset(Insert(prio, q, m)) == multiset(q) + multiset{m}
  {
    if q != [] && prio(q[0]) >= prio(m) {
      InsertHas(prio, q[1..], m);
      assert q == [q[0]] + q[1..];
    }
  }

  lemma {:induction false} InsertedItems<T>(prio: T -> nat, q: seq<T>, m: T)
    ensures forall i :: 0 <= i < |q| + 1 ==> Insert(prio, q, m)[i] == m || Insert(prio, q, m)[i] in q
  {
    if q != [] && prio(q[0]) >= prio(m) {
      InsertedItems(prio, q[1..], m);
    }
  }

  /** A post adds its message and keeps the priority order. */
  lemma {:induction false} InsertSorted<T>(prio: T -> nat, q: seq<T>, m: T)
    requires Sorted(prio, q)
    ensures Sorted(prio, Insert(prio, q, m))
  {
    if q != [] && prio(q[0]) >= prio(m) {
      InsertSorted(prio, q[1..], m);
      InsertedItems(prio, q[1..], m);
      var r := Insert(prio, q[1..], m);
      forall j | 0 <= j < |r| ensures prio(q[0]) >= prio(r[j]) {
        if r[j] != m {
          var i :| 0 <= i < |q[1..]| && q[1..][i] == r[j];
          assert q[i + 1] == r[j];
        }
      }
    }
  }
}

/** The mailboxes (tool/mailbox.c) over the message pool (tool/msg_factory.c): bounded
    queues that hand out the highest priority first and, within a priority, the oldest
    first, as mq_send and mq_receive do in IEEE Std 1003.1, System Interfaces. */
module Mailbox {
  import PriorityQueue
  import opened SlotPool

  /** Slots of the pool, and mq_maxmsg of every queue: both are MSG_NUM_MAX. */
  const MSG_NUM_MAX: nat := 128

  /** A queued copy of the message in `slot`. `time` is history: when it was posted. */
  datatype Item = Item(slot: nat, prio: nat, time: nat)

  /** `held`: slots in the hands of a task, between produce and post or between pend and
      recycle. */
  datatype State = State(free: seq<nat>, held: set<nat>, boxes: seq<seq<Item>>, clock: nat)

  datatype Event = Produce | Post(slot: nat, box: nat, prio: nat) | Pend(box: nat) | Recycle(slot: nat)

  function Prio(m: Item): nat {
    m.prio
  }

  /** mq_send. */
  function Insert(q: seq<Item>, m: Item): (r: seq<Item>)
    ensures |r| == |q| + 1
  {
    PriorityQueue.Insert(Prio, q, m)
  }

  /** Whether a post would have to wait is not part of being enabled: NeverFull shows that
      it never has to. */
  predicate Enabled(s: State, e: Event) {
    match e
    case Produce => s.free != []
    case Post(slot, box, _) => slot in s.held && box < |s.boxes|
    case Pend(box) => box < |s.boxes| && s.boxes[box] != []
    case Recycle(slot) => slot in s.held
  }

  function Next(s: State, e: Event): State
    requires Enabled(s, e)
  {
    match e
    case Produce => s.(free := s.free[1..], held := s.held + {s.free[0]})
    case Post(slot, box, prio) =>
      s.(held := s.held - {slot}, clock := s.clock + 1,
         boxes := s.boxes[box := Insert(s.boxes[box], Item(slot, prio, s.clock))])
    case Pend(box) =>
      s.(held := s.held + {s.boxes[box][0].slot}, boxes := s.boxes[box := s.boxes[box][1..]])
    case Recycle(slot) => s.(held := s.held - {slot}, free := s.free + [slot])
  }

  ghost predicate Start(s: State) {
    s.free == UpTo(MSG_NUM_MAX) && s.held == {} && s.clock == 0 && forall b :: 0 <= b < |s.boxes| ==> s.boxes[b] == []
  }

  ghost predicate Run(s: State, es: seq<Event>, t: State)
    decreases |es|
  {
    if es == [] then s == t else Enabled(s, es[0]) && Run(Next(s, es[0]), es[1..], t)
  }

  // ---------------------------------------------------------------- invariant

  /** A queue is in the order of delivery: by priority, then by time of posting. */
  ghost predicate Ordered(q: seq<Item>) {
    forall i, j :: 0 <= i < j < |q| ==> q[i].prio > q[j].prio || (q[i].prio == q[j].prio && q[i].time < q[j].time)
  }

  /** Queued copies are of distinct slots that are in use and in no task's hands. */
  ghost predicate BoxOk(s: State, b: nat)
    requires b < |s.boxes|
  {
    && Ordered(s.boxes[b])
    && (forall i :: 0 <= i < |s.boxes[b]| ==>
          var m := s.boxes[b][i]; m.slot < MSG_NUM_MAX && m.slot !in s.held && m.slot !in s.free && m.time < s.clock)
    && (forall i, j :: 0 <= i < j < |s.boxes[b]| ==> s.boxes[b][i].slot != s.boxes[b][j].slot)
  }

  ghost predicate Apart(p: seq<Item>, q: seq<Item>) {
    forall i, j :: 0 <= i < |p| && 0 <= j < |q| ==> p[i].slot != q[j].slot
  }

  ghost predicate Inv(s: State) {
    && (forall i, j :: 0 <= i < j < |s.free| ==> s.free[i] != s.free[j])
    && (forall x :: x in s.free ==> x < MSG_NUM_MAX && x !in s.held)
    && (forall x :: x in s.held ==> x < MSG_NUM_MAX)
    && (forall b :: 0 <= b < |s.boxes| ==> BoxOk(s, b))
    && (forall b, c :: 0 <= b < c < |s.boxes| ==> Apart(s.boxes[b], s.boxes[c]))
  }

  lemma InsertedItems(q: seq<Item>, m: Item)
    ensures forall i :: 0 <= i < |q| + 1 ==> Insert(q, m)[i] == m || Insert(q, m)[i] in q
  {
    PriorityQueue.InsertedItems(Prio, q, m);
  }

  lemma {:induction false} InsertOrders(q: seq<Item>, m: Item)
    requires Ordered(q) && forall i :: 0 <= i < |q| ==> q[i].time < m.time && q[i].slot != m.slot
    requires forall i, j :: 0 <= i < j < |q| ==> q[i].slot != q[j].slot
    ensures Ordered(Insert(q, m))
    ensures forall i, j :: 0 <= i < j < |q| + 1 ==> Insert(q, m)[i].slot != Insert(q, m)[j].slot
  {
    if q != [] && q[0].prio >= m.prio {
      InsertOrders(q[1..], m);
      InsertedItems(q[1..], m);
      var r := Insert(q[1..], m);
      forall j | 0 <= j < |r|
        ensures q[0].slot != r[j].slot
        ensures q[0].prio > r[j].prio || (q[0].prio == r[j].prio && q[0].time < r[j].time)
      {
        if r[j] != m {
          var i :| 0 <= i < |q[1..]| && q[1..][i] == r[j];
          assert q[i + 1] == r[j];
        }
      }
    }
  }

  lemma PostKeeps(s: State, slot: nat, box: nat, prio: nat)
    requires Inv(s) && Enabled(s, Post(slot, box, prio))
    ensures Inv(Next(s, Post(slot, box, prio)))
  {
    var s' := Next(s, Post(slot, box, prio));
    var m := Item(slot, prio, s.clock);
    assert BoxOk(s, box);
    InsertOrders(s.boxes[box], m);
    InsertedItems(s.boxes[box], m);
    forall b | 0 <= b < |s'.boxes| ensures BoxOk(s', b) {
      assert BoxOk(s, b);
    }
    forall b, c | 0 <= b < c < |s'.boxes| ensures Apart(s'.boxes[b], s'.boxes[c]) {
      assert Apart(s.boxes[b], s.boxes[c]) && BoxOk(s, b) && BoxOk(s, c);
    }
  }

  lemma PendKeeps(s: State, box: nat)
    requires Inv(s) && Enabled(s, Pend(box))
    ensures Inv(Next(s, Pend(box)))
  {
    var s' := Next(s, Pend(box));
    assert BoxOk(s, box);
    forall b | 0 <= b < |s'.boxes| ensures BoxOk(s', b) {
      assert BoxOk(s, b);
      if b != box { assert Apart(s.boxes[if b < box then b else box], s.boxes[if b < box then box else b]); }
    }
    forall b, c | 0 <= b < c < |s'.boxes| ensures Apart(s'.boxes[b], s'.boxes[c]) {
      assert Apart(s.boxes[b], s.boxes[c]);
    }
  }

  lemma ProduceKeeps(s: State)
    requires Inv(s) && Enabled(s, Produce)
    ensures Inv(Next(s, Produce))
  {
    var s' := Next(s, Produce);
    forall x | x in s'.free ensures x in s.free && x != s.free[0] {
      var i :| 0 <= i < |s'.free| && s'.free[i] == x;
      assert s.free[i + 1] == x;
    }
    forall b | 0 <= b < |s'.boxes| ensures BoxOk(s', b) {
      assert BoxOk(s, b);
    }
  }

  lemma RecycleKeeps(s: State, slot: nat)
    requires Inv(s) && slot in s.held
    ensures Inv(Next(s, Recycle(slot)))
  {
    var s' := Next(s, Recycle(slot));
    forall x | x in s'.free ensures x in s.free || x == slot {}
    forall i | 0 <= i < |s.free| ensures s.free[i] != slot {
      assert s.free[i] in s.free;
    }
    forall b | 0 <= b < |s'.boxes| ensures BoxOk(s', b) {
      assert BoxOk(s, b);
    }
  }

  lemma {:induction false} RunInv(s: State, es: seq<Event>, t: State)
    requires Inv(s) && Run(s, es, t)
    ensures Inv(t) && |t.boxes| == |s.boxes|
    decreases |es|
  {
    if es != [] {
      match es[0] {
        case Post(slot, box, prio) => PostKeeps(s, slot, box, prio);
        case Pend(box) => PendKeeps(s, box);
        case Produce => ProduceKeeps(s);
        case Recycle(slot) => RecycleKeeps(s, slot);
      }
      RunInv(Next(s, es[0]), es[1..], t);
    }
  }

  // ---------------------------------------------------------------- results

  function SlotsOf(q: seq<Item>): (r: seq<nat>)
    ensures |r| == |q| && forall i :: 0 <= i < |q| ==> r[i] == q[i].slot
  {
    if q == [] then [] else SlotsOf(q[..|q| - 1]) + [q[|q| - 1].slot]
  }

  lemma Below(all: set<nat>, n: nat)
    requires forall x :: x in all ==> x < n
    ensures |all| <= n
  {
    if n > 0 {
      Below(all - {n - 1}, n - 1);
      assert all <= (all - {n - 1}) + {n - 1};
    } else {
      assert all == {};
    }
  }

  lemma StartInv(s: State)
    requires Start(s)
    ensures Inv(s)
  {
    forall b | 0 <= b < |s.boxes| ensures BoxOk(s, b) {}
  }

  /** Main result: whenever a task posts, the mailbox has room: the queued copies are of
      distinct slots of the pool, and none is of the slot being posted. So mailbox_post
      never blocks and mailbox_timedpost never times out. */
  lemma NeverFull(s: State, es: seq<Event>, t: State, slot: nat, box: nat, prio: nat)
    requires Start(s) && Run(s, es, t) && Enabled(t, Post(slot, box, prio))
    ensures |t.boxes[box]| < MSG_NUM_MAX
  {
    StartInv(s);
    RunInv(s, es, t);
    assert BoxOk(t, box);
    var queued := SetOf(SlotsOf(t.boxes[box]));
    assert slot !in queued;
    Below(queued + {slot}, MSG_NUM_MAX);
  }

  /** What the mailboxes see of the pool: its free list, and slots in use. */
  ghost predicate SamePool(s: State, l: Ledger) {
    l.n == MSG_NUM_MAX && l.free == s.free && forall x :: x in l.busy <==> x < MSG_NUM_MAX && x !in s.free
  }

  function PoolEvents(e: Event): seq<SlotPool.Event> {
    match e
    case Produce => [TakeOne]
    case Recycle(slot) => [GiveOne(slot)]
    case _ => []
  }

  /** Producing and recycling are those of the pool. */
  lemma PoolStep(s: State, e: Event, l: Ledger)
    requires Inv(s) && Enabled(s, e) && SamePool(s, l)
    ensures if PoolEvents(e) == [] then SamePool(Next(s, e), l)
            else SlotPool.Enabled(l, PoolEvents(e)[0]) && SamePool(Next(s, e), SlotPool.Next(l, PoolEvents(e)[0]))
  {
    if e == Produce { assert s.free == [s.free[0]] + s.free[1..]; }
  }

  lemma FirstOut(q: seq<Item>)
    requires q != []
    ensures multiset(q[1..]) == multiset(q) - multiset{q[0]}
  {
    assert q == [q[0]] + q[1..];
  }

  /** What a step does to mailbox b: a post adds the copy with its slot, its priority and
      the time, a pend takes the first one out, and nothing else changes it. */
  lemma BoxStep(s: State, e: Event, b: nat)
    requires Enabled(s, e) && b < |s.boxes|
    ensures |Next(s, e).boxes| == |s.boxes|
    ensures multiset(Next(s, e).boxes[b]) ==
              if e.Post? && e.box == b then multiset(s.boxes[b]) + multiset{Item(e.slot, e.prio, s.clock)}
              else if e == Pend(b) then multiset(s.boxes[b]) - multiset{s.boxes[b][0]}
              else multiset(s.boxes[b])
    ensures Next(s, e).clock == if e.Post? then s.clock + 1 else s.clock
  {
    match e {
      case Post(slot, box, prio) => PriorityQueue.InsertHas(Prio, s.boxes[box], Item(slot, prio, s.clock));
      case Pend(box) => FirstOut(s.boxes[box]);
      case _ =>
    }
  }

  /** A message is received before every other in its mailbox that has a lower priority, or
      the same priority and was posted later; and it is in use, in no other mailbox and in
      nobody's hands. */
  lemma DeliveryOrder(s: State, es: seq<Event>, t: State, box: nat, i: nat)
    requires Start(s) && Run(s, es, t) && Enabled(t, Pend(box)) && 0 < i < |t.boxes[box]|
    ensures var first, other := t.boxes[box][0], t.boxes[box][i];
            && (first.prio > other.prio || (first.prio == other.prio && first.time < other.time))
            && first.slot != other.slot && first.slot !in t.held && first.slot !in t.free
  {
    StartInv(s);
    RunInv(s, es, t);
    assert BoxOk(t, box);
  }
}

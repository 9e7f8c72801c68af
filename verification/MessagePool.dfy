/** The message pool (tool/msg_factory.c, tool/message.c): 128 messages, each with 16
    payload slots, handed out from a free list and given back through copies that went
    through a queue by value. */
module MessagePool {
  import opened LinkedList
  import opened SlotPool
  import opened Counting

  const MSG_NUM_MAX: nat := 128
  const PAYLOAD_NUM_MAX: nat := 16

  // ---------------------------------------------------------------- one message

  /** Functions and data are numbers; 0 is a null resource. */
  datatype Callback = NoCall | Call(f: nat)

  datatype Payload = Payload(data: nat, len: nat, release: Callback, arg: int)

  /** A callback that has been run: of a payload, of the resource, of the message. */
  datatype Called = Released(f: nat, arg: int, data: nat) | ResourceReleased(f: nat, resource: nat) | Finished(f: nat)

  datatype Msg = Msg(
    id: int, prio: int, payload: seq<Payload>, num: nat, cur: nat,
    finish: Callback, resource: nat, release: Callback)

  /** What the user of a message does to it between produce and recycle. */
  datatype Op =
    | SetData(p: Payload) | GetData | SetQueue(id: int) | SetPrio(prio: int)
    | SetFinish(f: Callback) | SetResource(resource: nat, release: Callback)

  predicate Sized(m: Msg) {
    |m.payload| == PAYLOAD_NUM_MAX && m.num <= PAYLOAD_NUM_MAX
  }

  function Apply(m: Msg, op: Op): (r: Msg)
    requires Sized(m)
    ensures Sized(r)
  {
    match op
    case SetData(p) => if m.num == PAYLOAD_NUM_MAX then m else m.(payload := m.payload[m.num := p], num := m.num + 1)
    case GetData => if m.cur == m.num then m else m.(cur := m.cur + 1)
    case SetQueue(id) => m.(id := id)
    case SetPrio(prio) => m.(prio := prio)
    case SetFinish(f) => m.(finish := f)
    case SetResource(resource, release) => m.(resource := resource, release := release)
  }

  function ApplyAll(m: Msg, ops: seq<Op>): (r: Msg)
    requires Sized(m)
    ensures Sized(r)
  {
    if ops == [] then m else Apply(ApplyAll(m, ops[..|ops| - 1]), ops[|ops| - 1])
  }

  /** A message as msg_factory_produce hands it out. */
  predicate Fresh(m: Msg, id: int, prio: int) {
    && Sized(m) && m.id == id && m.prio == prio && m.num == 0 && m.cur == 0
    && m.finish == NoCall && m.resource == 0 && m.release == NoCall
    && forall i :: 0 <= i < PAYLOAD_NUM_MAX ==> m.payload[i].release == NoCall
  }

  function Releases(ps: seq<Payload>): seq<Called> {
    if ps == [] then []
    else
      var p := ps[|ps| - 1];
      Releases(ps[..|ps| - 1]) + (if p.release == NoCall then [] else [Released(p.release.f, p.arg, p.data)])
  }

  function Rest(finish: Callback, resource: nat, release: Callback): seq<Called> {
    (if resource != 0 && release != NoCall then [ResourceReleased(release.f, resource)] else [])
    + (if finish != NoCall then [Finished(finish.f)] else [])
  }

  /** The callbacks msg_factory_recycle runs, in order. */
  function RecycleCalls(m: Msg): seq<Called> {
    Releases(m.payload) + Rest(m.finish, m.resource, m.release)
  }

  // what has been attached, read off the operations alone

  /** The payloads that found room. */
  function Attached(ops: seq<Op>): (ps: seq<Payload>)
    ensures |ps| <= PAYLOAD_NUM_MAX
  {
    if ops == [] then []
    else
      var ps := Attached(ops[..|ops| - 1]);
      if ops[|ops| - 1].SetData? && |ps| < PAYLOAD_NUM_MAX then ps + [ops[|ops| - 1].p] else ps
  }

  function LastFinish(ops: seq<Op>): Callback {
    if ops == [] then NoCall
    else if ops[|ops| - 1].SetFinish? then ops[|ops| - 1].f else LastFinish(ops[..|ops| - 1])
  }

  function LastResource(ops: seq<Op>): (nat, Callback) {
    if ops == [] then (0, NoCall)
    else if ops[|ops| - 1].SetResource? then (ops[|ops| - 1].resource, ops[|ops| - 1].release)
    else LastResource(ops[..|ops| - 1])
  }

  lemma {:induction false} WhatIsAttached(m: Msg, id: int, prio: int, ops: seq<Op>)
    requires Fresh(m, id, prio)
    ensures var r := ApplyAll(m, ops);
            && r.num == |Attached(ops)| && r.payload[..r.num] == Attached(ops)
            && (forall i :: r.num <= i < PAYLOAD_NUM_MAX ==> r.payload[i].release == NoCall)
            && r.finish == LastFinish(ops) && (r.resource, r.release) == LastResource(ops)
  {
    if ops != [] {
      WhatIsAttached(m, id, prio, ops[..|ops| - 1]);
      var before := ApplyAll(m, ops[..|ops| - 1]);
      if ops[|ops| - 1].SetData? && before.num < PAYLOAD_NUM_MAX {
        var r := ApplyAll(m, ops);
        assert r.payload[..r.num] == before.payload[..before.num] + [ops[|ops| - 1].p];
      }
    }
  }

  lemma {:induction false} NoMoreReleases(ps: seq<Payload>, n: nat)
    requires n <= |ps| && forall i :: n <= i < |ps| ==> ps[i].release == NoCall
    ensures Releases(ps) == Releases(ps[..n])
    decreases |ps|
  {
    if n < |ps| {
      NoMoreReleases(ps[..|ps| - 1], n);
      assert ps[..|ps| - 1][..n] == ps[..n];
    } else {
      assert ps[..n] == ps;
    }
  }

  /** Main result: recycling a message runs exactly the callbacks attached since it was
      produced, each once: payloads in the order they were attached, then the resource,
      then the message. */
  lemma RecycleRunsAttached(m: Msg, id: int, prio: int, ops: seq<Op>)
    requires Fresh(m, id, prio)
    ensures RecycleCalls(ApplyAll(m, ops)) ==
            Releases(Attached(ops)) + Rest(LastFinish(ops), LastResource(ops).0, LastResource(ops).1)
  {
    WhatIsAttached(m, id, prio, ops);
    var r := ApplyAll(m, ops);
    NoMoreReleases(r.payload, r.num);
  }

  // the log of a recycling, entry by entry, against the operations themselves

  function DataOps(ops: seq<Op>): nat {
    if ops == [] then 0 else DataOps(ops[..|ops| - 1]) + One(ops[|ops| - 1].SetData?)
  }

  /** Operation k attaches a payload that finds room and has a callback. */
  predicate Asks(ops: seq<Op>, k: nat) {
    k < |ops| && ops[k].SetData? && DataOps(ops[..k]) < PAYLOAD_NUM_MAX && ops[k].p.release != NoCall
  }

  function AskedBy(ops: seq<Op>): nat {
    if ops == [] then 0 else AskedBy(ops[..|ops| - 1]) + One(Asks(ops, |ops| - 1))
  }

  /** Operation k is the last that sets the callback of the message, or its resource. */
  predicate FinishSetAt(ops: seq<Op>, k: nat) {
    k < |ops| && ops[k].SetFinish? && forall j :: k < j < |ops| ==> !ops[j].SetFinish?
  }

  predicate ResourceSetAt(ops: seq<Op>, k: nat) {
    k < |ops| && ops[k].SetResource? && forall j :: k < j < |ops| ==> !ops[j].SetResource?
  }

  lemma {:induction false} AttachedCount(ops: seq<Op>)
    ensures |Attached(ops)| == if DataOps(ops) < PAYLOAD_NUM_MAX then DataOps(ops) else PAYLOAD_NUM_MAX
  {
    if ops != [] { AttachedCount(ops[..|ops| - 1]); }
  }

  lemma ReleasesGrow(ps: seq<Payload>, p: Payload)
    ensures Releases(ps + [p]) ==
              Releases(ps) + (if p.release == NoCall then [] else [Released(p.release.f, p.arg, p.data)])
  {
    assert (ps + [p])[..|ps|] == ps;
  }

  /** One release for every payload that asks for it, in the order of the operations, with
      the argument and the data of that payload. */
  ghost predicate ReleasedInOrder(ops: seq<Op>, log: seq<Called>) {
    && AskedBy(ops) <= |log|
    && (forall i :: 0 <= i < |log| ==> (log[i].Released? <==> i < AskedBy(ops)))
    && forall k: nat :: Asks(ops, k) ==>
         && AskedBy(ops[..k]) < AskedBy(ops)
         && log[AskedBy(ops[..k])] == Released(ops[k].p.release.f, ops[k].p.arg, ops[k].p.data)
  }

  lemma AsksEarlier(ops: seq<Op>, n: nat, k: nat)
    requires k < n <= |ops|
    ensures Asks(ops[..n], k) <==> Asks(ops, k)
    ensures ops[..n][..k] == ops[..k]
  {
    assert ops[..n][..k] == ops[..k];
  }

  lemma AttachStep(ops: seq<Op>)
    requires ops != []
    ensures var n := |ops| - 1;
            Releases(Attached(ops)) == Releases(Attached(ops[..n])) + (if Asks(ops, n)
              then [Released(ops[n].p.release.f, ops[n].p.arg, ops[n].p.data)] else [])
  {
    var n := |ops| - 1;
    AttachedCount(ops[..n]);
    if ops[n].SetData? && |Attached(ops[..n])| < PAYLOAD_NUM_MAX {
      ReleasesGrow(Attached(ops[..n]), ops[n].p);
    }
  }

  lemma {:induction false} ReleasesCounted(ops: seq<Op>)
    ensures |Releases(Attached(ops))| == AskedBy(ops)
    ensures forall i :: 0 <= i < AskedBy(ops) ==> Releases(Attached(ops))[i].Released?
  {
    if ops != [] {
      ReleasesCounted(ops[..|ops| - 1]);
      AttachStep(ops);
    }
  }

  lemma {:induction false} ReleasedAt(ops: seq<Op>, k: nat)
    requires Asks(ops, k)
    ensures AskedBy(ops[..k]) < AskedBy(ops) == |Releases(Attached(ops))|
    ensures Releases(Attached(ops))[AskedBy(ops[..k])] == Released(ops[k].p.release.f, ops[k].p.arg, ops[k].p.data)
  {
    var n := |ops| - 1;
    ReleasesCounted(ops);
    ReleasesCounted(ops[..n]);
    AttachStep(ops);
    if k < n {
      AsksEarlier(ops, n, k);
      ReleasedAt(ops[..n], k);
    }
  }

  lemma ReleasesOfAttached(ops: seq<Op>)
    ensures |Releases(Attached(ops))| == AskedBy(ops) && ReleasedInOrder(ops, Releases(Attached(ops)))
  {
    ReleasesCounted(ops);
    forall k: nat | Asks(ops, k)
      ensures AskedBy(ops[..k]) < AskedBy(ops)
      ensures Releases(Attached(ops))[AskedBy(ops[..k])] == Released(ops[k].p.release.f, ops[k].p.arg, ops[k].p.data)
    {
      ReleasedAt(ops, k);
    }
  }

  lemma {:induction false} FinishIsLast(ops: seq<Op>)
    ensures forall k: nat :: FinishSetAt(ops, k) ==> LastFinish(ops) == ops[k].f
    ensures LastFinish(ops) != NoCall ==> exists k: nat :: FinishSetAt(ops, k)
  {
    if ops != [] && !ops[|ops| - 1].SetFinish? {
      var before := ops[..|ops| - 1];
      FinishIsLast(before);
      forall k: nat | FinishSetAt(ops, k) ensures LastFinish(ops) == ops[k].f {
        assert FinishSetAt(before, k);
      }
      if LastFinish(ops) != NoCall {
        var k: nat :| FinishSetAt(before, k);
        assert FinishSetAt(ops, k);
      }
    } else if ops != [] {
      assert FinishSetAt(ops, |ops| - 1);
    }
  }

  lemma {:induction false} ResourceIsLast(ops: seq<Op>)
    ensures forall k: nat :: ResourceSetAt(ops, k) ==> LastResource(ops) == (ops[k].resource, ops[k].release)
    ensures LastResource(ops).1 != NoCall ==> exists k: nat :: ResourceSetAt(ops, k)
  {
    if ops != [] && !ops[|ops| - 1].SetResource? {
      var before := ops[..|ops| - 1];
      ResourceIsLast(before);
      forall k: nat | ResourceSetAt(ops, k) ensures LastResource(ops) == (ops[k].resource, ops[k].release) {
        assert ResourceSetAt(before, k);
      }
      if LastResource(ops).1 != NoCall {
        var k: nat :| ResourceSetAt(before, k);
        assert ResourceSetAt(ops, k);
      }
    } else if ops != [] {
      assert ResourceSetAt(ops, |ops| - 1);
    }
  }

  /** The callback of the message itself runs once, as the last, exactly if the last one
      set is not null. */
  ghost predicate FinishedLast(ops: seq<Op>, log: seq<Called>) {
    && (forall k: nat :: FinishSetAt(ops, k) && ops[k].f != NoCall ==>
          |log| > 0 && log[|log| - 1] == Finished(ops[k].f.f))
    && (forall i :: 0 <= i < |log| && log[i].Finished? ==>
          i == |log| - 1 && exists k: nat :: FinishSetAt(ops, k) && ops[k].f == Call(log[i].f))
  }

  /** The callback of the resource runs once, behind those of the payloads, exactly if the
      last one set is not null and has a resource that is not null. */
  ghost predicate ResourceBehindPayloads(ops: seq<Op>, log: seq<Called>) {
    var n := AskedBy(ops);
    && (forall k: nat :: ResourceSetAt(ops, k) && ops[k].resource != 0 && ops[k].release != NoCall ==>
          n < |log| && log[n] == ResourceReleased(ops[k].release.f, ops[k].resource))
    && (forall i :: 0 <= i < |log| && log[i].ResourceReleased? ==>
          && i == n && log[i].resource != 0
          && exists k: nat :: ResourceSetAt(ops, k) && ops[k].resource == log[i].resource
                             && ops[k].release == Call(log[i].f))
  }

  lemma LogOfRest(ops: seq<Op>, log: seq<Called>)
    requires log == Releases(Attached(ops)) + Rest(LastFinish(ops), LastResource(ops).0, LastResource(ops).1)
    ensures ReleasedInOrder(ops, log) && FinishedLast(ops, log) && ResourceBehindPayloads(ops, log)
  {
    ReleasesOfAttached(ops);
    FinishIsLast(ops);
    ResourceIsLast(ops);
    assert log[..AskedBy(ops)] == Releases(Attached(ops));
  }

  /** Main result, in terms of the operations alone: what recycling runs after any use of a
      fresh message. */
  lemma RecycleLog(m: Msg, id: int, prio: int, ops: seq<Op>)
    requires Fresh(m, id, prio)
    ensures var log := RecycleCalls(ApplyAll(m, ops));
            ReleasedInOrder(ops, log) && FinishedLast(ops, log) && ResourceBehindPayloads(ops, log)
  {
    RecycleRunsAttached(m, id, prio, ops);
    LogOfRest(ops, RecycleCalls(ApplyAll(m, ops)));
  }

  /** Where a message goes: to the queue set last, or the one it was produced for. */
  lemma {:induction false} QueueIsLast(m: Msg, id: int, prio: int, ops: seq<Op>)
    requires Fresh(m, id, prio)
    ensures forall k :: 0 <= k < |ops| && ops[k].SetQueue? && (forall j :: k < j < |ops| ==> !ops[j].SetQueue?)
              ==> ApplyAll(m, ops).id == ops[k].id
    ensures (forall k :: 0 <= k < |ops| ==> !ops[k].SetQueue?) ==> ApplyAll(m, ops).id == id
  {
    if ops != [] {
      QueueIsLast(m, id, prio, ops[..|ops| - 1]);
      assert forall k :: 0 <= k < |ops| - 1 ==> ops[..|ops| - 1][k] == ops[k];
    }
  }

  /** How urgent it is: as set last, or as it was produced. */
  lemma {:induction false} PriorityIsLast(m: Msg, id: int, prio: int, ops: seq<Op>)
    requires Fresh(m, id, prio)
    ensures forall k :: 0 <= k < |ops| && ops[k].SetPrio? && (forall j :: k < j < |ops| ==> !ops[j].SetPrio?)
              ==> ApplyAll(m, ops).prio == ops[k].prio
    ensures (forall k :: 0 <= k < |ops| ==> !ops[k].SetPrio?) ==> ApplyAll(m, ops).prio == prio
  {
    if ops != [] {
      PriorityIsLast(m, id, prio, ops[..|ops| - 1]);
      assert forall k :: 0 <= k < |ops| - 1 ==> ops[..|ops| - 1][k] == ops[k];
    }
  }

  /** n calls of msg_get_data. */
  function Gets(n: nat): seq<Op> {
    if n == 0 then [] else Gets(n - 1) + [GetData]
  }

  /** The next payload to come out after n calls is the n-th that was attached, as long as
      there is one. */
  lemma {:induction false} PayloadsComeInOrder(m: Msg, n: nat)
    requires Sized(m) && m.cur == 0
    ensures ApplyAll(m, Gets(n)) == m.(cur := if n < m.num then n else m.num)
  {
    if n > 0 {
      PayloadsComeInOrder(m, n - 1);
      assert Gets(n)[..|Gets(n)| - 1] == Gets(n - 1);
    }
  }

  // ---------------------------------------------------------------- messages on the heap

  /** struct message. The payload array and the node belong to the pool slot; a copy that
      went through a queue has the other fields by value and shares these two. */
  class Message {
    var id: int
    var prio: int
    const payload: array<Payload>
    var num: nat
    var cur: nat
    var finish: Callback
    var resource: nat
    var release: Callback
    const node: ListHead

    constructor (payload: array<Payload>, node: ListHead)
      ensures this.payload == payload && this.node == node && num == 0 && cur == 0 && id == 0 && prio == 0
      ensures finish == NoCall && resource == 0 && release == NoCall
    {
      this.payload, this.node := payload, node;
      id, prio, num, cur, finish, resource, release := 0, 0, 0, 0, NoCall, 0, NoCall;
    }

    ghost predicate Valid() reads this {
      payload.Length == PAYLOAD_NUM_MAX && num <= PAYLOAD_NUM_MAX
    }

    function View(): (m: Msg)
      reads this, payload
    {
      Msg(id, prio, payload[..], num, cur, finish, resource, release)
    }

    /** msg_set_data. */
    method SetData(p: Payload) returns (ret: int)
      requires Valid()
      modifies this`num, payload
      ensures Valid() && View() == Apply(old(View()), Op.SetData(p))
      ensures ret == if old(num) == PAYLOAD_NUM_MAX then -1 else 0
    {
      if num == PAYLOAD_NUM_MAX {
        return -1;
      }
      payload[num] := p;
      num := num + 1;
      return 0;
    }

    /** msg_get_data: payloads come out in the order they went in. */
    method GetData() returns (data: nat, len: nat, some: bool)
      requires Valid() && cur <= num
      modifies this`cur
      ensures View() == Apply(old(View()), Op.GetData) && cur <= num
      ensures some == (old(cur) < num) && (some ==> data == payload[old(cur)].data && len == payload[old(cur)].len)
    {
      if cur == num {
        return 0, 0, false;
      }
      data, len, some := payload[cur].data, payload[cur].len, true;
      cur := cur + 1;
    }

    /** mq_send and mq_receive: the receiver's structure. */
    method Copy() returns (c: Message)
      ensures fresh(c) && c.View() == View() && c.payload == payload && c.node == node
    {
      c := new Message(payload, node);
      c.id, c.prio, c.num, c.cur := id, prio, num, cur;
      c.finish, c.resource, c.release := finish, resource, release;
    }

    /** msg_clear. */
    method Clear()
      modifies this
      ensures View() == Cleared(old(View()))
    {
      id, cur, num, prio := 0, 0, 0, 0;
      finish, resource, release := NoCall, 0, NoCall;
    }
  }

  function Cleared(m: Msg): Msg {
    Msg(0, 0, m.payload, 0, 0, NoCall, 0, NoCall)
  }

  /** The releases of a payload array run from the first to the last slot. */
  method RunReleases(payload: array<Payload>) returns (log: seq<Called>)
    requires payload.Length == PAYLOAD_NUM_MAX
    ensures log == Releases(payload[..])
  {
    log := [];
    var i := 0;
    while i < PAYLOAD_NUM_MAX
      invariant 0 <= i <= PAYLOAD_NUM_MAX && log == Releases(payload[..i])
    {
      assert payload[..i + 1][..i] == payload[..i];
      if payload[i].release != NoCall {
        log := log + [Released(payload[i].release.f, payload[i].arg, payload[i].data)];
      }
      i := i + 1;
    }
    assert payload[..i] == payload[..];
  }

  // ---------------------------------------------------------------- the factory

  ghost predicate Slots(pool: Pool, msgs: seq<Message>)
    reads msgs
  {
    && |msgs| == |pool.nodes|
    && (forall i :: 0 <= i < |msgs| ==> msgs[i].Valid() && msgs[i].node == pool.nodes[i])
    && (forall i, j :: 0 <= i < j < |msgs| ==> msgs[i] != msgs[j] && msgs[i].payload != msgs[j].payload)
  }

  /** struct message_factory. `log` is history: the callbacks that have been run. */
  class Factory {
    const pool: Pool
    const msgs: seq<Message>
    ghost var log: seq<Called>

    ghost function Payloads(): set<array<Payload>> {
      set m | m in msgs :: m.payload
    }

    /** A free slot has been cleared. */
    ghost predicate Valid()
      reads this, pool, pool.list, pool.nodes, pool.ring, msgs
    {
      && pool.Valid() && Slots(pool, msgs)
      && forall i :: 0 <= i < |msgs| && i in pool.ledger.free ==> msgs[i].num == 0 && msgs[i].cur == 0
    }

    /** create_msg_factory. */
    constructor ()
      ensures Valid() && |msgs| == MSG_NUM_MAX && pool.ledger == Start(MSG_NUM_MAX) && log == []
    {
      var p := new Pool(MSG_NUM_MAX);
      var m := NewMessages(p);
      pool, msgs, log := p, m, [];
    }

    /** msg_factory_produce: a message as good as new, or none. */
    method Produce(id: int, prio: int) returns (m: Message?)
      requires Valid()
      modifies pool, pool.list, pool.nodes, msgs, Payloads()
      ensures Valid() && pool.ledger == Next(old(pool.ledger), TakeOne)
      ensures m == null <==> old(pool.ledger).free == []
      ensures m != null ==> m == msgs[old(pool.ledger).free[0]] && Fresh(m.View(), id, prio)
      ensures forall i :: 0 <= i < |msgs| && msgs[i] != m ==> msgs[i].View() == old(msgs[i].View())
    {
      var ok, slot := pool.Take();
      if !ok {
        return null;
      }
      m := msgs[slot];
      Prepare(m, id, prio);
    }

    method PutBack(node: ListHead)
      requires Valid() && node.owner < |msgs| && node == pool.nodes[node.owner] && node.owner in pool.ledger.busy
      requires msgs[node.owner].num == 0 && msgs[node.owner].cur == 0
      modifies pool, pool.list, pool.nodes
      ensures Valid() && pool.ledger == Next(old(pool.ledger), GiveOne(node.owner))
    {
      pool.Give(node);
    }

    /** msg_factory_recycle, through any copy of the message: the slot that was produced
        goes back, and the callbacks attached to it are run. */
    method Recycle(copy: Message)
      requires Valid()
      requires copy.node.owner < |msgs| && copy.node == msgs[copy.node.owner].node
      requires copy.node.owner in pool.ledger.busy
      modifies this, pool, pool.list, pool.nodes, msgs
      ensures Valid() && pool.ledger == Next(old(pool.ledger), GiveOne(copy.node.owner))
      ensures log == old(log) + RecycleCalls(old(msgs[copy.node.owner].View()))
      ensures msgs[copy.node.owner].View() == Cleared(old(msgs[copy.node.owner].View()))
      ensures forall i :: 0 <= i < |msgs| && i != copy.node.owner ==> msgs[i].View() == old(msgs[i].View())
    {
      var msg := msgs[copy.node.owner];
      var calls := RunCallbacks(msg);
      log := log + calls;
      msg.Clear();
      PutBack(copy.node);
    }

    /** A message that went through a mailbox is recycled through the receiver's structure,
        which gives back the slot that was sent. */
    method RecycleReceived(slot: nat) returns (copy: Message)
      requires Valid() && slot < |msgs| && slot in pool.ledger.busy
      modifies this, pool, pool.list, pool.nodes, msgs
      ensures Valid() && fresh(copy) && copy.View() == old(msgs[slot].View())
      ensures pool.ledger == Next(old(pool.ledger), GiveOne(slot))
      ensures log == old(log) + RecycleCalls(old(msgs[slot].View()))
    {
      copy := msgs[slot].Copy();
      Recycle(copy);
    }
  }

  /** The payloads', the resource's and the message's own callback. */
  method RunCallbacks(msg: Message) returns (calls: seq<Called>)
    requires msg.Valid()
    ensures calls == RecycleCalls(msg.View())
  {
    calls := RunReleases(msg.payload);
    if msg.resource != 0 && msg.release != NoCall {
      calls := calls + [ResourceReleased(msg.release.f, msg.resource)];
    }
    if msg.finish != NoCall {
      calls := calls + [Finished(msg.finish.f)];
    }
  }

  /** The allocation loop of create_msg_factory. */
  method NewMessages(pool: Pool) returns (msgs: seq<Message>)
    requires pool.Valid()
    ensures Slots(pool, msgs) && fresh(msgs)
    ensures forall m :: m in msgs ==> m.num == 0 && m.cur == 0 && fresh(m.payload)
  {
    msgs := [];
    var i := 0;
    while i < |pool.nodes|
      invariant 0 <= i <= |pool.nodes| && |msgs| == i
      invariant forall k :: 0 <= k < i ==> msgs[k].Valid() && msgs[k].node == pool.nodes[k]
      invariant forall j, k :: 0 <= j < k < i ==> msgs[j] != msgs[k] && msgs[j].payload != msgs[k].payload
      invariant forall m :: m in msgs ==> fresh(m) && m.num == 0 && m.cur == 0 && fresh(m.payload)
    {
      var payload := new Payload[PAYLOAD_NUM_MAX](_ => Payload.Payload(0, 0, NoCall, 0));
      var msg := new Message(payload, pool.nodes[i]);
      msgs := msgs + [msg];
      i := i + 1;
    }
  }

  /** Produce sets up a slot: no callback of an earlier use is left. */
  method Prepare(msg: Message, id: int, prio: int)
    requires msg.Valid() && msg.num == 0 && msg.cur == 0
    modifies msg, msg.payload
    ensures Fresh(msg.View(), id, prio) && msg.num == 0 && msg.cur == 0
  {
    msg.id, msg.prio := id, prio;
    msg.finish, msg.resource, msg.release := NoCall, 0, NoCall;
    var i := 0;
    while i < PAYLOAD_NUM_MAX
      invariant 0 <= i <= PAYLOAD_NUM_MAX
      invariant forall k :: 0 <= k < i ==> msg.payload[k].release == NoCall
      modifies msg.payload
    {
      msg.payload[i] := msg.payload[i].(release := NoCall);
      i := i + 1;
    }
  }
}

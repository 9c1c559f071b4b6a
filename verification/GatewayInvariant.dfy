/** What every reachable state of the gateway satisfies. */
module GatewayInvariant {
  import opened Common
  import opened GatewayTypes
  import opened GatewaySpec

  // ----- the invariant

  ghost predicate HeadSent(d: IotData) {
    d.requests != [] && d.requests[0].status == RequestSent
  }

  ghost predicate AllPending(q: seq<Request>) {
    forall i :: 0 <= i < |q| ==> q[i].status == RequestPending
  }

  ghost predicate AllSound(q: seq<Request>) {
    forall i :: 0 <= i < |q| ==> Sound(BodyOf(q[i]))
  }

  /** Only the head may be SENT, and a busy node waits for its head. */
  ghost predicate QueueOk(d: IotData) {
    && AllSound(d.requests)
    && (d.requests != [] ==> AllPending(d.requests[1..]))
    && (d.workState == Busy ==> HeadSent(d))
  }

  function Wires(bs: seq<Body>): seq<NodeMsg> {
    seq(|bs|, i requires 0 <= i < |bs| => WireOf(bs[i]))
  }

  /** Requests leave the queue in the order in which they entered it. */
  ghost predicate FifoOk(d: IotData) {
    d.hist.enqueued == d.hist.completed + Bodies(d.requests)
  }

  /** What was written is the completed requests, then the head when it is out. */
  ghost predicate WrittenOk(d: IotData) {
    d.hist.written == Wires(d.hist.completed + if HeadSent(d) then [BodyOf(d.requests[0])] else [])
  }

  /** The countdown, the firings it counts, and the HELLO requests that these have put into the queue. */
  ghost predicate HelloOk(marked: bool, d: IotData) {
    && d.helloCount <= HelloCountDefault
    && (!marked ==>
         d.helloCount + d.hist.fires == HelloCountDefault && Hellos(d.hist.enqueued) == d.hist.greeted + d.hist.fires)
  }

  ghost predicate NodeOk(asserts: bool, marked: bool, d: IotData) {
    && QueueOk(d)
    && FifoOk(d)
    && (asserts ==> WrittenOk(d))
    && HelloOk(marked, d)
    && d.capsNum == |d.caps| % 256
  }

  /** The number of requests waiting at the listed nodes. */
  ghost function Total(order: seq<EventNode>, nodes: map<EventNode, NodeData>): nat {
    if order == [] then 0
    else (if order[0] in nodes then QueueLength(nodes[order[0]].data) else 0) + Total(order[1..], nodes)
  }

  ghost function Waiting(s: State): nat {
    Total(s.order, s.nodes)
  }

  ghost predicate Listed(s: State) {
    && Distinct(s.order) && Distinct(s.todo)
    && (forall p :: p in s.nodes ==> p in s.order)
    && (forall p :: p in s.order ==> p in s.nodes)
    && (forall p :: p in s.todo ==> p in s.nodes)
  }

  ghost predicate NodesOk(s: State) {
    forall p :: p in s.nodes && s.nodes[p].data.Iot? ==> NodeOk(s.build.asserts, s.nodes[p].marked, s.nodes[p].data.iot)
  }

  ghost predicate WorkOk(work: seq<Request>) {
    forall i :: 0 <= i < |work| ==> work[i].status == RequestPending && Sound(BodyOf(work[i])) && work[i].data.Some?
  }

  ghost predicate CounterOk(s: State) {
    && s.count == Waiting(s) % 256
    && (s.armed ==> Waiting(s) > 0)
  }

  function FdOf(nodes: map<EventNode, NodeData>, p: EventNode): int {
    if p in nodes then nodes[p].fd else -1
  }

  function Fds(order: seq<EventNode>, nodes: map<EventNode, NodeData>): seq<int> {
    if order == [] then [] else [FdOf(nodes, order[0])] + Fds(order[1..], nodes)
  }

  /** event_count, the descriptor set and max_fd against the descriptors of the list. */
  ghost predicate FdTable(fds: seq<int>, count: int, fdSet: set<int>, maxFd: int) {
    && count == |fds|
    && Distinct(fds)
    && (forall fd :: fd in fdSet <==> fd in fds)
    && (forall fd :: fd in fds ==> 0 <= fd < maxFd)
    && (if fds == [] then maxFd == 0 else maxFd - 1 in fds)
  }

  ghost predicate FdsOk(s: State) {
    FdTable(Fds(s.order, s.nodes), s.eventCount, s.fdSet, s.maxFd)
  }

  ghost predicate Core(s: State) {
    && Listed(s) && NodesOk(s) && WorkOk(s.work) && CounterOk(s) && FdsOk(s)
    && (s.build.asserts ==> s.status != Undefined)
  }

  ghost predicate PairedAt(nodes: map<EventNode, NodeData>, p: EventNode)
    requires p in nodes
  {
    match nodes[p].data
    case Iot(d) =>
      && d.timer.Some? && d.timer.value in nodes
      && nodes[d.timer.value].data.Timer?
      && nodes[d.timer.value].marked == nodes[p].marked
      && (!nodes[p].marked ==> nodes[d.timer.value].data.owner == Some(p))
    case Timer(o) =>
      && (o.None? ==> nodes[p].marked)
      && (o.Some? ==> o.value in nodes && nodes[o.value].data.Iot? && nodes[o.value].data.iot.timer == Some(p))
    case Plain(_) => !nodes[p].marked
  }

  /** Every IoT node has a timer and the two carry the same mark; an intact timer points back. */
  ghost predicate Paired(nodes: map<EventNode, NodeData>) {
    forall p :: p in nodes ==> PairedAt(nodes, p)
  }

  /** A timer the pass has still to visit is intact. */
  ghost predicate TodoOk(s: State) {
    forall p :: p in s.todo && p in s.nodes && s.nodes[p].data.Timer? ==> s.nodes[p].data.owner.Some?
  }

  ghost predicate Inv(s: State) {
    Core(s) && Paired(s.nodes) && TodoOk(s)
  }

  // ----- sums

  lemma {:induction false} TotalUnchanged(order: seq<EventNode>, nodes: map<EventNode, NodeData>,
    nodes': map<EventNode, NodeData>)
    requires forall p :: p in order ==>
      (p in nodes <==> p in nodes') && (p in nodes ==> QueueLength(nodes[p].data) == QueueLength(nodes'[p].data))
    ensures Total(order, nodes) == Total(order, nodes')
  {
    if order != [] {
      TotalUnchanged(order[1..], nodes, nodes');
    }
  }

  lemma {:induction false} TotalUpdate(order: seq<EventNode>, nodes: map<EventNode, NodeData>, p: EventNode,
    n: NodeData)
    requires Distinct(order) && p in order && p in nodes
    ensures Total(order, nodes[p := n]) == Total(order, nodes) + QueueLength(n.data) - QueueLength(nodes[p].data)
  {
    if order[0] == p {
      TotalUnchanged(order[1..], nodes, nodes[p := n]);
    } else {
      TotalUpdate(order[1..], nodes, p, n);
    }
  }

  lemma {:induction false} TotalWithout(order: seq<EventNode>, nodes: map<EventNode, NodeData>, p: EventNode)
    requires Distinct(order) && p in order && p in nodes
    ensures Total(Without(order, p), nodes - {p}) == Total(order, nodes) - QueueLength(nodes[p].data)
  {
    if order[0] == p {
      WithoutAbsent(order[1..], p);
      TotalUnchanged(order[1..], nodes, nodes - {p});
    } else {
      TotalWithout(order[1..], nodes, p);
    }
  }

  lemma {:induction false} AllEmptyIsZero(order: seq<EventNode>, nodes: map<EventNode, NodeData>)
    requires forall p :: p in order && p in nodes ==> QueueLength(nodes[p].data) == 0
    ensures Total(order, nodes) == 0
  {
    if order != [] {
      AllEmptyIsZero(order[1..], nodes);
    }
  }

  lemma TotalAtLeast(order: seq<EventNode>, nodes: map<EventNode, NodeData>, p: EventNode)
    requires p in order && p in nodes
    ensures Total(order, nodes) >= QueueLength(nodes[p].data)
  {
  }

  // ----- one IoT node changes

  lemma {:induction false} FdsUnchanged(order: seq<EventNode>, nodes: map<EventNode, NodeData>,
    nodes': map<EventNode, NodeData>)
    requires forall p :: p in order ==> FdOf(nodes, p) == FdOf(nodes', p)
    ensures Fds(order, nodes) == Fds(order, nodes')
  {
    if order != [] {
      FdsUnchanged(order[1..], nodes, nodes');
    }
  }

  lemma PairingKept(nodes: map<EventNode, NodeData>, p: EventNode, d: IotData)
    requires Paired(nodes) && p in nodes && nodes[p].data.Iot?
    requires d.timer == nodes[p].data.iot.timer
    ensures Paired(nodes[p := nodes[p].(data := Iot(d))])
  {
    var nodes' := nodes[p := nodes[p].(data := Iot(d))];
    forall q | q in nodes'
      ensures PairedAt(nodes', q)
    {
      assert PairedAt(nodes, q);
    }
  }

  lemma TodoKept(s: State, p: EventNode, d: IotData, s': State)
    requires TodoOk(s) && IsIot(s, p)
    requires s'.nodes == s.nodes[p := s.nodes[p].(data := Iot(d))] && s'.todo == s.todo
    ensures TodoOk(s')
  {
  }

  /** The common part of every step that touches one IoT node: if the node is still good and the counter
      moved with its queue, the invariant holds. */
  lemma UpdateKeepsInv(s: State, p: EventNode, d: IotData, s': State)
    requires Inv(s) && IsIot(s, p)
    requires s' ==
      PutIot(s, p, d).(count := s'.count, armed := s'.armed, published := s'.published, status := s'.status)
    requires d.timer == IotOf(s, p).timer
    requires NodeOk(s.build.asserts, s.nodes[p].marked, d)
    requires var w := Waiting(s) + |d.requests| - |IotOf(s, p).requests|; s'.count == w % 256 && (s'.armed ==> w > 0)
    requires s.build.asserts ==> s'.status != Undefined
    ensures Inv(s')
    ensures Waiting(s') == Waiting(s) + |d.requests| - |IotOf(s, p).requests|
  {
    var n := s.nodes[p].(data := Iot(d));
    TotalUpdate(s.order, s.nodes, p, n);
    FdsUnchanged(s.order, s.nodes, s'.nodes);
    PairingKept(s.nodes, p, d);
    TodoKept(s, p, d, s');
    assert Core(s') by {
      assert Listed(s');
      assert NodesOk(s');
    }
  }

  // ----- queues and histories

  lemma BodiesSnoc(q: seq<Request>, r: Request)
    ensures Bodies(q + [r]) == Bodies(q) + [BodyOf(r)]
  {
  }

  lemma BodiesTail(q: seq<Request>)
    requires q != []
    ensures Bodies(q) == [BodyOf(q[0])] + Bodies(q[1..])
  {
  }

  lemma HellosSnoc(bs: seq<Body>, b: Body)
    ensures Hellos(bs + [b]) == Hellos(bs) + if b.reqType.HelloRequest? then 1 else 0
  {
    assert (bs + [b])[..|bs|] == bs;
  }

  /** A node with one more request at the tail of its queue. */
  function Longer(d: IotData, r: Request): IotData {
    d.(requests := d.requests + [r], hist := d.hist.(enqueued := d.hist.enqueued + [BodyOf(r)]))
  }

  /** A request at the tail keeps all that is promised of a node; a HELLO is one more of them. */
  lemma LongerIsOk(asserts: bool, marked: bool, d: IotData, r: Request)
    requires NodeOk(asserts, marked, d) && r.status == RequestPending && Sound(BodyOf(r))
    ensures var d' := Longer(d, r);
      && QueueOk(d') && FifoOk(d') && (asserts ==> WrittenOk(d'))
      && Hellos(d'.hist.enqueued) == Hellos(d.hist.enqueued) + if r.reqType.HelloRequest? then 1 else 0
  {
    hide QueueOk, FifoOk, WrittenOk, Hellos;
    LongerQueue(d, r);
    LongerFifo(d, r);
    HellosSnoc(d.hist.enqueued, BodyOf(r));
  }

  lemma LongerQueue(d: IotData, r: Request)
    requires QueueOk(d) && r.status == RequestPending && Sound(BodyOf(r))
    ensures QueueOk(Longer(d, r)) && (WrittenOk(d) ==> WrittenOk(Longer(d, r)))
  {
    if d.requests != [] {
      assert Longer(d, r).requests[1..] == d.requests[1..] + [r];
    }
    hide Wires;
  }

  lemma LongerFifo(d: IotData, r: Request)
    requires FifoOk(d)
    ensures FifoOk(Longer(d, r))
  {
    BodiesSnoc(d.requests, r);
    hide Bodies;
    ConcatAssociates(d.hist.completed, Bodies(d.requests), [BodyOf(r)]);
  }

  lemma EnqueueIsLonger(s: State, p: EventNode, r: Request)
    requires IsIot(s, p)
    ensures IsIot(Enqueue(s, p, r), p)
    ensures Enqueue(s, p, r).work == s.work && Enqueue(s, p, r).published == s.published
    ensures Enqueue(s, p, r).status == s.status && Enqueue(s, p, r).order == s.order
    ensures Enqueue(s, p, r) ==
      PutIot(s, p, Longer(IotOf(s, p), r)).(count := Inc8(s.count), armed := s.armed || Inc8(s.count) == 1)
  {
  }

  lemma EnqueueKeepsInv(s: State, p: EventNode, r: Request)
    requires Inv(s) && IsIot(s, p)
    requires r.status == RequestPending && Sound(BodyOf(r)) && !r.reqType.HelloRequest?
    ensures Inv(Enqueue(s, p, r)) && Waiting(Enqueue(s, p, r)) == Waiting(s) + 1
  {
    hide Inv, Enqueue, QueueOk, FifoOk, WrittenOk, Total;
    var d := IotOf(s, p);
    InvAt(s, p);
    LongerIsOk(s.build.asserts, s.nodes[p].marked, d, r);
    EnqueueIsLonger(s, p, r);
    UpdateKeepsInv(s, p, Longer(d, r), Enqueue(s, p, r));
  }

  lemma EnqueueWaits(s: State, p: EventNode, r: Request)
    requires Inv(s) && IsIot(s, p)
    ensures Waiting(Enqueue(s, p, r)) == Waiting(s) + 1 && s.count == Waiting(s) % 256
  {
    var d := Longer(IotOf(s, p), r);
    InvAt(s, p);
    EnqueueIsLonger(s, p, r);
    hide Enqueue;
    TotalUpdate(s.order, s.nodes, p, s.nodes[p].(data := Iot(d)));
  }

  /** Dropping the head keeps a node good, given that a LOG_ENABLE build knows it to be SENT. */
  lemma ReleaseNodeOk(asserts: bool, marked: bool, d: IotData, d': IotData)
    requires NodeOk(asserts, marked, d) && d.requests != []
    requires asserts ==> HeadSent(d)
    requires d' == DropHead(d).(workState := Free)
    ensures NodeOk(asserts, marked, d')
  {
    BodiesTail(d.requests);
    if d'.requests != [] {
      assert d'.requests[0] == d.requests[1..][0];
      assert d'.requests[1..] == d.requests[1..][1..];
    }
    assert d'.hist.completed + [] == d'.hist.completed;
  }

  lemma ReleaseIsUpdate(s: State, p: EventNode)
    requires IsIot(s, p) && IotOf(s, p).requests != []
    ensures Release(s, p) == PutIot(s, p, DropHead(IotOf(s, p)).(workState := Free))
      .(count := Dec8(s.count), armed := s.armed && Dec8(s.count) != 0)
  {
    assert Release(s, p).nodes == PutIot(s, p, DropHead(IotOf(s, p)).(workState := Free)).nodes;
  }

  /** What the invariant says of one IoT node and of the counter. */
  lemma InvAt(s: State, p: EventNode)
    requires Inv(s) && IsIot(s, p)
    ensures NodeOk(s.build.asserts, s.nodes[p].marked, IotOf(s, p)) && p in s.order
    ensures s.count == Waiting(s) % 256 && Waiting(s) >= |IotOf(s, p).requests| && (s.armed ==> Waiting(s) > 0)
    ensures s.build.asserts ==> s.status != Undefined
  {
    TotalAtLeast(s.order, s.nodes, p);
  }

  lemma ReleaseKeepsInv(s: State, p: EventNode)
    requires Inv(s) && IsIot(s, p) && IotOf(s, p).requests != []
    requires s.build.asserts ==> HeadSent(IotOf(s, p))
    ensures Inv(Release(s, p)) && Waiting(Release(s, p)) == Waiting(s) - 1
  {
    hide Inv, NodeOk, Release, Total;
    var d := IotOf(s, p);
    var d' := DropHead(d).(workState := Free);
    InvAt(s, p);
    ReleaseNodeOk(s.build.asserts, s.nodes[p].marked, d, d');
    ReleaseIsUpdate(s, p);
    UpdateKeepsInv(s, p, d', Release(s, p));
  }

  /** Sending the head keeps a node good, given that a LOG_ENABLE build knows it to be PENDING. */
  lemma SentIsOk(asserts: bool, marked: bool, d: IotData, now: Timespec)
    requires NodeOk(asserts, marked, d) && d.requests != []
    requires asserts ==> d.requests[0].status == RequestPending
    ensures NodeOk(asserts, marked, SendHead(d, now))
  {
    var d' := SendHead(d, now);
    assert d'.requests[1..] == d.requests[1..];
    assert Bodies(d'.requests) == Bodies(d.requests);
    if asserts {
      assert !HeadSent(d);
      assert d.hist.completed + [] == d.hist.completed;
      assert Wires(d.hist.completed + [BodyOf(d.requests[0])]) ==
        Wires(d.hist.completed) + [WireOf(BodyOf(d.requests[0]))];
    }
  }

  lemma QueueAt(s: State, p: EventNode)
    requires Inv(s) && IsIot(s, p)
    ensures var d := IotOf(s, p);
      && (d.requests != [] ==> Sound(BodyOf(d.requests[0])))
      && (d.workState.Busy? ==> HeadSent(d))
      && (d.requests != [] ==> d.requests[0].reqType.HelloRequest? || d.requests[0].data.Some?)
      && (d.requests != [] && d.requests[0].status != RequestPending ==> d.requests[0].status == RequestSent)
  {
    assert NodeOk(s.build.asserts, s.nodes[p].marked, IotOf(s, p));
    assert IotOf(s, p).requests != [] ==> Sound(BodyOf(IotOf(s, p).requests[0]));
  }

  /** The three ways in which sendNodeMessage can go. */
  lemma SendCases(s: State, p: EventNode, now: Reading)
    requires IsIot(s, p) && IotOf(s, p).requests != [] && Sound(BodyOf(IotOf(s, p).requests[0]))
    ensures var s', d := Send(s, p, now), IotOf(s, p);
      || (s' == s.(status := Halted))
      || (s' == s.(status := Spinning))
      || ((s.build.asserts ==> d.requests[0].status == RequestPending) && s' == PutIot(s, p, SendHead(d, now.time)))
    ensures |SendHead(IotOf(s, p), now.time).requests| == |IotOf(s, p).requests|
    ensures SendHead(IotOf(s, p), now.time).timer == IotOf(s, p).timer
  {
    hide EndlessAt;
  }

  lemma SendKeepsInv(s: State, p: EventNode, now: Reading)
    requires Inv(s) && IsIot(s, p) && IotOf(s, p).requests != []
    ensures Inv(Send(s, p, now)) && Waiting(Send(s, p, now)) == Waiting(s)
  {
    hide Inv, NodeOk, Send, SendHead, Total;
    var d, d' := IotOf(s, p), SendHead(IotOf(s, p), now.time);
    InvAt(s, p);
    QueueAt(s, p);
    SendCases(s, p, now);
    StatusKeepsInv(s, Halted);
    StatusKeepsInv(s, Spinning);
    if s.build.asserts ==> d.requests[0].status == RequestPending {
      SentIsOk(s.build.asserts, s.nodes[p].marked, d, now.time);
      UpdateKeepsInv(s, p, d', PutIot(s, p, d'));
    }
  }

  lemma {:induction false} ScanKeepsInv(s: State, i: nat, clock: Clock)
    requires Inv(s)
    ensures Inv(Scan(s, i, clock))
    decreases |s.order| - i
  {
    if s.status == Running && i < |s.order| {
      var p := s.order[i];
      assert p in s.nodes;
      ScanOneKeepsInv(s, p, clock(i));
      ScanKeepsInv(ScanOne(s, p, clock(i)), i + 1, clock);
    }
  }

  lemma ScanOneKeepsInv(s: State, p: EventNode, now: Reading)
    requires Inv(s) && p in s.nodes
    ensures Inv(ScanOne(s, p, now))
    ensures ScanOne(s, p, now).order == s.order
    ensures Waiting(ScanOne(s, p, now)) <= Waiting(s)
  {
    if IsIot(s, p) {
      var d := IotOf(s, p);
      assert NodeOk(s.build.asserts, s.nodes[p].marked, d);
      if d.workState.Busy? {
        if TimedOut(d.requests[0].timestamp, now.time) {
          ReleaseKeepsInv(s, p);
        }
      } else if d.requests != [] {
        SendKeepsInv(s, p, now);
      }
    }
  }

  // ----- messages from a node

  lemma ResetKeepsInv(s: State, p: EventNode, d1: IotData)
    requires Inv(s) && IsIot(s, p)
    requires d1 == Greeted(IotOf(s, p))
    ensures Inv(PutIot(s, p, d1)) && Waiting(PutIot(s, p, d1)) == Waiting(s)
  {
    assert NodeOk(s.build.asserts, s.nodes[p].marked, IotOf(s, p));
    UpdateKeepsInv(s, p, d1, PutIot(s, p, d1));
  }

  lemma HelloKeepsInv(s: State, p: EventNode)
    requires Inv(s) && IsIot(s, p)
    ensures Inv(OnHello(s, p))
  {
    var d := IotOf(s, p);
    var d1 := Greeted(d);
    var s1 := PutIot(s, p, d1);
    ResetKeepsInv(s, p, d1);
    StatusKeepsInv(s1, Halted);
    if d.requests != [] && (s.build.asserts ==> HeadSent(d)) {
      ReleaseKeepsInv(s1, p);
    }
    hide Inv, Release;
  }

  lemma {:induction false} AddCapsKeeps(d: IotData, items: seq<CapItem>)
    requires d.capsNum == |d.caps| % 256
    ensures var d' := AddCaps(d, items);
      d'.capsNum == |d'.caps| % 256 && d' == d.(caps := d'.caps, capsNum := d'.capsNum)
    decreases |items|
  {
    if items != [] && GoodCap(items[0]) {
      var caps := [Capability(ToInt32(items[0].capType.v), items[0].capId.v)] + d.caps;
      AddCapsKeeps(d.(caps := caps, capsNum := Inc8(d.capsNum)), items[1..]);
    }
  }

  lemma CapsEffect(s: State, p: EventNode, name: Field<string>, caps: Field<seq<CapItem>>)
    requires IsIot(s, p) && IotOf(s, p).capsNum == |IotOf(s, p).caps| % 256
    ensures IsIot(OnCaps(s, p, name, caps), p)
    ensures var s', d, d' := OnCaps(s, p, name, caps), IotOf(s, p), IotOf(OnCaps(s, p, name, caps), p);
      && d'.capsNum == |d'.caps| % 256
      && d' == d.(name := d'.name, caps := d'.caps, capsNum := d'.capsNum, workState := Free)
      && s' == PutIot(s, p, d').(published := s'.published)
  {
    var d := IotOf(s, p);
    if caps.Value? {
      AddCapsKeeps(if name.Value? then d.(name := name.v) else d, caps.v);
    }
  }

  lemma CapsKeepsInv(s: State, p: EventNode, name: Field<string>, caps: Field<seq<CapItem>>)
    requires Inv(s) && IsIot(s, p)
    ensures Inv(OnCaps(s, p, name, caps)) && Waiting(OnCaps(s, p, name, caps)) == Waiting(s)
  {
    assert NodeOk(s.build.asserts, s.nodes[p].marked, IotOf(s, p));
    CapsEffect(s, p, name, caps);
    var s' := OnCaps(s, p, name, caps);
    hide OnCaps, Inv;
    UpdateKeepsInv(s, p, IotOf(s', p), s');
  }

  lemma PublishKeepsInv(s: State, pubs: seq<Publication>)
    requires Inv(s)
    ensures Inv(Publish(s, pubs)) && Waiting(Publish(s, pubs)) == Waiting(s)
    ensures Publish(s, pubs).work == s.work && Publish(s, pubs).status == s.status
  {
  }

  lemma StatusKeepsInv(s: State, st: Status)
    requires Inv(s) && (s.build.asserts ==> st != Undefined)
    ensures Inv(s.(status := st)) && Waiting(s.(status := st)) == Waiting(s)
  {
  }

  /** In a LOG_ENABLE build the response asserts never read past an empty queue. */
  lemma GuardIsDefined(s: State, p: EventNode, t: RequestType)
    requires Inv(s) && IsIot(s, p)
    ensures ResponseGuard(s, IotOf(s, p), t) != Some(Undefined)
    ensures s.build.asserts && ResponseGuard(s, IotOf(s, p), t) == None ==>
      HeadSent(IotOf(s, p)) && IotOf(s, p).requests[0].reqType == t && Sound(BodyOf(IotOf(s, p).requests[0]))
  {
    assert NodeOk(s.build.asserts, s.nodes[p].marked, IotOf(s, p));
  }

  lemma GetRespKeepsInv(s: State, p: EventNode, arr: Field<seq<RespItem>>)
    requires Inv(s) && IsIot(s, p)
    ensures Inv(OnGetResp(s, p, arr))
  {
    var d := IotOf(s, p);
    GuardIsDefined(s, p, GetRequest);
    var g := ResponseGuard(s, d, GetRequest);
    if g.Some? {
      StatusKeepsInv(s, g.value);
    } else if Translate(arr).Some? {
      if d.requests == [] || d.requests[0].data.None? {
        StatusKeepsInv(s, Undefined);
      } else {
        var to := d.requests[0].data.value;
        var pub := [Publication(ToClient(to.sender), to.broker, GetResponse(d.clientId, d.name, Translate(arr).value))];
        PublishKeepsInv(s, pub);
        ReleaseKeepsInv(Publish(s, pub), p);
      }
    }
  }

  lemma SetRespKeepsInv(s: State, p: EventNode, arr: Field<seq<RespItem>>)
    requires Inv(s) && IsIot(s, p)
    ensures Inv(OnSetResp(s, p, arr))
  {
    var d := IotOf(s, p);
    GuardIsDefined(s, p, SetRequest);
    var g := ResponseGuard(s, d, SetRequest);
    if g.Some? {
      StatusKeepsInv(s, g.value);
    } else if Translate(arr).Some? {
      var pubs := BroadcastBoth(SetResponse(d.clientId, d.name, Translate(arr).value));
      PublishKeepsInv(s, pubs);
      if d.requests == [] {
        StatusKeepsInv(Publish(s, pubs), Undefined);
      } else {
        ReleaseKeepsInv(Publish(s, pubs), p);
      }
    }
  }

  lemma MessageKeepsInv(s: State, p: EventNode, m: IotMsg)
    requires Inv(s) && IsIot(s, p)
    ensures Inv(OnMessage(s, p, m))
  {
    if m.Object? {
      match ParseMsgType(m.msgType)
      case HelloMsg => HelloKeepsInv(s, p);
      case CapsMsg => CapsKeepsInv(s, p, m.name, m.caps);
      case GetRespMsg => GetRespKeepsInv(s, p, m.reqArray);
      case SetRespMsg => SetRespKeepsInv(s, p, m.reqArray);
      case NotifMsg =>
        if Translate(m.reqArray).Some? {
          PublishKeepsInv(s,
            BroadcastBoth(NotifBroadcast(IotOf(s, p).clientId, IotOf(s, p).name, Translate(m.reqArray).value)));
        }
      case UnknownMsg =>
    }
  }

  /** The message is an object whose type number, stored in a uint8_t, is k. */
  predicate Numbered(m: IotMsg, k: int) {
    m.Object? && m.msgType.Value? && m.msgType.v % 256 == k
  }

  /** The number decides which handler runs. */
  lemma HandlerByNumber(s: State, p: EventNode, m: IotMsg)
    requires IsIot(s, p)
    ensures Numbered(m, 1) ==> OnMessage(s, p, m) == OnCaps(s, p, m.name, m.caps)
    ensures Numbered(m, 2) ==> OnMessage(s, p, m) == OnHello(s, p)
    ensures Numbered(m, 4) ==> OnMessage(s, p, m) == OnGetResp(s, p, m.reqArray)
    ensures Numbered(m, 6) ==> OnMessage(s, p, m) == OnSetResp(s, p, m.reqArray)
    ensures Numbered(m, 7) ==> OnMessage(s, p, m) == OnNotif(s, p, m.reqArray)
    ensures !Numbered(m, 1) && !Numbered(m, 2) && !Numbered(m, 4) && !Numbered(m, 6) && !Numbered(m, 7) ==>
      OnMessage(s, p, m) == s
  {
  }

  lemma MessageKeepsRest(s: State, p: EventNode, m: IotMsg)
    requires IsIot(s, p)
    ensures OnMessage(s, p, m).todo == s.todo && OnMessage(s, p, m).build == s.build
  {
    hide AddCaps, Translate, ParseMsgType;
  }

  // ----- connections come and go

  lemma FdTableAdd(fds: seq<int>, count: int, fdSet: set<int>, maxFd: int, fd: int)
    requires FdTable(fds, count, fdSet, maxFd) && 0 <= fd && fd !in fdSet
    ensures FdTable([fd] + fds, count + 1, fdSet + {fd}, if maxFd <= fd then fd + 1 else maxFd)
  {
    var fds' := [fd] + fds;
    assert forall x :: x in fds' <==> x == fd || x in fds;
  }

  lemma AddEventListed(s: State, p: EventNode, fd: int, data: EventData)
    requires Listed(s) && p !in s.nodes
    ensures Listed(AddEvent(s, p, fd, data))
    ensures Waiting(AddEvent(s, p, fd, data)) == Waiting(s) + QueueLength(data)
    ensures Fds(AddEvent(s, p, fd, data).order, AddEvent(s, p, fd, data).nodes) == [fd] + Fds(s.order, s.nodes)
  {
    var s' := AddEvent(s, p, fd, data);
    assert s'.order[1..] == s.order;
    TotalUnchanged(s.order, s.nodes, s'.nodes);
    FdsUnchanged(s.order, s.nodes, s'.nodes);
  }

  lemma AddEventNodesOk(s: State, p: EventNode, fd: int, data: EventData)
    requires NodesOk(s) && (data.Iot? ==> NodeOk(s.build.asserts, false, data.iot))
    ensures NodesOk(AddEvent(s, p, fd, data))
  {
  }

  lemma AddEventKeepsCore(s: State, p: EventNode, fd: int, data: EventData)
    requires Core(s) && p !in s.nodes && 0 <= fd && fd !in s.fdSet
    requires data.Iot? ==> data.iot.requests == [] && NodeOk(s.build.asserts, false, data.iot)
    ensures Core(AddEvent(s, p, fd, data))
  {
    hide NodeOk, Total, Fds, FdTable;
    AddEventListed(s, p, fd, data);
    AddEventNodesOk(s, p, fd, data);
    FdTableAdd(Fds(s.order, s.nodes), s.eventCount, s.fdSet, s.maxFd, fd);
  }

  lemma NewIotOk(asserts: bool, fd: int, junk: string, t: EventNode)
    ensures NodeOk(asserts, false, NewIot(fd, junk).(timer := Some(t)))
  {
    var d := NewIot(fd, junk).(timer := Some(t));
    assert d.hist.completed + Bodies(d.requests) == [];
    assert Wires([] + []) == [];
  }

  lemma PairingAdd(nodes: map<EventNode, NodeData>, node: EventNode, timer: EventNode, n: NodeData, t: NodeData)
    requires Paired(nodes) && node !in nodes && timer !in nodes && node != timer
    requires n.data.Iot? && !n.marked && n.data.iot.timer == Some(timer)
    requires t.data == Timer(Some(node)) && !t.marked
    ensures Paired(nodes[node := n][timer := t])
  {
    var nodes' := nodes[node := n][timer := t];
    forall p | p in nodes'
      ensures PairedAt(nodes', p)
    {
      if p in nodes {
        assert PairedAt(nodes, p);
      }
    }
  }

  lemma AcceptKeepsInv(s: State, node: EventNode, timer: EventNode, fd: int, timerFd: int, junk: string)
    requires Inv(s) && Fits(s, Visit(Accepted(node, timer, fd, timerFd, junk)))
    ensures Inv(OnAccept(s, node, timer, fd, timerFd, junk))
  {
    var d := NewIot(fd, junk).(timer := Some(timer));
    NewIotOk(s.build.asserts, fd, junk, timer);
    AddEventKeepsCore(s, node, fd, Iot(d));
    var s1 := AddEvent(s, node, fd, Iot(d));
    AddEventKeepsCore(s1, timer, timerFd, Timer(Some(node)));
    PairingAdd(s.nodes, node, timer, NodeData(fd, false, Iot(d)), NodeData(timerFd, false, Timer(Some(node))));
  }

  /** Marking, and spoiling a marked timer, touch nothing that Core speaks of. */
  lemma MarkKeepsCore(s: State, s': State)
    requires Core(s)
    requires s' == s.(nodes := s'.nodes, published := s'.published)
    requires s'.nodes.Keys == s.nodes.Keys
    requires forall p :: p in s.nodes ==>
      s'.nodes[p].fd == s.nodes[p].fd && QueueLength(s'.nodes[p].data) == QueueLength(s.nodes[p].data)
    requires NodesOk(s')
    ensures Core(s') && Waiting(s') == Waiting(s)
  {
    TotalUnchanged(s.order, s.nodes, s'.nodes);
    FdsUnchanged(s.order, s.nodes, s'.nodes);
    assert Listed(s');
  }

  /** The marks of a node and of its timer are set together. */
  lemma PairingMarked(nodes: map<EventNode, NodeData>, nodes': map<EventNode, NodeData>, p: EventNode, t: EventNode)
    requires Paired(nodes) && nodes'.Keys == nodes.Keys
    requires p in nodes && nodes[p].data.Iot? && nodes[p].data.iot.timer == Some(t)
    requires t in nodes && t != p
    requires forall q :: q in nodes && q != p && q != t ==> nodes'[q] == nodes[q]
    requires nodes'[p].marked && nodes'[p].data.Iot? && nodes'[p].data.iot.timer == Some(t)
    requires nodes'[t].marked && nodes'[t].data.Timer?
      && (nodes'[t].data.owner.Some? ==> nodes'[t].data == nodes[t].data)
    ensures Paired(nodes')
  {
    assert PairedAt(nodes, p) && PairedAt(nodes, t);
    forall q | q in nodes'
      ensures PairedAt(nodes', q)
    {
      assert PairedAt(nodes, q);
    }
  }

  /** What marking does to the node, to the timer and to nothing else. */
  lemma MarkedNodesOk(s: State, s': State, p: EventNode)
    requires NodesOk(s) && IsIot(s, p) && s'.nodes.Keys == s.nodes.Keys && s'.build == s.build
    requires forall q :: q in s.nodes && q != p && s.nodes[q].data.Iot? ==> s'.nodes[q] == s.nodes[q]
    requires forall q :: q in s.nodes && !s.nodes[q].data.Iot? ==> !s'.nodes[q].data.Iot?
    requires s'.nodes[p].marked && s'.nodes[p].data.Iot?
    requires var d, d' := IotOf(s, p), s'.nodes[p].data.iot;
      d' == d.(workState := d'.workState, hist := d.hist.(fires := d'.hist.fires))
      && (d'.workState == d.workState || d'.workState == Free)
    ensures NodesOk(s')
  {
    assert NodeOk(s.build.asserts, s.nodes[p].marked, IotOf(s, p));
  }

  /** The node and its timer are marked together; the timer may lose its pointer, the node may become free. */
  ghost predicate MarkedPair(s: State, s': State, p: EventNode, t: EventNode) {
    && IsIot(s, p) && IsTimer(s, t) && IotOf(s, p).timer == Some(t)
    && s' == s.(nodes := s'.nodes, published := s'.published)
    && s'.nodes.Keys == s.nodes.Keys
    && (forall q :: q in s.nodes && q != p && q != t ==> s'.nodes[q] == s.nodes[q])
    && IsIot(s', p) && s'.nodes[p] == s.nodes[p].(marked := true, data := Iot(IotOf(s', p)))
    && (var d, d' := IotOf(s, p), IotOf(s', p);
        d' == d.(workState := d'.workState, hist := d.hist.(fires := d'.hist.fires))
        && (d'.workState == d.workState || d'.workState == Free))
    && IsTimer(s', t) && s'.nodes[t] == s.nodes[t].(marked := true, data := s'.nodes[t].data)
    && (s'.nodes[t].data.owner.Some? ==> s'.nodes[t].data == s.nodes[t].data)
  }

  lemma MarkingKeepsInv(s: State, s': State, p: EventNode, t: EventNode)
    requires Inv(s) && MarkedPair(s, s', p, t)
    requires t in s.todo ==> s'.nodes[t].data.owner.Some?
    ensures Inv(s') && s'.status == s.status
  {
    MarkingKeepsNodes(s, s', p, t);
    MarkingKeepsTodo(s, s', p, t);
    hide NodesOk, FdsOk, CounterOk, WorkOk;
    MarkKeepsCore(s, s');
    hide Core, TodoOk;
    PairingMarked(s.nodes, s'.nodes, p, t);
  }

  lemma MarkingKeepsNodes(s: State, s': State, p: EventNode, t: EventNode)
    requires NodesOk(s) && MarkedPair(s, s', p, t)
    ensures NodesOk(s')
  {
    hide NodeOk;
    MarkedNodesOk(s, s', p);
  }

  lemma MarkingKeepsTodo(s: State, s': State, p: EventNode, t: EventNode)
    requires TodoOk(s) && MarkedPair(s, s', p, t)
    requires t in s.todo ==> s'.nodes[t].data.owner.Some?
    ensures TodoOk(s')
  {
  }

  lemma ClosedShape(s: State, p: EventNode, t: EventNode)
    requires IsIot(s, p) && IsTimer(s, t) && IotOf(s, p).timer == Some(t)
    ensures MarkedPair(s, OnClosed(s, p), p, t) && OnClosed(s, p).nodes[t].data == s.nodes[t].data
  {
  }

  lemma DeadTimerShape(s: State, p: EventNode, t: EventNode)
    requires IsIot(s, p) && IsTimer(s, t) && IotOf(s, p).timer == Some(t) && s.nodes[t].data == Timer(Some(p))
    requires IotOf(s, p).helloCount == 0
    ensures MarkedPair(s, OnTimer(s, t), p, t)
  {
  }

  lemma ClosedKeepsInv(s: State, p: EventNode)
    requires Inv(s) && IsIot(s, p)
    ensures Inv(OnClosed(s, p)) && OnClosed(s, p).status == s.status
  {
    assert PairedAt(s.nodes, p);
    var t := IotOf(s, p).timer.value;
    var s' := OnClosed(s, p);
    hide *;
    ClosedShape(s, p, t);
    MarkingKeepsInv(s, s', p, t);
  }

  /** The pointer a firing timer follows designates a live node. */
  lemma TimerPointerIsLive(s: State, t: EventNode)
    requires Inv(s) && IsTimer(s, t) && s.nodes[t].data.owner.Some?
    ensures IsIot(s, s.nodes[t].data.owner.value)
    ensures IotOf(s, s.nodes[t].data.owner.value).timer == Some(t)
  {
    assert PairedAt(s.nodes, t);
  }

  lemma DeadTimerKeepsInv(s: State, t: EventNode)
    requires Inv(s) && IsTimer(s, t) && s.nodes[t].data.owner.Some? && t !in s.todo
    requires IsIot(s, s.nodes[t].data.owner.value) && IotOf(s, s.nodes[t].data.owner.value).helloCount == 0
    ensures Inv(OnTimer(s, t)) && OnTimer(s, t).status == s.status
  {
    var p := s.nodes[t].data.owner.value;
    TimerPointerIsLive(s, t);
    var s' := OnTimer(s, t);
    hide *;
    DeadTimerShape(s, p, t);
    MarkingKeepsInv(s, s', p, t);
  }

  /** The node after a firing that is not the last. */
  function Pinged(d: IotData): IotData
    requires d.helloCount > 0
  {
    CountFiring(Longer(d, HelloOf())).(helloCount := d.helloCount - 1)
  }

  lemma PingedIsOk(asserts: bool, marked: bool, d: IotData)
    requires NodeOk(asserts, marked, d) && d.helloCount > 0
    ensures NodeOk(asserts, marked, Pinged(d))
  {
    LongerIsOk(asserts, marked, d, HelloOf());
    hide Hellos;
  }

  lemma LiveTimerIsPing(s: State, t: EventNode, p: EventNode)
    requires IsTimer(s, t) && s.nodes[t].data.owner == Some(p) && IsIot(s, p) && IotOf(s, p).helloCount > 0
    ensures OnTimer(s, t) ==
      PutIot(s, p, Pinged(IotOf(s, p))).(count := Inc8(s.count), armed := s.armed || Inc8(s.count) == 1)
  {
    assert OnTimer(s, t).nodes == PutIot(s, p, Pinged(IotOf(s, p))).nodes;
  }

  lemma LiveTimerKeepsInv(s: State, t: EventNode)
    requires Inv(s) && IsTimer(s, t) && s.nodes[t].data.owner.Some?
    requires IsIot(s, s.nodes[t].data.owner.value) && IotOf(s, s.nodes[t].data.owner.value).helloCount > 0
    ensures Inv(OnTimer(s, t)) && OnTimer(s, t).status == s.status
  {
    hide Inv, OnTimer, NodeOk, Total;
    var p := s.nodes[t].data.owner.value;
    var d := IotOf(s, p);
    InvAt(s, p);
    PingedIsOk(s.build.asserts, s.nodes[p].marked, d);
    LiveTimerIsPing(s, t, p);
    UpdateKeepsInv(s, p, Pinged(d), OnTimer(s, t));
  }

  lemma TimerKeepsInv(s: State, t: EventNode)
    requires Inv(s) && IsTimer(s, t) && s.nodes[t].data.owner.Some? && t !in s.todo
    ensures Inv(OnTimer(s, t)) && OnTimer(s, t).status == s.status
  {
    TimerPointerIsLive(s, t);
    if IotOf(s, s.nodes[t].data.owner.value).helloCount == 0 {
      DeadTimerKeepsInv(s, t);
    } else {
      LiveTimerKeepsInv(s, t);
    }
  }

  // ----- garbage collection

  lemma {:induction false} DrainLaw(count: nat, armed: bool, k: nat, w: nat)
    requires k <= w && count == w % 256 && (armed ==> w > 0)
    ensures Drain(count, armed, k).0 == (w - k) % 256
    ensures Drain(count, armed, k).1 ==> w - k > 0
    decreases k
  {
    if k > 0 {
      DecModulo(w);
      hide Dec8;
      DrainLaw(Dec8(count), armed && Dec8(count) != 0, k - 1, w - 1);
      assert (w - 1) - (k - 1) == w - k;
    }
  }

  lemma DecModulo(w: nat)
    requires w > 0
    ensures Dec8(w % 256) == (w - 1) % 256
  {
  }

  lemma DistinctTail<T>(x: T, s: seq<T>)
    ensures Distinct([x] + s) <==> x !in s && Distinct(s)
  {
    var t := [x] + s;
    assert t[0] == x && forall i :: 0 <= i < |s| ==> t[i + 1] == s[i];
    if Distinct(t) {
      forall i, j | 0 <= i < j < |s|
        ensures s[i] != s[j]
      {
        assert t[i + 1] != t[j + 1];
      }
      forall i | 0 <= i < |s|
        ensures s[i] != x
      {
        assert t[0] != t[i + 1];
      }
    }
  }

  lemma {:induction false} FdsWithout(order: seq<EventNode>, nodes: map<EventNode, NodeData>, p: EventNode)
    requires Distinct(order) && p in order && (forall q :: q in order ==> q in nodes)
    requires Distinct(Fds(order, nodes))
    ensures nodes[p].fd in Fds(order, nodes)
    ensures Fds(Without(order, p), nodes - {p}) == Without(Fds(order, nodes), nodes[p].fd)
  {
    var fds, rest := Fds(order, nodes), Fds(order[1..], nodes);
    var q := order[0];
    assert fds == [nodes[q].fd] + rest;
    DistinctTail(nodes[q].fd, rest);
    DistinctTail(q, order[1..]);
    assert [q] + order[1..] == order;
    hide Distinct;
    if q == p {
      WithoutAbsent(order[1..], p);
      FdsUnchanged(order[1..], nodes, nodes - {p});
      WithoutAbsent(rest, nodes[p].fd);
    } else {
      FdsWithout(order[1..], nodes, p);
      assert Without(order, p)[0] == q && Without(order, p)[1..] == Without(order[1..], p);
    }
  }

  /** compute_max_fd finds one more than the greatest descriptor, or the start value. */
  lemma {:induction false} ComputeMaxFdIsMax(order: seq<EventNode>, nodes: map<EventNode, NodeData>, a: int)
    requires forall p :: p in order ==> p in nodes
    ensures var m := ComputeMaxFd(order, nodes, a);
      a <= m && (forall fd :: fd in Fds(order, nodes) ==> fd < m) && (m == a || m - 1 in Fds(order, nodes))
  {
    if order != [] {
      var fd := nodes[order[0]].fd;
      ComputeMaxFdIsMax(order[1..], nodes, if fd >= a then fd + 1 else a);
    }
  }

  /** The incrementally kept max_fd is the recomputed one. */
  lemma MaxFdIsRecomputed(s: State)
    requires Listed(s) && FdsOk(s)
    ensures s.maxFd == ComputeMaxFd(s.order, s.nodes, 0)
  {
    ComputeMaxFdIsMax(s.order, s.nodes, 0);
    var fds := Fds(s.order, s.nodes);
    if fds != [] {
      assert fds[0] in fds;
    }
  }

  lemma FdTableRemove(fds: seq<int>, count: int, fdSet: set<int>, maxFd: int, fd: int, fds': seq<int>, max': int)
    requires FdTable(fds, count, fdSet, maxFd) && fd in fds && fds' == Without(fds, fd)
    requires 0 <= max' && (forall x :: x in fds' ==> x < max') && (max' == 0 || max' - 1 in fds')
    ensures FdTable(fds', count - 1, fdSet - {fd}, max')
  {
    WithoutShape(fds, fd);
    if fds' != [] {
      assert fds'[0] in fds';
    }
  }

  lemma DelEventListed(s: State, p: EventNode)
    requires Listed(s) && p in s.nodes && p !in s.todo
    ensures Listed(DelEvent(s, p)) && |DelEvent(s, p).order| == |s.order| - 1
    ensures Waiting(DelEvent(s, p)) == Waiting(s) - QueueLength(s.nodes[p].data)
  {
    var order' := Without(s.order, p);
    assert |order'| == |s.order| - 1 by { WithoutShape(s.order, p); }
    UnlinkListed(s.order, s.nodes, p, order');
    TotalWithout(s.order, s.nodes, p);
  }

  lemma DelEventTable(s: State, p: EventNode)
    requires Listed(s) && p in s.nodes && p !in s.todo
    ensures var s' := DelEvent(s, p);
      && s'.order == Without(s.order, p) && s'.nodes == s.nodes - {p} && s'.eventCount == s.eventCount - 1
      && s'.fdSet == s.fdSet - {s.nodes[p].fd} && s'.maxFd == ComputeMaxFd(s'.order, s'.nodes, 0)
      && (forall q :: q in s'.order ==> q in s'.nodes)
  {
    DelEventListed(s, p);
    hide Without, Drain;
  }

  lemma TableFacts(s: State)
    ensures FdsOk(s) <==> FdTable(Fds(s.order, s.nodes), s.eventCount, s.fdSet, s.maxFd)
    ensures FdsOk(s) ==> Distinct(Fds(s.order, s.nodes))
    ensures Listed(s) ==> Distinct(s.order) && (forall q :: q in s.nodes <==> q in s.order)
  {
  }

  lemma DelEventFds(s: State, p: EventNode)
    requires Listed(s) && FdsOk(s) && p in s.nodes && p !in s.todo
    ensures FdsOk(DelEvent(s, p))
  {
    hide *;
    var s' := DelEvent(s, p);
    DelEventTable(s, p);
    TableFacts(s);
    TableFacts(s');
    FdsWithout(s.order, s.nodes, p);
    ComputeMaxFdIsMax(s'.order, s'.nodes, 0);
    FdTableRemove(Fds(s.order, s.nodes), s.eventCount, s.fdSet, s.maxFd, s.nodes[p].fd, Fds(s'.order, s'.nodes),
      s'.maxFd);
  }

  lemma DelEventNodesOk(s: State, p: EventNode)
    requires NodesOk(s) && p in s.nodes
    ensures NodesOk(DelEvent(s, p))
  {
  }

  lemma DelEventKeepsCore(s: State, p: EventNode)
    requires Core(s) && p in s.nodes && p !in s.todo
    ensures Core(DelEvent(s, p))
    ensures Waiting(DelEvent(s, p)) == Waiting(s) - QueueLength(s.nodes[p].data)
  {
    DelEventListed(s, p);
    DelEventFds(s, p);
    DelEventNodesOk(s, p);
    DrainLaw(s.count, s.armed, QueueLength(s.nodes[p].data), Waiting(s));
  }

  /** Garbage collection removes exactly the marked entries of the snapshot. */
  lemma {:induction false} GcRemovesMarked(s: State, ps: seq<EventNode>)
    requires Core(s) && s.todo == [] && Distinct(ps)
    ensures var s' := Gc(s, ps);
      && Core(s') && s' == s.(order := s'.order, nodes := s'.nodes, eventCount := s'.eventCount, fdSet := s'.fdSet,
                              maxFd := s'.maxFd, count := s'.count, armed := s'.armed)
      && (forall p :: p in s'.nodes ==> p in s.nodes && s'.nodes[p] == s.nodes[p])
      && (forall p :: p in s.nodes ==> (p in s'.nodes <==> !(p in ps && s.nodes[p].marked)))
    decreases |ps|
  {
    if ps != [] {
      var p := ps[0];
      assert p !in ps[1..];
      if p in s.nodes && s.nodes[p].marked {
        DelEventKeepsCore(s, p);
        GcRemovesMarked(DelEvent(s, p), ps[1..]);
      } else {
        GcRemovesMarked(s, ps[1..]);
      }
    }
  }

  ghost predicate NoMarks(s: State) {
    forall p :: p in s.nodes ==> !s.nodes[p].marked
  }

  lemma LoopTopKeepsInv(s: State)
    requires Inv(s) && s.todo == []
    ensures var s' := OnLoopTop(s);
      && Inv(s') && NoMarks(s') && s'.todo == s'.order
      && (forall p :: p in s.nodes && !s.nodes[p].marked ==> p in s'.nodes && s'.nodes[p] == s.nodes[p])
      && s'.status == s.status && s'.build == s.build
  {
    GcRemovesMarked(s, s.order);
    var s' := OnLoopTop(s);
    forall p | p in s'.nodes
      ensures PairedAt(s'.nodes, p)
    {
      assert PairedAt(s.nodes, p);
    }
    assert Core(s') by {
      assert Core(Gc(s, s.order));
    }
  }

  // ----- work_list

  /** The request at k leaves the list. */
  function Taken(s: State, k: nat): State
    requires k < |s.work|
  {
    s.(work := s.work[..k] + s.work[k + 1..])
  }

  lemma TakenKeepsInv(s: State, k: nat)
    requires Inv(s) && k < |s.work|
    ensures Inv(Taken(s, k)) && |Taken(s, k).work| == |s.work| - 1 && Taken(s, k).status == s.status
    ensures forall p :: IsIot(s, p) ==> IsIot(Taken(s, k), p)
    ensures s.work[k].status == RequestPending && Sound(BodyOf(s.work[k])) && s.work[k].data.Some?
    ensures !s.work[k].reqType.HelloRequest?
  {
    assert forall i :: 0 <= i < |Taken(s, k).work| ==> Taken(s, k).work[i] == s.work[if i < k then i else i + 1];
  }

  /** One step of the dispatch, for a request that matches and for one that does not. */
  lemma DispatchUnfolds(s: State, k: nat, found: bool, clear: bool)
    requires k <= |s.work| && (k < |s.work| ==> s.work[k].data.Some?)
    ensures k == |s.work| ==> DispatchFrom(s, k, found, clear) == s
    ensures k < |s.work| && MatchOf(s, s.work[k]).Some? ==> IsIot(Taken(s, k), MatchOf(s, s.work[k]).value)
    ensures k < |s.work| ==> var r, rest, goal := s.work[k], Taken(s, k), DispatchFrom(s, k, found, clear);
      match MatchOf(s, r)
      case Some(p) => goal == DispatchFrom(Enqueue(rest, p, r), k, !clear, clear)
      case None =>
        if found then goal == DispatchFrom(s, k + 1, !clear, clear)
        else goal == DispatchFrom(Publish(rest, [ErrorReply(r)]), k, false, clear)
  {
    hide Enqueue;
  }

  lemma {:induction false} DispatchKeepsInv(s: State, k: nat, found: bool, clear: bool)
    requires Inv(s) && k <= |s.work|
    ensures var s' := DispatchFrom(s, k, found, clear); Inv(s') && s'.status == s.status
    decreases |s.work| - k
  {
    hide *;
    if k == |s.work| {
      DispatchUnfolds(s, k, found, clear);
    } else {
      var r, rest := s.work[k], Taken(s, k);
      TakenKeepsInv(s, k);
      DispatchUnfolds(s, k, found, clear);
      match MatchOf(s, r)
      case Some(p) =>
        EnqueueKeepsInv(rest, p, r);
        EnqueueIsLonger(rest, p, r);
        DispatchKeepsInv(Enqueue(rest, p, r), k, !clear, clear);
      case None =>
        if found {
          DispatchKeepsInv(s, k + 1, !clear, clear);
        } else {
          PublishKeepsInv(rest, [ErrorReply(r)]);
          DispatchKeepsInv(Publish(rest, [ErrorReply(r)]), k, false, clear);
        }
    }
  }

  lemma ScanKeepsRest(s: State, i: nat, clock: Clock)
    ensures var s' := Scan(s, i, clock); s'.todo == s.todo && s'.build == s.build && s'.published == s.published
    decreases |s.order| - i
  {
  }

  lemma GcKeepsRest(s: State, ps: seq<EventNode>)
    ensures Gc(s, ps).build == s.build && Gc(s, ps).published == s.published
    decreases |ps|
  {
  }

  lemma DispatchKeepsRest(s: State, k: nat, found: bool, clear: bool)
    requires k <= |s.work|
    ensures var s' := DispatchFrom(s, k, found, clear); s'.order == s.order && s'.todo == s.todo && s'.build == s.build
    decreases |s.work| - k
  {
  }

  // ----- steps and runs

  lemma VisitKeepsInv(s: State, p: EventNode, input: Input)
    requires Inv(s) && p in s.nodes && p !in s.todo && Fits(s, Visit(input))
    requires s.nodes[p].data.Timer? ==> s.nodes[p].data.owner.Some?
    ensures Inv(OnVisit(s, p, input))
  {
    match s.nodes[p].data
    case Iot(_) =>
      if input.NodeClosed? {
        ClosedKeepsInv(s, p);
      } else if input.NodeMessage? {
        MessageKeepsInv(s, p, input.msg);
      }
    case Timer(_) =>
      if input.TimerExpired? {
        TimerKeepsInv(s, p);
      }
    case Plain(t) =>
      if t == ListenSocket && input.Accepted? {
        AcceptKeepsInv(s, input.node, input.timer, input.fd, input.timerFd, input.junk);
      } else if t == MqttMsgEvent && input.WorkSignal? {
        DispatchKeepsInv(s, 0, false, false);
      } else if t == WorkScanTimerEvent && input.ScanExpired? {
        ScanKeepsInv(s, 0, input.clock);
      }
  }

  /** The cursor of the pass moves on. */
  lemma AdvanceKeepsInv(s: State)
    requires Inv(s) && s.todo != []
    ensures Inv(s.(todo := s.todo[1..]))
    ensures s.todo[0] in s.nodes && s.todo[0] !in s.todo[1..]
    ensures IsTimer(s, s.todo[0]) ==> s.nodes[s.todo[0]].data.owner.Some?
  {
    assert Core(s.(todo := s.todo[1..]));
  }

  lemma ArriveKeepsInv(s: State, r: Request)
    requires Inv(s) && Fits(s, Arrive(r))
    ensures Inv(OnArrive(s, r))
  {
    assert Core(OnArrive(s, r));
  }

  lemma StepKeepsInv(s: State, e: Label)
    requires Inv(s) && Fits(s, e)
    ensures Inv(Step(s, e))
  {
    hide Inv, OnLoopTop, OnVisit, OnArrive;
    if s.status == Running {
      match e
      case LoopTop =>
        if s.todo == [] {
          LoopTopKeepsInv(s);
        }
      case Visit(input) =>
        if s.todo != [] {
          AdvanceKeepsInv(s);
          VisitKeepsInv(s.(todo := s.todo[1..]), s.todo[0], input);
        }
      case Arrive(r) =>
        ArriveKeepsInv(s, r);
    }
  }

  lemma AddPlainInv(s: State, p: EventNode, fd: int, t: EventType)
    requires Inv(s) && NoMarks(s) && p !in s.nodes && 0 <= fd && fd !in s.fdSet
    ensures Inv(AddEvent(s, p, fd, Plain(t))) && NoMarks(AddEvent(s, p, fd, Plain(t)))
  {
    AddEventKeepsCore(s, p, fd, Plain(t));
    var s' := AddEvent(s, p, fd, Plain(t));
    forall q | q in s'.nodes
      ensures PairedAt(s'.nodes, q)
    {
      if q in s.nodes {
        assert PairedAt(s.nodes, q);
      }
    }
  }

  lemma AddedAre(s: State, p: EventNode, fd: int, data: EventData)
    ensures var s' := AddEvent(s, p, fd, data); s'.nodes.Keys == s.nodes.Keys + {p} && s'.fdSet == s.fdSet + {fd}
  {
  }

  lemma BootInv(b: Startup)
    requires GoodStart(b)
    ensures Inv(Boot(b)) && NoMarks(Boot(b))
  {
    var s0 := Empty(b.build);
    assert Inv(s0) && NoMarks(s0);
    var s1 := AddEvent(s0, b.listen, b.listenFd, Plain(ListenSocket));
    var s2 := AddEvent(s1, b.pipe, b.pipeFd, Plain(MqttMsgEvent));
    AddedAre(s0, b.listen, b.listenFd, Plain(ListenSocket));
    AddedAre(s1, b.pipe, b.pipeFd, Plain(MqttMsgEvent));
    hide Inv, NoMarks, AddEvent;
    AddPlainInv(s0, b.listen, b.listenFd, ListenSocket);
    AddPlainInv(s1, b.pipe, b.pipeFd, MqttMsgEvent);
    AddPlainInv(s2, b.scan, b.scanFd, WorkScanTimerEvent);
  }

  /** The invariant holds along every run. */
  lemma {:induction false} RunKeepsInv(s: State, es: seq<Label>)
    requires Inv(s) && AllFit(s, es)
    ensures Inv(Run(s, es))
    decreases |es|
  {
    if es != [] {
      StepKeepsInv(s, es[0]);
      RunKeepsInv(Step(s, es[0]), es[1..]);
    }
  }

  /** Every state the program reaches satisfies the invariant. */
  lemma ReachedInv(b: Startup, es: seq<Label>)
    requires GoodStart(b) && AllFit(Boot(b), es)
    ensures Inv(Run(Boot(b), es))
  {
    BootInv(b);
    RunKeepsInv(Boot(b), es);
  }

  /** Runs compose. */
  lemma {:induction false} JoinRuns(s: State, es: seq<Label>, fs: seq<Label>)
    ensures Run(s, es + fs) == Run(Run(s, es), fs)
    ensures AllFit(s, es + fs) <==> AllFit(s, es) && AllFit(Run(s, es), fs)
    decreases |es|
  {
    if es == [] {
      assert es + fs == fs;
    } else {
      assert (es + fs)[1..] == es[1..] + fs;
      hide Step, Fits;
      JoinRuns(Step(s, es[0]), es[1..], fs);
    }
  }

  lemma {:induction false} EndedStays(s: State, es: seq<Label>)
    requires s.status != Running
    ensures Run(s, es) == s
    decreases |es|
  {
    if es != [] {
      EndedStays(s, es[1..]);
    }
  }

  lemma SingleRun(s: State, e: Label)
    ensures Run(s, [e]) == Step(s, e) && (AllFit(s, [e]) <==> Fits(s, e))
  {
    assert [e][1..] == [];
    assert Run(Step(s, e), []) == Step(s, e);
  }

  /** One more step at the end of a run. */
  lemma ExtendRun(s: State, es: seq<Label>, e: Label)
    requires AllFit(s, es) && Fits(Run(s, es), e)
    ensures AllFit(s, es + [e]) && Run(s, es + [e]) == Step(Run(s, es), e)
  {
    JoinRuns(s, es, [e]);
    SingleRun(Run(s, es), e);
  }
}

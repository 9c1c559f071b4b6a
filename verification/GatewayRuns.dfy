/** The promises of the gateway over whole runs of the program, from start-up on. */
module GatewayRuns {
  import opened Common
  import opened GatewayTypes
  import opened GatewaySpec
  import opened GatewayInvariant
  import opened GatewayScan

  // ----- queues

  /** Only the head of a queue may be SENT; a busy node has a SENT head, so the head the timeout branch
      reads is always there. */
  lemma QueueStateOnRuns(b: Startup, es: seq<Label>, p: EventNode)
    requires GoodStart(b) && AllFit(Boot(b), es) && IsIot(Run(Boot(b), es), p)
    ensures var d := IotOf(Run(Boot(b), es), p);
      && (forall i :: 1 <= i < |d.requests| ==> d.requests[i].status == RequestPending)
      && (d.workState == Busy ==> d.requests != [] && d.requests[0].status == RequestSent)
  {
    ReachedInv(b, es);
    var s := Run(Boot(b), es);
    var d := IotOf(s, p);
    assert NodeOk(s.build.asserts, s.nodes[p].marked, d);
    forall i | 1 <= i < |d.requests|
      ensures d.requests[i].status == RequestPending
    {
      assert d.requests[i] == d.requests[1..][i - 1];
    }
  }

  ghost predicate ExactlyOnce(d: IotData) {
    d.hist.written == Wires(d.hist.completed) + if HeadSent(d) then [WireOf(BodyOf(d.requests[0]))] else []
  }

  lemma WrittenExactlyOnce(d: IotData)
    requires WrittenOk(d)
    ensures ExactlyOnce(d)
  {
    assert d.hist.completed + [] == d.hist.completed;
    if HeadSent(d) {
      assert Wires(d.hist.completed + [BodyOf(d.requests[0])]) ==
        Wires(d.hist.completed) + [WireOf(BodyOf(d.requests[0]))];
    }
  }

  /** First in, first out, in both builds; and in a LOG_ENABLE build every request is written exactly once,
      in order, before it is completed, unless the process has ended writing one for ever. */
  lemma FifoOnRuns(b: Startup, es: seq<Label>, p: EventNode)
    requires GoodStart(b) && AllFit(Boot(b), es) && IsIot(Run(Boot(b), es), p)
    ensures var d := IotOf(Run(Boot(b), es), p);
      && d.hist.enqueued == d.hist.completed + Bodies(d.requests)
      && (b.build.asserts && Run(Boot(b), es).status != Spinning ==> ExactlyOnce(d))
  {
    hide Run, AllFit;
    ReachedInv(b, es);
    RunKeepsBuild(Boot(b), es);
    var s := Run(Boot(b), es);
    assert NodeOk(s.build.asserts, s.nodes[p].marked, IotOf(s, p));
    if b.build.asserts {
      WrittenExactlyOnce(IotOf(s, p));
    }
  }

  lemma VisitKeepsBuild(s: State, p: EventNode, input: Input)
    ensures OnVisit(s, p, input).build == s.build
  {
    hide Scan, DispatchFrom, OnMessage;
    if input.ScanExpired? {
      ScanKeepsRest(s, 0, input.clock);
    } else if input.NodeMessage? && IsIot(s, p) {
      MessageKeepsRest(s, p, input.msg);
    }
    DispatchKeepsRest(s, 0, false, false);
  }

  lemma StepKeepsBuild(s: State, e: Label)
    ensures Step(s, e).build == s.build
  {
    hide Gc, OnVisit;
    GcKeepsRest(s, s.order);
    if e.Visit? && s.todo != [] {
      VisitKeepsBuild(s.(todo := s.todo[1..]), s.todo[0], e.input);
    }
  }

  lemma {:induction false} RunKeepsBuild(s: State, es: seq<Label>)
    ensures Run(s, es).build == s.build
    decreases |es|
  {
    hide Step;
    if es != [] {
      StepKeepsBuild(s, es[0]);
      RunKeepsBuild(Step(s, es[0]), es[1..]);
    }
  }

  /** mqtt_msg_count is the number of waiting requests modulo 256, and an armed timer has work. */
  lemma CounterOnRuns(b: Startup, es: seq<Label>)
    requires GoodStart(b) && AllFit(Boot(b), es)
    ensures var s := Run(Boot(b), es); s.count == Waiting(s) % 256 && (s.armed ==> Waiting(s) > 0)
  {
    ReachedInv(b, es);
  }

  /** event_count, the descriptor set and max_fd agree with the list; max_fd is what compute_max_fd gives. */
  ghost predicate DescriptorsAgree(s: State) {
    && s.eventCount == |s.order|
    && (forall p :: p in s.nodes ==> s.nodes[p].fd in s.fdSet)
    && (forall fd :: fd in s.fdSet ==> exists p :: p in s.nodes && s.nodes[p].fd == fd)
    && (forall p, q :: p in s.nodes && q in s.nodes && s.nodes[p].fd == s.nodes[q].fd ==> p == q)
    && s.maxFd == ComputeMaxFd(s.order, s.nodes, 0)
    && (forall fd :: fd in s.fdSet ==> fd < s.maxFd)
    && (s.maxFd == 0 || s.maxFd - 1 in s.fdSet)
  }

  lemma TableMeansAgreement(s: State)
    requires Listed(s) && FdsOk(s)
    ensures DescriptorsAgree(s)
  {
    MaxFdIsRecomputed(s);
    FdsOfNodes(s.order, s.nodes);
    hide ComputeMaxFd, Fds;
    forall fd | fd in s.fdSet
      ensures exists p :: p in s.nodes && s.nodes[p].fd == fd
    {
      var p :| p in s.order && s.nodes[p].fd == fd;
    }
  }

  lemma DescriptorsOnRuns(b: Startup, es: seq<Label>)
    requires GoodStart(b) && AllFit(Boot(b), es)
    ensures DescriptorsAgree(Run(Boot(b), es))
  {
    ReachedInv(b, es);
    TableMeansAgreement(Run(Boot(b), es));
  }

  lemma {:induction false} FdsOfNodes(order: seq<EventNode>, nodes: map<EventNode, NodeData>)
    requires forall p :: p in order ==> p in nodes
    requires Distinct(Fds(order, nodes))
    ensures |Fds(order, nodes)| == |order|
    ensures forall p :: p in order ==> nodes[p].fd in Fds(order, nodes)
    ensures forall fd :: fd in Fds(order, nodes) ==> exists p :: p in order && nodes[p].fd == fd
    ensures forall p, q :: p in order && q in order && nodes[p].fd == nodes[q].fd ==> p == q
  {
    if order != [] {
      var fds := Fds(order, nodes);
      assert fds[1..] == Fds(order[1..], nodes);
      assert fds[0] !in fds[1..];
      FdsOfNodes(order[1..], nodes);
      forall fd | fd in fds
        ensures exists p :: p in order && nodes[p].fd == fd
      {
        if fd == fds[0] {
          assert order[0] in order;
        } else {
          assert fd in fds[1..];
          var p :| p in order[1..] && nodes[p].fd == fd;
          assert p in order;
        }
      }
    }
  }

  // ----- pairing

  ghost predicate TimerOf(s: State, p: EventNode, t: EventNode) {
    && IsIot(s, p) && IsTimer(s, t)
    && IotOf(s, p).timer == Some(t) && s.nodes[t].data.owner == Some(p)
  }

  /** At the loop top, after garbage collection: nothing is marked, and nodes and timers are tied one to one. */
  lemma PairingAtLoopTop(b: Startup, es: seq<Label>)
    requires GoodStart(b) && AllFit(Boot(b), es)
    requires Run(Boot(b), es).status == Running && Run(Boot(b), es).todo == []
    ensures var s := Run(Boot(b), es + [LoopTop]);
      && NoMarks(s)
      && (forall p :: IsIot(s, p) ==> exists t :: TimerOf(s, p, t))
      && (forall t :: IsTimer(s, t) ==> exists p :: TimerOf(s, p, t))
      && (forall p, t, u :: TimerOf(s, p, t) && TimerOf(s, p, u) ==> t == u)
      && (forall p, q, t :: TimerOf(s, p, t) && TimerOf(s, q, t) ==> p == q)
  {
    ReachedInv(b, es);
    JoinRuns(Boot(b), es, [LoopTop]);
    var s0 := Run(Boot(b), es);
    var s := OnLoopTop(s0);
    SingleRun(s0, LoopTop);
    LoopTopKeepsInv(s0);
    forall p | IsIot(s, p)
      ensures exists t :: TimerOf(s, p, t)
    {
      assert PairedAt(s.nodes, p);
      assert TimerOf(s, p, IotOf(s, p).timer.value);
    }
    forall t | IsTimer(s, t)
      ensures exists p :: TimerOf(s, p, t)
    {
      assert PairedAt(s.nodes, t);
      assert TimerOf(s, s.nodes[t].data.owner.value, t);
    }
  }

  /** During a pass the two halves carry the same mark, and a timer about to be visited points to the live
      node that owns it, whatever happened earlier in the pass. */
  lemma PairingDuringPass(b: Startup, es: seq<Label>)
    requires GoodStart(b) && AllFit(Boot(b), es)
    ensures var s := Run(Boot(b), es);
      && (forall p :: IsIot(s, p) ==>
            IotOf(s, p).timer.Some? && IsTimer(s, IotOf(s, p).timer.value)
            && s.nodes[IotOf(s, p).timer.value].marked == s.nodes[p].marked)
      && (forall t :: t in s.todo && IsTimer(s, t) ==>
            s.nodes[t].data.owner.Some? && TimerOf(s, s.nodes[t].data.owner.value, t))
  {
    ReachedInv(b, es);
    var s := Run(Boot(b), es);
    forall p | p in s.nodes
      ensures PairedAt(s.nodes, p)
    {
    }
  }

  // ----- when the process ends

  /** A message the asserts of process_iot_msg do not expect from this node. */
  ghost predicate Unexpected(d: IotData, m: IotMsg) {
    || (Numbered(m, 2) && !(d.workState == Busy && d.requests != [] && d.requests[0].reqType.HelloRequest?))
    || (Numbered(m, 4) && !(d.workState == Busy && d.requests != [] && d.requests[0].reqType.GetRequest?))
    || (Numbered(m, 6) && !(d.workState == Busy && d.requests != [] && d.requests[0].reqType.SetRequest?))
  }

  /** A well-formed response for which the queue holds no request to answer. */
  ghost predicate AnswersNothing(d: IotData, m: IotMsg) {
    || (Numbered(m, 4) && Translate(m.reqArray).Some? && (d.requests == [] || d.requests[0].reqType.HelloRequest?))
    || (Numbered(m, 6) && Translate(m.reqArray).Some? && d.requests == [])
  }

  lemma ResponseOutcome(s: State, p: EventNode, arr: Field<seq<RespItem>>)
    requires s.status == Running && IsIot(s, p) && QueueOk(IotOf(s, p))
    ensures var d, t := IotOf(s, p), Translate(arr).Some?;
      && OnGetResp(s, p, arr).status == (
          if s.build.asserts && !(d.workState == Busy && d.requests[0].reqType.GetRequest?) then Halted
          else if !s.build.asserts && t && (d.requests == [] || d.requests[0].reqType.HelloRequest?) then Undefined
          else Running)
      && OnSetResp(s, p, arr).status == (
          if s.build.asserts && !(d.workState == Busy && d.requests[0].reqType.SetRequest?) then Halted
          else if !s.build.asserts && t && d.requests == [] then Undefined
          else Running)
  {
    var d := IotOf(s, p);
    assert d.requests != [] ==> Sound(BodyOf(d.requests[0]));
    hide Translate;
  }

  /** What one message does to the status, exactly. */
  lemma MessageOutcome(s: State, p: EventNode, m: IotMsg)
    requires Inv(s) && s.status == Running && IsIot(s, p)
    ensures OnMessage(s, p, m).status ==
      if s.build.asserts && Unexpected(IotOf(s, p), m) then Halted
      else if !s.build.asserts && AnswersNothing(IotOf(s, p), m) then Undefined
      else Running
  {
    assert QueueOk(IotOf(s, p)) by { InvAt(s, p); }
    QueueAt(s, p);
    HandlerByNumber(s, p, m);
    hide Inv, QueueOk, Sound, Translate, OnMessage, OnGetResp, OnSetResp, OnCaps, OnNotif, OnHello;
    if m.Object? {
      ResponseOutcome(s, p, m.reqArray);
      OtherOutcome(s, p, m);
    }
  }

  lemma OtherOutcome(s: State, p: EventNode, m: IotMsg)
    requires s.status == Running && IsIot(s, p) && m.Object? && QueueOk(IotOf(s, p))
    ensures OnHello(s, p).status ==
      if s.build.asserts
        && !(IotOf(s, p).workState == Busy && IotOf(s, p).requests[0].reqType.HelloRequest?) then Halted else Running
    ensures OnCaps(s, p, m.name, m.caps).status == Running && OnNotif(s, p, m.reqArray).status == Running
  {
  }

  /** The step hands a message with the given property to a node. */
  ghost predicate Tells(s: State, e: Label, what: (IotData, IotMsg) -> bool) {
    && e.Visit? && e.input.NodeMessage?
    && s.todo != [] && IsIot(s, s.todo[0]) && what(IotOf(s, s.todo[0]), e.input.msg)
  }

  /** The visits that end the process, exactly. */
  lemma VisitOutcome(s: State, p: EventNode, input: Input)
    requires Inv(s) && s.status == Running && p in s.nodes && p !in s.todo && Fits(s, Visit(input))
    requires IsTimer(s, p) ==> s.nodes[p].data.owner.Some?
    ensures OnVisit(s, p, input).status == Halted <==> (
      || (s.build.asserts && input.NodeMessage? && IsIot(s, p) && Unexpected(IotOf(s, p), input.msg))
      || (input.ScanExpired? && s.nodes[p].data == Plain(WorkScanTimerEvent)
           && exists j: nat :: EndsAt(s, 0, input.clock, j, Halted)))
    ensures OnVisit(s, p, input).status == Spinning <==>
      input.ScanExpired? && s.nodes[p].data == Plain(WorkScanTimerEvent)
        && exists j: nat :: EndsAt(s, 0, input.clock, j, Spinning)
    ensures OnVisit(s, p, input).status == Undefined <==>
      !s.build.asserts && input.NodeMessage? && IsIot(s, p) && AnswersNothing(IotOf(s, p), input.msg)
  {
    hide Inv, EndsAt, Unexpected, AnswersNothing, OnMessage, OnClosed, OnTimer, DispatchFrom, Scan;
    match s.nodes[p].data
    case Iot(_) =>
      if input.NodeMessage? {
        MessageOutcome(s, p, input.msg);
      } else if input.NodeClosed? {
        ClosedKeepsInv(s, p);
      }
    case Timer(_) =>
      if input.TimerExpired? {
        TimerKeepsInv(s, p);
      }
    case Plain(t) =>
      if t == MqttMsgEvent {
        DispatchKeepsInv(s, 0, false, false);
      } else if t == WorkScanTimerEvent && input.ScanExpired? {
        ScanOutcome(s, input.clock, Halted);
        ScanOutcome(s, input.clock, Spinning);
      }
  }

  /** The step is a scan that ends the process in this way. */
  ghost predicate ScanEndsIn(s: State, e: Label, st: Status) {
    Scans(s, e) && exists j: nat :: EndsAt(s, 0, e.input.clock, j, st)
  }

  lemma CursorDoesNotMatter(s: State, todo: seq<EventNode>, clock: Clock, st: Status)
    ensures (exists j: nat :: EndsAt(s.(todo := todo), 0, clock, j, st)) <==>
      (exists j: nat :: EndsAt(s, 0, clock, j, st))
  {
    hide NodeVerdict;
    forall j: nat
      ensures EndsAt(s.(todo := todo), 0, clock, j, st) <==> EndsAt(s, 0, clock, j, st)
    {
    }
  }

  /** The steps that end the process, in each of the three ways, in every reachable state, exactly. */
  lemma StepOutcome(s: State, e: Label)
    requires Inv(s) && s.status == Running && Fits(s, e)
    ensures Step(s, e).status == Halted <==>
      (s.build.asserts && Tells(s, e, Unexpected)) || ScanEndsIn(s, e, Halted)
    ensures Step(s, e).status == Spinning <==> ScanEndsIn(s, e, Spinning)
    ensures Step(s, e).status == Undefined <==> !s.build.asserts && Tells(s, e, AnswersNothing)
  {
    if e.LoopTop? && s.todo == [] {
      LoopTopKeepsInv(s);
    } else if e.Visit? && s.todo != [] {
      var p := s.todo[0];
      var s1 := s.(todo := s.todo[1..]);
      assert p in s.nodes;
      AdvanceKeepsInv(s);
      assert p !in s1.todo && (IsTimer(s, p) ==> s.nodes[p].data.owner.Some?);
      hide Inv, EndsAt, Unexpected, AnswersNothing, OnVisit;
      VisitOutcome(s1, p, e.input);
      if e.input.ScanExpired? {
        CursorDoesNotMatter(s, s.todo[1..], e.input.clock, Halted);
        CursorDoesNotMatter(s, s.todo[1..], e.input.clock, Spinning);
      }
    }
  }

  /** A LOG_ENABLE process never follows a bad pointer. */
  lemma NeverUndefinedWithAsserts(b: Startup, es: seq<Label>)
    requires GoodStart(b) && AllFit(Boot(b), es) && b.build.asserts
    ensures Run(Boot(b), es).status != Undefined
  {
    ReachedInv(b, es);
    RunKeepsBuild(Boot(b), es);
  }

  /** The scan ends the process: it halts it, if no message that waits is endless. */
  ghost predicate ScanEndsProcess(s: State, clock: Clock) {
    && (Scan(s, 0, clock).status == Halted || Scan(s, 0, clock).status == Spinning)
    && ((forall q, j: nat :: q in s.nodes ==> !SendsEndless(s.build, s.nodes[q], clock(j))) ==>
         Scan(s, 0, clock).status == Halted)
  }

  /** A node that closes its connection while it is busy is left free with its head out: the next scan of
      the same pass ends a LOG_ENABLE process. */
  lemma CloseWhileBusyHalts(s: State, p: EventNode, clock: Clock)
    requires Inv(s) && s.status == Running && s.build.asserts && IsIot(s, p)
    ensures Stuck(OnClosed(s, p).nodes[p]) <==> HeadSent(IotOf(s, p))
    ensures IotOf(s, p).workState == Busy ==> ScanEndsProcess(OnClosed(s, p), clock)
  {
    assert PairedAt(s.nodes, p);
    assert NodeOk(s.build.asserts, s.nodes[p].marked, IotOf(s, p));
    ClosedKeepsInv(s, p);
    if HeadSent(IotOf(s, p)) {
      StuckNodeEndsScan(OnClosed(s, p), clock, p);
    }
  }

  /** A CAPS message frees the node whatever it was doing: the node is stuck afterwards exactly when its head
      is out, and then the next scan ends a LOG_ENABLE process. */
  lemma CapsWhileBusyHalts(s: State, p: EventNode, name: Field<string>, caps: Field<seq<CapItem>>, clock: Clock)
    requires Inv(s) && s.status == Running && s.build.asserts && IsIot(s, p)
    ensures Stuck(OnCaps(s, p, name, caps).nodes[p]) <==> HeadSent(IotOf(s, p))
    ensures IotOf(s, p).workState == Busy ==> ScanEndsProcess(OnCaps(s, p, name, caps), clock)
  {
    CapsEffect(s, p, name, caps);
    assert NodeOk(s.build.asserts, s.nodes[p].marked, IotOf(s, p));
    CapsKeepsInv(s, p, name, caps);
    if HeadSent(IotOf(s, p)) {
      StuckNodeEndsScan(OnCaps(s, p, name, caps), clock, p);
    }
  }
}

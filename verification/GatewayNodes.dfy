/** What one step of the program does to one node: the scan makes the node's own step, a message or the end of its
    connection answers at most its head, and everything else only adds pending requests at the tail. */
module GatewayNodes {
  import opened Common
  import opened GatewayTypes
  import opened GatewaySpec
  import opened GatewayInvariant
  import opened GatewayScan
  import opened GatewayDispatch

  /** The step is a word of p itself: a message, or the end of its connection. */
  ghost predicate Speaks(s: State, e: Label, p: EventNode) {
    s.status == Running && e.Visit? && (e.input.NodeMessage? || e.input.NodeClosed?) && s.todo != [] && s.todo[0] == p
  }

  /** The requests rs are added at the tail, and nothing else that concerns the queue changes. */
  ghost predicate GrowsBy(d: IotData, d': IotData, rs: seq<Request>) {
    && AllPending(rs)
    && d'.requests == d.requests + rs && d'.workState == d.workState
    && d'.hist.enqueued == d.hist.enqueued + Bodies(rs)
    && d'.hist.completed == d.hist.completed && d'.hist.written == d.hist.written
  }

  /** It grows by requests of the list `work` and HELLO requests. */
  ghost predicate Grows(d: IotData, d': IotData, work: seq<Request>) {
    exists rs :: GrowsBy(d, d', rs) && forall r :: r in rs ==> r in work || r == HelloOf()
  }

  /** The head is taken off the queue as completed, and the node is free. */
  ghost predicate Answered(d: IotData, d': IotData) {
    && d.requests != [] && d'.requests == d.requests[1..] && d'.workState == Free
    && d'.hist.enqueued == d.hist.enqueued && d'.hist.written == d.hist.written
    && d'.hist.completed == d.hist.completed + [BodyOf(d.requests[0])]
  }

  /** The queue is left alone; at most the node becomes free. */
  ghost predicate LetBe(d: IotData, d': IotData) {
    && d'.requests == d.requests && (d'.workState == d.workState || d'.workState == Free)
    && d'.hist.enqueued == d.hist.enqueued && d'.hist.written == d.hist.written
    && d'.hist.completed == d.hist.completed
  }

  /** What passes a node by: it may gain requests, keeps its mark, and no entry becomes a node or ceases to be one. */
  ghost predicate Passes(s: State, s': State, p: EventNode) {
    && (IsIot(s', p) ==> IsIot(s, p))
    && (IsIot(s, p) && p in s'.nodes ==>
          IsIot(s', p) && Grows(IotOf(s, p), IotOf(s', p), s.work) && (s.nodes[p].marked ==> s'.nodes[p].marked))
  }

  lemma Unchanged(s: State, s': State, p: EventNode)
    requires IsIot(s', p) ==> IsIot(s, p)
    requires IsIot(s, p) && p in s'.nodes ==> s'.nodes[p] == s.nodes[p]
    ensures Passes(s, s', p)
  {
    if IsIot(s, p) && p in s'.nodes {
      var d := IotOf(s, p);
      assert d.requests + [] == d.requests && d.hist.enqueued + Bodies([]) == d.hist.enqueued;
      assert GrowsBy(d, d, []);
    }
  }

  // ----- messages and closed connections

  /** Only the entry of q has changed; it is still a node, with the same mark. */
  ghost predicate Local(s: State, s': State, q: EventNode) {
    && IsIot(s, q) && IsIot(s', q) && s'.nodes[q].marked == s.nodes[q].marked
    && s'.nodes == s.nodes[q := s'.nodes[q]]
  }

  lemma PutIsLocal(s: State, q: EventNode, d: IotData, s': State)
    requires IsIot(s, q) && (s'.nodes == s.nodes || s'.nodes == PutIot(s, q, d).nodes)
    ensures Local(s, s', q)
  {
  }

  lemma ReleaseIsLocal(s: State, q: EventNode, pubs: seq<Publication>)
    requires IsIot(s, q) && IotOf(s, q).requests != []
    ensures Local(s, Release(Publish(s, pubs), q), q) && Local(s, Release(s, q), q)
  {
    ReleaseIsUpdate(s, q);
    ReleaseIsUpdate(Publish(s, pubs), q);
    hide DropHead, Release;
    PutIsLocal(s, q, DropHead(IotOf(s, q)).(workState := Free), Release(s, q));
    PutIsLocal(s, q, DropHead(IotOf(s, q)).(workState := Free), Release(Publish(s, pubs), q));
  }

  lemma HelloIsLocal(s: State, q: EventNode)
    requires IsIot(s, q)
    ensures Local(s, OnHello(s, q), q)
  {
    var s1 := PutIot(s, q, Greeted(IotOf(s, q)));
    PutIsLocal(s, q, Greeted(IotOf(s, q)), s1);
    if IotOf(s, q).requests != [] {
      ReleaseIsLocal(s1, q, []);
    }
    hide Release, Greeted;
  }

  lemma ResponseIsLocal(s: State, q: EventNode, arr: Field<seq<RespItem>>)
    requires IsIot(s, q)
    ensures Local(s, OnGetResp(s, q, arr), q) && Local(s, OnSetResp(s, q, arr), q) && Local(s, OnNotif(s, q, arr), q)
  {
    hide Translate, Release, Local, ResponseGuard;
    var d := IotOf(s, q);
    PutIsLocal(s, q, d, s);
    forall s': State | s'.nodes == s.nodes
      ensures Local(s, s', q)
    {
      PutIsLocal(s, q, d, s');
    }
    if Translate(arr).Some? && d.requests != [] {
      ReleaseIsLocal(s, q, BroadcastBoth(SetResponse(d.clientId, d.name, Translate(arr).value)));
      if d.requests[0].data.Some? {
        var to := d.requests[0].data.value;
        ReleaseIsLocal(s, q,
          [Publication(ToClient(to.sender), to.broker, GetResponse(d.clientId, d.name, Translate(arr).value))]);
      }
    }
  }

  /** A message changes the entry of its node alone. */
  lemma MessageIsLocal(s: State, q: EventNode, m: IotMsg)
    requires IsIot(s, q) && IotOf(s, q).capsNum == |IotOf(s, q).caps| % 256
    ensures Local(s, OnMessage(s, q, m), q)
  {
    hide OnHello, OnCaps, OnGetResp, OnSetResp, OnNotif, ParseMsgType, Local;
    PutIsLocal(s, q, IotOf(s, q), s);
    if m.Object? {
      HelloIsLocal(s, q);
      ResponseIsLocal(s, q, m.reqArray);
      CapsEffect(s, q, m.name, m.caps);
      PutIsLocal(s, q, IotOf(OnCaps(s, q, m.name, m.caps), q), OnCaps(s, q, m.name, m.caps));
    }
  }

  lemma AnswersHead(s: State, q: EventNode, pubs: seq<Publication>)
    requires IsIot(s, q) && IotOf(s, q).requests != []
    ensures IsIot(Release(Publish(s, pubs), q), q) && Answered(IotOf(s, q), IotOf(Release(Publish(s, pubs), q), q))
  {
  }

  lemma ResponseOnNode(s: State, q: EventNode, arr: Field<seq<RespItem>>)
    requires IsIot(s, q)
    ensures forall s' ::
      s' in {OnGetResp(s, q, arr), OnSetResp(s, q, arr), OnNotif(s, q, arr)} && s'.status == Running ==>
      IsIot(s', q) && (Answered(IotOf(s, q), IotOf(s', q)) || LetBe(IotOf(s, q), IotOf(s', q)))
  {
    hide Translate, Release, Answered, ResponseGuard;
    var d := IotOf(s, q);
    if Translate(arr).Some? && d.requests != [] {
      AnswersHead(s, q, BroadcastBoth(SetResponse(d.clientId, d.name, Translate(arr).value)));
      if d.requests[0].data.Some? {
        var to := d.requests[0].data.value;
        AnswersHead(s, q,
          [Publication(ToClient(to.sender), to.broker, GetResponse(d.clientId, d.name, Translate(arr).value))]);
      }
    }
  }

  lemma MessageOnNode(s: State, q: EventNode, m: IotMsg)
    requires IsIot(s, q) && OnMessage(s, q, m).status == Running
    requires IotOf(s, q).capsNum == |IotOf(s, q).caps| % 256
    ensures IsIot(OnMessage(s, q, m), q)
    ensures Answered(IotOf(s, q), IotOf(OnMessage(s, q, m), q)) || LetBe(IotOf(s, q), IotOf(OnMessage(s, q, m), q))
  {
    if m.Object? {
      ResponseOnNode(s, q, m.reqArray);
      CapsEffect(s, q, m.name, m.caps);
      hide OnCaps, OnGetResp, OnSetResp, OnNotif, ParseMsgType;
    }
  }

  lemma OthersPass(s: State, s': State, q: EventNode, p: EventNode)
    requires Local(s, s', q) && p != q
    ensures Passes(s, s', p)
  {
    Unchanged(s, s', p);
  }

  lemma CloseOnNodes(s: State, q: EventNode, p: EventNode)
    requires Inv(s) && IsIot(s, q)
    ensures p != q ==> Passes(s, OnClosed(s, q), p)
    ensures IsIot(OnClosed(s, q), q) && OnClosed(s, q).nodes[q].marked && LetBe(IotOf(s, q), IotOf(OnClosed(s, q), q))
  {
    assert PairedAt(s.nodes, q);
    var t := IotOf(s, q).timer.value;
    hide Inv, OnClosed, LetBe, Passes;
    ClosedShape(s, q, t);
    MarkingPasses(s, OnClosed(s, q), q, t, p);
  }

  /** Marking a node and its timer. */
  lemma MarkingPasses(s: State, s': State, q: EventNode, t: EventNode, p: EventNode)
    requires MarkedPair(s, s', q, t)
    ensures p != q ==> Passes(s, s', p)
    ensures LetBe(IotOf(s, q), IotOf(s', q)) && s'.nodes[q].marked
    ensures IotOf(s', q).workState == IotOf(s, q).workState ==> Grows(IotOf(s, q), IotOf(s', q), s.work)
  {
    assert p in s'.nodes <==> p in s'.nodes.Keys;
    assert p in s.nodes <==> p in s.nodes.Keys;
    if p != q {
      Unchanged(s, s', p);
    }
    if IotOf(s', q).workState == IotOf(s, q).workState {
      GrowsByNothing(IotOf(s, q), IotOf(s', q), s.work);
    }
  }

  lemma GrowsByNothing(d: IotData, d': IotData, work: seq<Request>)
    requires LetBe(d, d') && d'.workState == d.workState
    ensures Grows(d, d', work)
  {
    assert d.requests + [] == d.requests && d.hist.enqueued + Bodies([]) == d.hist.enqueued;
    assert GrowsBy(d, d', []);
  }

  // ----- timers, dispatch, connections, collection

  lemma TimerOnNodes(s: State, t: EventNode, p: EventNode)
    requires Inv(s) && IsTimer(s, t) && s.nodes[t].data.owner.Some?
    ensures Passes(s, OnTimer(s, t), p)
  {
    TimerPointerIsLive(s, t);
    var q := s.nodes[t].data.owner.value;
    hide Inv, OnTimer, Passes, Grows;
    if IotOf(s, q).helloCount == 0 {
      DeadTimerShape(s, q, t);
      DeadTimerKeepsWork(s, q, t);
      MarkingPasses(s, OnTimer(s, t), q, t, p);
      if p == q {
        PassesIf(s, OnTimer(s, t), p);
      }
    } else {
      LiveTimerIsPing(s, t, q);
      PutPasses(s, q, Pinged(IotOf(s, q)), OnTimer(s, t), p);
    }
  }

  lemma DeadTimerKeepsWork(s: State, q: EventNode, t: EventNode)
    requires IsIot(s, q) && IsTimer(s, t) && s.nodes[t].data == Timer(Some(q)) && IotOf(s, q).helloCount == 0
    ensures IsIot(OnTimer(s, t), q) && IotOf(OnTimer(s, t), q).workState == IotOf(s, q).workState
  {
  }

  lemma PassesIf(s: State, s': State, p: EventNode)
    requires IsIot(s, p) && IsIot(s', p) && s'.nodes[p].marked && Grows(IotOf(s, p), IotOf(s', p), s.work)
    ensures Passes(s, s', p)
  {
  }

  lemma PutPasses(s: State, q: EventNode, d: IotData, s': State, p: EventNode)
    requires IsIot(s, q) && IotOf(s, q).helloCount > 0 && d == Pinged(IotOf(s, q)) && s'.nodes == PutIot(s, q, d).nodes
    ensures Passes(s, s', p)
  {
    if p == q {
      assert Bodies([HelloOf()]) == [BodyOf(HelloOf())];
      assert GrowsBy(IotOf(s, q), d, [HelloOf()]);
    } else {
      Unchanged(s, s', p);
    }
  }

  lemma {:induction false} ForIsPending(s: State, p: EventNode, w: seq<Request>)
    requires forall i :: 0 <= i < |w| ==> w[i].status == RequestPending
    ensures AllPending(For(s, p, w))
  {
    hide IsFor, ForNobody;
    if w != [] {
      ForIsPending(s, p, w[1..]);
    }
  }

  lemma {:induction false} ForIsPart(s: State, p: EventNode, w: seq<Request>)
    ensures forall r :: r in For(s, p, w) ==> r in w
  {
    hide IsFor, ForNobody;
    if w != [] {
      ForIsPart(s, p, w[1..]);
    }
  }

  lemma DispatchOnNodes(s: State, p: EventNode)
    requires Inv(s)
    ensures Passes(s, Dispatch(s), p)
  {
    DispatchPartitions(s);
    ForIsPending(s, p, s.work);
    ForIsPart(s, p, s.work);
    hide Inv, Dispatch, For, AllPending;
    var s' := Dispatch(s);
    assert p in s'.nodes <==> p in s'.nodes.Keys;
    if IsIot(s, p) {
      assert GrowsBy(IotOf(s, p), IotOf(s', p), For(s, p, s.work));
    }
  }

  /** The entry is a node that has just connected. */
  ghost predicate IsNew(n: NodeData) {
    n.data.Iot? && !n.marked && n.data.iot.requests == [] && n.data.iot.workState == Free
      && n.data.iot.hist == FreshHistory
  }

  lemma AcceptOnNodes(s: State, i: Input, p: EventNode)
    requires i.Accepted? && i.node != i.timer && i.node !in s.nodes && i.timer !in s.nodes
    ensures var s' := OnAccept(s, i.node, i.timer, i.fd, i.timerFd, i.junk);
      && (p in s.nodes ==> Passes(s, s', p))
      && (IsIot(s', p) && !IsIot(s, p) ==> p == i.node && IsNew(s'.nodes[p]))
  {
    var s' := OnAccept(s, i.node, i.timer, i.fd, i.timerFd, i.junk);
    if p in s.nodes {
      assert s'.nodes[p] == s.nodes[p];
      Unchanged(s, s', p);
    }
  }

  lemma LoopTopOnNodes(s: State, p: EventNode)
    requires Inv(s) && s.todo == []
    ensures Passes(s, OnLoopTop(s), p) && OnLoopTop(s).status == s.status
  {
    GcRemovesMarked(s, s.order);
    Unchanged(s, OnLoopTop(s), p);
  }

  // ----- one step

  /** The scan has made the node's own step. */
  ghost predicate Scanned(s: State, s': State, clock: Clock, p: EventNode) {
    && p in s.nodes && p in s'.nodes
    && exists j :: 0 <= j < |s.order| && s.order[j] == p && s'.nodes[p] == ScanData(s.nodes[p], clock(j).time)
  }

  /** What a step that does not end the process does to the entry p. */
  ghost predicate NodeStep(s: State, e: Label, p: EventNode) {
    var s' := Step(s, e);
    && (IsIot(s', p) && !IsIot(s, p) ==> e.Visit? && e.input.Accepted? && e.input.node == p && IsNew(s'.nodes[p]))
    && (IsIot(s, p) && p in s'.nodes ==>
          && IsIot(s', p) && (s.nodes[p].marked ==> s'.nodes[p].marked)
          && if Scans(s, e) then Scanned(s, s', e.input.clock, p)
             else if Speaks(s, e, p) then Answered(IotOf(s, p), IotOf(s', p)) || LetBe(IotOf(s, p), IotOf(s', p))
             else Grows(IotOf(s, p), IotOf(s', p), s.work))
  }

  lemma ScanOnNodes(s: State, clock: Clock, p: EventNode)
    requires Inv(s) && s.status == Running && Scan(s, 0, clock).status == Running
    ensures var s' := Scan(s, 0, clock);
      && (p in s'.nodes <==> p in s.nodes) && (p in s.nodes ==> Scanned(s, s', clock, p))
      && (IsIot(s', p) <==> IsIot(s, p)) && (IsIot(s, p) ==> s'.nodes[p].marked == s.nodes[p].marked)
  {
    ScanIsPointwise(s, 0, clock);
    AllListed(s);
    hide Inv, Scan, ScanNode;
    var s' := Scan(s, 0, clock);
    assert (p in s'.nodes <==> p in s'.nodes.Keys) && (p in s.nodes <==> p in s.nodes.Keys);
    if p in s.nodes {
      var j :| 0 <= j < |s.order| && s.order[j] == p;
      assert s'.nodes[s.order[j]] == ScanData(s.nodes[s.order[j]], clock(j).time);
    }
  }

  lemma WordOnNodes(s: State, q: EventNode, i: Input, p: EventNode)
    requires Inv(s) && s.status == Running && IsIot(s, q) && (i.NodeMessage? || i.NodeClosed?)
    requires OnVisit(s, q, i).status == Running
    ensures var s' := OnVisit(s, q, i);
      if p != q then Passes(s, s', p) else (
        && IsIot(s', q) && (s.nodes[q].marked ==> s'.nodes[q].marked)
        && (Answered(IotOf(s, q), IotOf(s', q)) || LetBe(IotOf(s, q), IotOf(s', q))))
  {
    assert IotOf(s, q).capsNum == |IotOf(s, q).caps| % 256 by { InvAt(s, q); }
    hide Inv, OnMessage, OnClosed, Passes, Answered, LetBe;
    if i.NodeMessage? {
      MessageIsLocal(s, q, i.msg);
      MessageOnNode(s, q, i.msg);
      if p != q {
        OthersPass(s, OnMessage(s, q, i.msg), q, p);
      }
    } else {
      CloseOnNodes(s, q, p);
    }
  }

  lemma PlainVisitOnNodes(s: State, q: EventNode, i: Input, p: EventNode)
    requires Inv(s) && s.status == Running && q in s.nodes && s.nodes[q].data.Plain? && Fits(s, Visit(i))
    requires !(i.ScanExpired? && s.nodes[q].data == Plain(WorkScanTimerEvent))
    ensures p in s.nodes ==> Passes(s, OnVisit(s, q, i), p)
    ensures IsIot(OnVisit(s, q, i), p) && !IsIot(s, p) ==>
      i.Accepted? && i.node == p && IsNew(OnVisit(s, q, i).nodes[p])
  {
    hide Inv, Dispatch, OnAccept, Passes, IsNew;
    if i.Accepted? {
      AcceptOnNodes(s, i, p);
    }
    DispatchOnNodes(s, p);
    Unchanged(s, s, p);
    PassesKeepsKind(s, Dispatch(s), p);
  }

  lemma PassesKeepsKind(s: State, s': State, p: EventNode)
    requires Passes(s, s', p)
    ensures IsIot(s', p) ==> IsIot(s, p)
  {
  }

  lemma CursorPasses(s: State, todo: seq<EventNode>, s': State, p: EventNode)
    ensures Passes(s.(todo := todo), s', p) <==> Passes(s, s', p)
  {
  }

  /** Every step that does not end the process treats every entry in one of these ways. */
  lemma StepOfNode(s: State, e: Label, p: EventNode)
    requires Inv(s) && s.status == Running && Fits(s, e) && Step(s, e).status == Running
    ensures NodeStep(s, e, p)
  {
    hide Inv, OnVisit, OnLoopTop, Passes, Grows, Answered, LetBe, IsNew, Scanned;
    if e.LoopTop? {
      Unchanged(s, s, p);
      if s.todo == [] {
        LoopTopOnNodes(s, p);
      }
      PassingStep(s, e, p);
    } else if e.Arrive? {
      Unchanged(s, Step(s, e), p);
      PassingStep(s, e, p);
    } else if s.todo == [] {
      Unchanged(s, s, p);
      PassingStep(s, e, p);
    } else {
      AdvanceKeepsInv(s);
      VisitOfNode(s, e, p);
    }
  }

  lemma PassingStep(s: State, e: Label, p: EventNode)
    requires Passes(s, Step(s, e), p) && !Scans(s, e) && !(Speaks(s, e, p) && IsIot(s, p))
    ensures NodeStep(s, e, p)
  {
    hide Step, Grows, Speaks, Scans;
  }

  lemma VisitOfNode(s: State, e: Label, p: EventNode)
    requires Inv(s) && s.status == Running && Fits(s, e) && Step(s, e).status == Running && e.Visit? && s.todo != []
    requires Inv(s.(todo := s.todo[1..])) && s.todo[0] in s.nodes
      && (IsTimer(s, s.todo[0]) ==> s.nodes[s.todo[0]].data.owner.Some?)
    ensures NodeStep(s, e, p)
  {
    hide Inv, OnVisit, Passes, Grows, Answered, LetBe, IsNew, Scanned;
    var q, s1 := s.todo[0], s.(todo := s.todo[1..]);
    match s.nodes[q].data
    case Iot(_) =>
      if e.input.NodeMessage? || e.input.NodeClosed? {
        WordOnNodes(s1, q, e.input, p);
        if p != q {
          CursorPasses(s, s.todo[1..], Step(s, e), p);
          PassingStep(s, e, p);
        }
      } else {
        IdleVisit(s1, q, e.input);
        Unchanged(s, Step(s, e), p);
        PassingStep(s, e, p);
      }
    case Timer(_) =>
      TimerOnNodes(s1, q, p);
      IdleVisit(s1, q, e.input);
      Unchanged(s, s1, p);
      CursorPasses(s, s.todo[1..], Step(s, e), p);
      PassingStep(s, e, p);
    case Plain(_) =>
      if Scans(s, e) {
        ScanStep(s, e);
        ScanOnNodes(s1, e.input.clock, p);
        ScannedAnyCursor(s, s.todo[1..], Step(s, e), e.input.clock, p);
      } else {
        PlainVisitOnNodes(s1, q, e.input, p);
        CursorPasses(s, s.todo[1..], Step(s, e), p);
        if p in s.nodes {
          PassingStep(s, e, p);
        }
      }
  }

  lemma ScannedAnyCursor(s: State, todo: seq<EventNode>, s': State, clock: Clock, p: EventNode)
    ensures Scanned(s.(todo := todo), s', clock, p) <==> Scanned(s, s', clock, p)
  {
    hide ScanData;
  }

  /** A node that is offered nothing it says, and a timer that is offered no expiry. */
  lemma IdleVisit(s: State, q: EventNode, i: Input)
    requires q in s.nodes
    ensures IsIot(s, q) && !i.NodeMessage? && !i.NodeClosed? ==> OnVisit(s, q, i) == s
    ensures IsTimer(s, q) ==> OnVisit(s, q, i) == if i.TimerExpired? then OnTimer(s, q) else s
  {
  }
}

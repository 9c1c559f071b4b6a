/** The strong queue law: a free, unmarked node has nothing out. It needs CAPS messages to come only from
    nodes that are not waiting for an answer. */
module GatewayFree {
  import opened Common
  import opened GatewayTypes
  import opened GatewaySpec
  import opened GatewayInvariant
  import opened GatewayScan
  import opened GatewayRuns

  ghost predicate FreeMeansPending(marked: bool, d: IotData) {
    !marked && d.workState == Free ==> AllPending(d.requests)
  }

  ghost predicate FreeOk(s: State) {
    forall p :: p in s.nodes && IsIot(s, p) ==> FreeMeansPending(s.nodes[p].marked, IotOf(s, p))
  }

  ghost predicate CapsFromBusy(d: IotData, m: IotMsg) {
    Numbered(m, 1) && d.workState == Busy
  }

  /** No step of the run brings a CAPS message from a busy node. */
  ghost predicate CapsOnlyWhenFree(s: State, es: seq<Label>)
    decreases |es|
  {
    es != [] ==> !Tells(s, es[0], CapsFromBusy) && CapsOnlyWhenFree(Step(s, es[0]), es[1..])
  }

  lemma FreeOkUpdate(s: State, p: EventNode, n: NodeData, s': State)
    requires FreeOk(s) && s'.nodes == s.nodes[p := n]
    requires n.data.Iot? ==> FreeMeansPending(n.marked, n.data.iot)
    ensures FreeOk(s')
  {
  }

  lemma EnqueueKeepsFreeOk(s: State, p: EventNode, r: Request)
    requires FreeOk(s) && IsIot(s, p) && r.status == RequestPending
    ensures FreeOk(Enqueue(s, p, r))
  {
    assert FreeMeansPending(s.nodes[p].marked, IotOf(s, p));
    FreeOkUpdate(s, p, Enqueue(s, p, r).nodes[p], Enqueue(s, p, r));
  }

  lemma ReleaseKeepsFreeOk(s: State, p: EventNode)
    requires FreeOk(s) && IsIot(s, p) && IotOf(s, p).requests != [] && AllPending(IotOf(s, p).requests[1..])
    ensures FreeOk(Release(s, p))
  {
    ReleaseIsUpdate(s, p);
    FreeOkUpdate(s, p, Release(s, p).nodes[p], Release(s, p));
  }

  lemma {:induction false} ScanKeepsFreeOk(s: State, i: nat, clock: Clock)
    requires Inv(s) && FreeOk(s)
    ensures FreeOk(Scan(s, i, clock))
    decreases |s.order| - i
  {
    if s.status == Running && i < |s.order| {
      var p := s.order[i];
      assert p in s.nodes;
      ScanOneKeepsInv(s, p, clock(i));
      ScanOneKeepsFreeOk(s, p, clock(i));
      hide Inv, ScanOne;
      ScanKeepsFreeOk(ScanOne(s, p, clock(i)), i + 1, clock);
    }
  }

  lemma ScanOneKeepsFreeOk(s: State, p: EventNode, now: Reading)
    requires Inv(s) && FreeOk(s) && p in s.nodes
    ensures FreeOk(ScanOne(s, p, now))
  {
    if IsIot(s, p) {
      var d := IotOf(s, p);
      assert QueueOk(d);
      if d.workState.Busy? {
        if TimedOut(d.requests[0].timestamp, now.time) {
          ReleaseKeepsFreeOk(s, p);
        }
      } else if d.requests != [] {
        FreeOkUpdate(s, p, s.nodes[p].(data := Iot(SendHead(d, now.time))), PutIot(s, p, SendHead(d, now.time)));
      }
    }
  }

  lemma DispatchKeepsFreeOk(s: State, k: nat, found: bool, clear: bool)
    requires FreeOk(s) && WorkOk(s.work) && k <= |s.work|
    ensures FreeOk(DispatchFrom(s, k, found, clear))
    decreases |s.work| - k
  {
    if k < |s.work| {
      var r := s.work[k];
      var rest := s.(work := s.work[..k] + s.work[k + 1..]);
      assert WorkOk(rest.work) by {
        assert forall i :: 0 <= i < |rest.work| ==> rest.work[i] == s.work[if i < k then i else i + 1];
      }
      match MatchOf(s, r)
      case Some(p) =>
        EnqueueKeepsFreeOk(rest, p, r);
        DispatchKeepsFreeOk(Enqueue(rest, p, r), k, !clear, clear);
      case None =>
        if found {
          DispatchKeepsFreeOk(s, k + 1, found && !clear, clear);
        } else {
          DispatchKeepsFreeOk(Publish(rest, [ErrorReply(r)]), k, false, clear);
        }
    }
  }

  lemma HelloKeepsFreeOk(s: State, p: EventNode)
    requires Inv(s) && FreeOk(s) && IsIot(s, p)
    ensures FreeOk(OnHello(s, p))
  {
    var d := IotOf(s, p);
    assert QueueOk(d) && FreeMeansPending(s.nodes[p].marked, d);
    var s1 := PutIot(s, p, Greeted(d));
    FreeOkUpdate(s, p, s1.nodes[p], s1);
    if d.requests != [] {
      ReleaseKeepsFreeOk(s1, p);
    }
  }

  lemma ResponseKeepsFreeOk(s: State, p: EventNode, arr: Field<seq<RespItem>>)
    requires FreeOk(s) && IsIot(s, p) && QueueOk(IotOf(s, p))
    ensures FreeOk(OnGetResp(s, p, arr)) && FreeOk(OnSetResp(s, p, arr))
  {
    var d := IotOf(s, p);
    if Translate(arr).Some? && d.requests != [] {
      var pubs := BroadcastBoth(SetResponse(d.clientId, d.name, Translate(arr).value));
      ReleaseKeepsFreeOk(Publish(s, pubs), p);
      if d.requests[0].data.Some? {
        var to := d.requests[0].data.value;
        ReleaseKeepsFreeOk(Publish(s,
          [Publication(ToClient(to.sender), to.broker, GetResponse(d.clientId, d.name, Translate(arr).value))]), p);
      }
    }
    hide Translate, Release, ResponseGuard, QueueOk;
  }

  lemma MessageKeepsFreeOk(s: State, p: EventNode, m: IotMsg)
    requires Inv(s) && FreeOk(s) && IsIot(s, p) && !CapsFromBusy(IotOf(s, p), m)
    ensures FreeOk(OnMessage(s, p, m))
  {
    if m.Object? {
      assert QueueOk(IotOf(s, p));
      match ParseMsgType(m.msgType)
      case HelloMsg => HelloKeepsFreeOk(s, p);
      case CapsMsg =>
        assert NodeOk(s.build.asserts, s.nodes[p].marked, IotOf(s, p))
          && FreeMeansPending(s.nodes[p].marked, IotOf(s, p));
        CapsEffect(s, p, m.name, m.caps);
        FreeOkUpdate(s, p, OnCaps(s, p, m.name, m.caps).nodes[p], OnCaps(s, p, m.name, m.caps));
      case GetRespMsg => ResponseKeepsFreeOk(s, p, m.reqArray);
      case SetRespMsg => ResponseKeepsFreeOk(s, p, m.reqArray);
      case _ =>
    }
  }

  lemma ClosedKeepsFreeOk(s: State, p: EventNode)
    requires Paired(s.nodes) && FreeOk(s) && IsIot(s, p)
    ensures FreeOk(OnClosed(s, p))
  {
    assert PairedAt(s.nodes, p);
    var t := IotOf(s, p).timer.value;
    var s1 := Mark(s, t);
    FreeOkUpdate(s, t, s1.nodes[t], s1);
    FreeOkUpdate(s1, p, OnClosed(s, p).nodes[p], OnClosed(s, p));
  }

  lemma TimerKeepsFreeOk(s: State, t: EventNode)
    requires FreeOk(s) && IsTimer(s, t)
    ensures FreeOk(OnTimer(s, t))
  {
    var o := s.nodes[t].data.owner;
    if o.Some? && IsIot(s, o.value) {
      var p := o.value;
      var d := IotOf(s, p);
      assert FreeMeansPending(s.nodes[p].marked, d);
      var s' := OnTimer(s, t);
      if d.helloCount == 0 {
        var n := s.nodes[p].(data := Iot(CountFiring(d)), marked := true);
        FreeOkUpdate(s, p, n, s.(nodes := s.nodes[p := n]));
        FreeOkUpdate(s.(nodes := s.nodes[p := n]), t, s'.nodes[t], s');
      } else {
        EnqueueKeepsFreeOk(s, p, HelloOf());
        var s1 := Enqueue(s, p, HelloOf());
        assert FreeMeansPending(s1.nodes[p].marked, IotOf(s1, p));
        FreeOkUpdate(s1, p, s'.nodes[p], s');
      }
    }
  }

  lemma StepKeepsFreeOk(s: State, e: Label)
    requires Inv(s) && FreeOk(s) && Fits(s, e) && !Tells(s, e, CapsFromBusy)
    ensures FreeOk(Step(s, e))
  {
    if s.status == Running {
      if e.LoopTop? && s.todo == [] {
        GcRemovesMarked(s, s.order);
      } else if e.Visit? && s.todo != [] {
        var p := s.todo[0];
        var s1 := s.(todo := s.todo[1..]);
        AdvanceKeepsInv(s);
        assert FreeOk(s1) && WorkOk(s.work) && Paired(s.nodes);
        hide Inv, FreeOk, CapsFromBusy, OnMessage, OnClosed, OnTimer, DispatchFrom, Scan;
        if p in s.nodes {
          match s.nodes[p].data
          case Iot(_) =>
            if e.input.NodeMessage? {
              MessageKeepsFreeOk(s1, p, e.input.msg);
            } else {
              ClosedKeepsFreeOk(s1, p);
            }
          case Timer(_) => TimerKeepsFreeOk(s1, p);
          case Plain(t) =>
            if e.input.ScanExpired? {
              ScanKeepsFreeOk(s1, 0, e.input.clock);
            } else if e.input.Accepted? {
              AcceptKeepsFreeOk(s1, e.input);
            } else {
              DispatchKeepsFreeOk(s1, 0, false, false);
            }
        }
      }
    }
  }

  lemma AcceptKeepsFreeOk(s: State, i: Input)
    requires FreeOk(s) && i.Accepted?
    ensures FreeOk(OnAccept(s, i.node, i.timer, i.fd, i.timerFd, i.junk))
  {
    var s1 := AddEvent(s, i.node, i.fd, Iot(NewIot(i.fd, i.junk).(timer := Some(i.timer))));
    FreeOkUpdate(s, i.node, s1.nodes[i.node], s1);
  }

  lemma {:induction false} RunKeepsFreeOk(s: State, es: seq<Label>)
    requires Inv(s) && FreeOk(s) && AllFit(s, es) && CapsOnlyWhenFree(s, es)
    ensures FreeOk(Run(s, es))
    decreases |es|
  {
    hide Inv, FreeOk, Step;
    if es != [] {
      StepKeepsInv(s, es[0]);
      StepKeepsFreeOk(s, es[0]);
      RunKeepsFreeOk(Step(s, es[0]), es[1..]);
    }
  }

  /** When CAPS comes only from nodes that are not waiting, a free node that is not about to be removed has
      only pending requests, so the only stuck nodes are marked ones. */
  lemma FreeMeansPendingOnRuns(b: Startup, es: seq<Label>, p: EventNode)
    requires GoodStart(b) && AllFit(Boot(b), es) && CapsOnlyWhenFree(Boot(b), es) && IsIot(Run(Boot(b), es), p)
    ensures var s, d := Run(Boot(b), es), IotOf(Run(Boot(b), es), p);
      && (!s.nodes[p].marked && d.workState == Free ==> forall i :: 0 <= i < |d.requests| ==>
           d.requests[i].status == RequestPending)
      && (Stuck(s.nodes[p]) ==> s.nodes[p].marked)
  {
    BootInv(b);
    assert FreeOk(Boot(b));
    RunKeepsFreeOk(Boot(b), es);
    hide Run, AllFit, CapsOnlyWhenFree, Boot;
    assert FreeMeansPending(Run(Boot(b), es).nodes[p].marked, IotOf(Run(Boot(b), es), p));
  }
}

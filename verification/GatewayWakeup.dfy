/** When the work scan timer is armed. An armed timer always has work; work always has an armed timer only
    as long as the uint8_t counter does not reach zero with requests left. */
module GatewayWakeup {
  import opened Common
  import opened GatewayTypes
  import opened GatewaySpec
  import opened GatewayInvariant

  /** Waiting requests have an armed timer. */
  ghost predicate WakeOk(s: State) {
    Waiting(s) > 0 ==> s.armed
  }

  /** The counter shows zero although n requests are waiting. */
  predicate Hidden(n: int) {
    n > 0 && n % 256 == 0
  }

  lemma EnqueueKeepsWake(s: State, p: EventNode, r: Request)
    requires Inv(s) && WakeOk(s) && IsIot(s, p)
    ensures WakeOk(Enqueue(s, p, r))
  {
    EnqueueWaits(s, p, r);
  }

  /** Deleting one request keeps the law exactly when the number left is not a positive multiple of 256. */
  lemma ReleaseKeepsWakeIff(s: State, p: EventNode)
    requires Inv(s) && WakeOk(s) && IsIot(s, p) && IotOf(s, p).requests != []
    requires s.build.asserts ==> HeadSent(IotOf(s, p))
    ensures WakeOk(Release(s, p)) <==> !Hidden(Waiting(s) - 1)
  {
    ReleaseKeepsInv(s, p);
    ReleaseIsUpdate(s, p);
    TotalAtLeast(s.order, s.nodes, p);
  }

  /** The bound is needed: of 257 waiting requests one is deleted, and 256 are left with the timer disarmed. */
  lemma DisarmedWithWorkLeft(s: State, p: EventNode)
    requires Inv(s) && Waiting(s) == 257 && IsIot(s, p) && HeadSent(IotOf(s, p))
    ensures Waiting(Release(s, p)) == 256 && Release(s, p).count == 0 && !Release(s, p).armed
    ensures Release(s, p).status == s.status
  {
    ReleaseKeepsInv(s, p);
    ReleaseIsUpdate(s, p);
  }

  lemma DecLaw(count: nat, w: nat)
    requires count == w % 256 && w > 0
    ensures Dec8(count) == (w - 1) % 256
    ensures Dec8(count) == 0 <==> w == 1 || Hidden(w - 1)
  {
  }

  /** Deleting k of w requests leaves the timer right exactly when no count on the way is hidden, or none is left. */
  lemma {:induction false} DrainKeepsWakeIff(count: nat, armed: bool, k: nat, w: nat)
    requires k <= w && count == w % 256 && (armed <==> w > 0)
    ensures (w - k > 0 ==> Drain(count, armed, k).1) <==> (w == k || forall m :: w - k <= m < w ==> !Hidden(m))
    decreases k
  {
    if k > 0 {
      DecLaw(count, w);
      hide Dec8;
      DrainLaw(count, armed, k, w);
      if Hidden(w - 1) {
        DrainStaysDisarmed(Dec8(count), k - 1);
      } else {
        DrainKeepsWakeIff(Dec8(count), armed && Dec8(count) != 0, k - 1, w - 1);
      }
    }
  }

  lemma DrainStaysDisarmed(count: nat, k: nat)
    ensures !Drain(count, false, k).1
    decreases k
  {
  }

  lemma {:induction false} ScanKeepsWake(s: State, i: nat, clock: Clock)
    requires Inv(s) && WakeOk(s) && Waiting(s) <= 256
    ensures WakeOk(Scan(s, i, clock))
    decreases |s.order| - i
  {
    if s.status == Running && i < |s.order| {
      var p := s.order[i];
      assert p in s.nodes;
      ScanOneKeepsInv(s, p, clock(i));
      ScanOneKeepsWake(s, p, clock(i));
      hide Inv, ScanOne;
      ScanKeepsWake(ScanOne(s, p, clock(i)), i + 1, clock);
    }
  }

  lemma ScanOneKeepsWake(s: State, p: EventNode, now: Reading)
    requires Inv(s) && WakeOk(s) && Waiting(s) <= 256 && p in s.nodes
    ensures WakeOk(ScanOne(s, p, now))
  {
    if IsIot(s, p) {
      var d := IotOf(s, p);
      assert NodeOk(s.build.asserts, s.nodes[p].marked, d);
      if d.workState.Busy? {
        if TimedOut(d.requests[0].timestamp, now.time) {
          ReleaseKeepsWakeIff(s, p);
        }
      } else if d.requests != [] {
        SendKeepsInv(s, p, now);
      }
    }
  }

  lemma {:induction false} DispatchKeepsWake(s: State, k: nat, found: bool, clear: bool)
    requires Inv(s) && WakeOk(s) && k <= |s.work|
    ensures WakeOk(DispatchFrom(s, k, found, clear))
    decreases |s.work| - k
  {
    if k < |s.work| {
      var r, rest := s.work[k], Taken(s, k);
      TakenKeepsInv(s, k);
      hide Inv, Enqueue, MatchOf;
      match MatchOf(s, r)
      case Some(p) =>
        EnqueueKeepsInv(rest, p, r);
        EnqueueKeepsWake(rest, p, r);
        EnqueueIsLonger(rest, p, r);
        DispatchKeepsWake(Enqueue(rest, p, r), k, !clear, clear);
      case None =>
        if found {
          DispatchKeepsWake(s, k + 1, found && !clear, clear);
        } else {
          PublishKeepsInv(rest, [ErrorReply(r)]);
          DispatchKeepsWake(Publish(rest, [ErrorReply(r)]), k, false, clear);
        }
    }
  }

  lemma ReleaseKeepsWake(s: State, p: EventNode, pubs: seq<Publication>)
    requires Inv(s) && WakeOk(s) && Waiting(s) <= 256 && IsIot(s, p) && IotOf(s, p).requests != []
    requires s.build.asserts ==> HeadSent(IotOf(s, p))
    ensures WakeOk(Release(Publish(s, pubs), p))
  {
    PublishKeepsInv(s, pubs);
    ReleaseKeepsWakeIff(Publish(s, pubs), p);
  }

  lemma HelloKeepsWake(s: State, p: EventNode)
    requires Inv(s) && WakeOk(s) && Waiting(s) <= 256 && IsIot(s, p)
    ensures WakeOk(OnHello(s, p))
  {
    hide *;
    var s1 := PutIot(s, p, Greeted(IotOf(s, p)));
    ResetKeepsInv(s, p, Greeted(IotOf(s, p)));
    HelloUnfolds(s, p);
    SameWake(s, s1);
    SameWake(s, Halt(s1));
    if OnHello(s, p) != s1 && OnHello(s, p) != Halt(s1) {
      ReleaseKeepsWakeIff(s1, p);
      NotHidden(Waiting(s));
    }
  }

  lemma HelloUnfolds(s: State, p: EventNode)
    requires IsIot(s, p)
    ensures var s1 := PutIot(s, p, Greeted(IotOf(s, p)));
      && IsIot(s1, p) && s1.armed == s.armed && s1.build == s.build && IotOf(s1, p).requests == IotOf(s, p).requests
      && Waiting(Halt(s1)) == Waiting(s1) && Halt(s1).armed == s1.armed
      && (OnHello(s, p) == s1 || OnHello(s, p) == Halt(s1)
          || (IotOf(s, p).requests != [] && (s.build.asserts ==> HeadSent(IotOf(s1, p)))
               && OnHello(s, p) == Release(s1, p)))
  {
  }

  lemma SameWake(s: State, s': State)
    requires WakeOk(s) && Waiting(s') == Waiting(s) && s'.armed == s.armed
    ensures WakeOk(s')
  {
  }

  lemma NotHidden(waiting: nat)
    requires waiting <= 256
    ensures !Hidden(waiting - 1)
  {
  }

  lemma GetRespKeepsWake(s: State, p: EventNode, arr: Field<seq<RespItem>>)
    requires Inv(s) && WakeOk(s) && Waiting(s) <= 256 && IsIot(s, p)
    ensures WakeOk(OnGetResp(s, p, arr))
  {
    var d := IotOf(s, p);
    GuardIsDefined(s, p, GetRequest);
    hide Inv, Translate, Release;
    if ResponseGuard(s, d, GetRequest).None? && Translate(arr).Some? && d.requests != [] && d.requests[0].data.Some? {
      var to := d.requests[0].data.value;
      ReleaseKeepsWake(s, p,
        [Publication(ToClient(to.sender), to.broker, GetResponse(d.clientId, d.name, Translate(arr).value))]);
    }
  }

  lemma SetRespKeepsWake(s: State, p: EventNode, arr: Field<seq<RespItem>>)
    requires Inv(s) && WakeOk(s) && Waiting(s) <= 256 && IsIot(s, p)
    ensures WakeOk(OnSetResp(s, p, arr))
  {
    var d := IotOf(s, p);
    GuardIsDefined(s, p, SetRequest);
    hide Inv, Translate, Release;
    if ResponseGuard(s, d, SetRequest).None? && Translate(arr).Some? && d.requests != [] {
      ReleaseKeepsWake(s, p, BroadcastBoth(SetResponse(d.clientId, d.name, Translate(arr).value)));
    }
  }

  lemma MessageKeepsWake(s: State, p: EventNode, m: IotMsg)
    requires Inv(s) && WakeOk(s) && Waiting(s) <= 256 && IsIot(s, p)
    ensures WakeOk(OnMessage(s, p, m))
  {
    if m.Object? {
      HelloKeepsWake(s, p);
      GetRespKeepsWake(s, p, m.reqArray);
      SetRespKeepsWake(s, p, m.reqArray);
      CapsKeepsWake(s, p, m.name, m.caps);
      hide Inv, OnHello, OnCaps, OnGetResp, OnSetResp, ParseMsgType;
    }
  }

  lemma CapsKeepsWake(s: State, p: EventNode, name: Field<string>, caps: Field<seq<CapItem>>)
    requires Inv(s) && WakeOk(s) && IsIot(s, p)
    ensures WakeOk(OnCaps(s, p, name, caps))
  {
    hide Inv, OnCaps, Total;
    InvAt(s, p);
    CapsKeepsInv(s, p, name, caps);
    CapsEffect(s, p, name, caps);
  }

  lemma ClosedKeepsWake(s: State, p: EventNode)
    requires WakeOk(s) && IsIot(s, p) && Paired(s.nodes)
    ensures WakeOk(OnClosed(s, p))
  {
    assert PairedAt(s.nodes, p);
    TotalUnchanged(s.order, s.nodes, OnClosed(s, p).nodes);
  }

  lemma TimerKeepsWake(s: State, t: EventNode)
    requires Inv(s) && WakeOk(s) && IsTimer(s, t) && s.nodes[t].data.owner.Some?
    ensures WakeOk(OnTimer(s, t))
  {
    TimerPointerIsLive(s, t);
    var p := s.nodes[t].data.owner.value;
    if IotOf(s, p).helloCount == 0 {
      TotalUnchanged(s.order, s.nodes, OnTimer(s, t).nodes);
    } else {
      EnqueueKeepsWake(s, p, HelloOf());
      TotalUnchanged(s.order, Enqueue(s, p, HelloOf()).nodes, OnTimer(s, t).nodes);
    }
  }

  lemma AcceptKeepsWake(s: State, i: Input)
    requires Listed(s) && WakeOk(s) && i.Accepted? && Fits(s, Visit(i))
    ensures WakeOk(OnAccept(s, i.node, i.timer, i.fd, i.timerFd, i.junk))
  {
    AddEventListed(s, i.node, i.fd, Iot(NewIot(i.fd, i.junk).(timer := Some(i.timer))));
    AddEventListed(AddEvent(s, i.node, i.fd, Iot(NewIot(i.fd, i.junk).(timer := Some(i.timer)))), i.timer, i.timerFd,
      Timer(Some(i.node)));
  }

  lemma {:induction false} GcKeepsWake(s: State, ps: seq<EventNode>)
    requires Core(s) && s.todo == [] && WakeOk(s) && Waiting(s) <= 256
    ensures WakeOk(Gc(s, ps))
    decreases |ps|
  {
    if ps != [] {
      var p := ps[0];
      if p in s.nodes && s.nodes[p].marked {
        DelEventKeepsCore(s, p);
        DrainKeepsWakeIff(s.count, s.armed, QueueLength(s.nodes[p].data), Waiting(s));
        hide Core, DelEvent;
        assert WakeOk(DelEvent(s, p)) by { DelEventKeepsWake(s, p); }
        GcKeepsWake(DelEvent(s, p), ps[1..]);
      } else {
        GcKeepsWake(s, ps[1..]);
      }
    }
  }

  lemma DelEventKeepsWake(s: State, p: EventNode)
    requires Core(s) && p in s.nodes && p !in s.todo && WakeOk(s) && Waiting(s) <= 256
    ensures WakeOk(DelEvent(s, p)) && DelEvent(s, p).todo == s.todo
  {
    DelEventKeepsCore(s, p);
    DrainKeepsWakeIff(s.count, s.armed, QueueLength(s.nodes[p].data), Waiting(s));
  }

  lemma VisitKeepsWake(s: State, p: EventNode, i: Input)
    requires Inv(s) && WakeOk(s) && Waiting(s) <= 256 && p in s.nodes && Fits(s, Visit(i))
    requires IsTimer(s, p) ==> s.nodes[p].data.owner.Some?
    ensures WakeOk(OnVisit(s, p, i))
  {
    assert Listed(s) && Paired(s.nodes);
    hide Inv, WakeOk, Waiting, Listed, Paired, OnMessage, OnClosed, OnTimer, OnAccept, DispatchFrom, Scan;
    match s.nodes[p].data
    case Iot(_) =>
      MessageKeepsWakeAny(s, p, i);
      ClosedKeepsWake(s, p);
    case Timer(_) => TimerKeepsWake(s, p);
    case Plain(t) =>
      if i.ScanExpired? {
        ScanKeepsWake(s, 0, i.clock);
      } else if i.Accepted? {
        AcceptKeepsWake(s, i);
      } else if i.WorkSignal? {
        DispatchKeepsWake(s, 0, false, false);
      }
  }

  lemma StepKeepsWake(s: State, e: Label)
    requires Inv(s) && WakeOk(s) && Waiting(s) <= 256 && Fits(s, e)
    ensures WakeOk(Step(s, e))
  {
    if s.status == Running {
      if e.LoopTop? && s.todo == [] {
        GcKeepsWake(s, s.order);
      } else if e.Visit? && s.todo != [] {
        AdvanceKeepsInv(s);
        hide OnVisit;
        VisitKeepsWake(s.(todo := s.todo[1..]), s.todo[0], e.input);
      }
    }
  }

  lemma MessageKeepsWakeAny(s: State, p: EventNode, i: Input)
    requires Inv(s) && WakeOk(s) && Waiting(s) <= 256 && IsIot(s, p)
    ensures i.NodeMessage? ==> WakeOk(OnMessage(s, p, i.msg))
  {
    if i.NodeMessage? {
      MessageKeepsWake(s, p, i.msg);
    }
  }

  /** At most n requests wait before every step of the run. */
  ghost predicate WaitingWithin(s: State, es: seq<Label>, n: nat)
    decreases |es|
  {
    es != [] ==> Waiting(s) <= n && WaitingWithin(Step(s, es[0]), es[1..], n)
  }

  lemma {:induction false} RunKeepsWake(s: State, es: seq<Label>)
    requires Inv(s) && WakeOk(s) && AllFit(s, es) && WaitingWithin(s, es, 256)
    ensures WakeOk(Run(s, es))
    decreases |es|
  {
    hide Inv, WakeOk, Step;
    if es != [] {
      StepKeepsInv(s, es[0]);
      StepKeepsWake(s, es[0]);
      RunKeepsWake(Step(s, es[0]), es[1..]);
    }
  }

  /** While no more than 256 requests wait, the scan timer is armed exactly when some request waits. */
  lemma TimerLawOnRuns(b: Startup, es: seq<Label>)
    requires GoodStart(b) && AllFit(Boot(b), es) && WaitingWithin(Boot(b), es, 256)
    ensures Run(Boot(b), es).armed <==> Waiting(Run(Boot(b), es)) > 0
  {
    BootInv(b);
    assert WakeOk(Boot(b)) by {
      AllEmptyIsZero(Boot(b).order, Boot(b).nodes);
    }
    RunKeepsWake(Boot(b), es);
    hide Run, AllFit, WaitingWithin;
    ReachedInv(b, es);
  }
}

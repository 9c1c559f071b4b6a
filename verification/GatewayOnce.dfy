/** Each request is written exactly once, in order, before it is completed: in either build, exactly as long as no step
    writes a head again or completes a head that was never written. */
module GatewayOnce {
  import opened GatewayTypes
  import opened GatewaySpec
  import opened GatewayInvariant
  import opened GatewayScan
  import opened GatewayRuns
  import opened GatewayFree
  import opened GatewayHello
  import opened GatewayNodes

  /** A scan writes a head that is out already. */
  ghost predicate WritesAgain(s: State, e: Label, p: EventNode) {
    Scans(s, e) && p in s.nodes && Stuck(s.nodes[p])
  }

  /** A message of the node completes a head that was never written. */
  ghost predicate CompletesUnwritten(s: State, e: Label, p: EventNode) {
    && Speaks(s, e, p) && IsIot(s, p) && IsIot(Step(s, e), p)
    && |IotOf(Step(s, e), p).requests| < |IotOf(s, p).requests| && !HeadSent(IotOf(s, p))
  }

  ghost predicate BreaksRecord(s: State, e: Label, p: EventNode) {
    WritesAgain(s, e, p) || CompletesUnwritten(s, e, p)
  }

  ghost predicate NeverBreaks(s: State, es: seq<Label>, p: EventNode)
    decreases |es|
  {
    es != [] ==> !BreaksRecord(s, es[0], p) && NeverBreaks(Step(s, es[0]), es[1..], p)
  }

  // ----- one step

  lemma WiresSnoc(bs: seq<Body>, b: Body)
    ensures Wires(bs + [b]) == Wires(bs) + [WireOf(b)] && |Wires(bs)| == |bs|
  {
  }

  lemma RecordAfterScan(d: IotData, now: Timespec)
    requires QueueOk(d) && WrittenOk(d)
    ensures WrittenOk(ScanNode(d, now)) <==> !(d.workState == Free && HeadSent(d))
  {
    if d.requests != [] {
      WiresSnoc(d.hist.completed, BodyOf(d.requests[0]));
      if |d.requests| > 1 {
        assert d.requests[1..][0].status == RequestPending;
      }
    }
    assert d.hist.completed + [] == d.hist.completed;
    hide Wires;
  }

  lemma RecordAfterAnswer(d: IotData, d': IotData)
    requires QueueOk(d) && WrittenOk(d) && Answered(d, d')
    ensures WrittenOk(d') <==> HeadSent(d)
  {
    WiresSnoc(d.hist.completed, BodyOf(d.requests[0]));
    if |d.requests| > 1 {
      assert d.requests[1..][0].status == RequestPending;
    }
    assert d.hist.completed + [] == d.hist.completed && d'.hist.completed + [] == d'.hist.completed;
    hide Wires;
  }

  lemma RecordAfterRest(d: IotData, d': IotData, work: seq<Request>)
    requires WrittenOk(d) && (LetBe(d, d') || Grows(d, d', work))
    ensures WrittenOk(d')
  {
    hide Wires;
  }

  /** A step that does not end the process keeps the record of a node right exactly if it neither writes its head again
      nor completes a head that was never written. */
  lemma StepKeepsRecordIff(s: State, e: Label, p: EventNode)
    requires Inv(s) && s.status == Running && Fits(s, e) && Step(s, e).status == Running
    requires IsIot(s, p) && IsIot(Step(s, e), p) && WrittenOk(IotOf(s, p))
    ensures WrittenOk(IotOf(Step(s, e), p)) <==> !BreaksRecord(s, e, p)
  {
    StepOfNode(s, e, p);
    InvAt(s, p);
    ScansAreNotWords(s, e, p);
    hide Inv, Step, WrittenOk, Grows, LetBe, ScanNode, Scans, Speaks, HeadSent, FifoOk, HelloOk;
    if Scans(s, e) {
      var j :| 0 <= j < |s.order| && s.order[j] == p
        && Step(s, e).nodes[p] == ScanData(s.nodes[p], e.input.clock(j).time);
      RecordAfterScan(IotOf(s, p), e.input.clock(j).time);
    } else if Speaks(s, e, p) && Answered(IotOf(s, p), IotOf(Step(s, e), p)) {
      RecordAfterAnswer(IotOf(s, p), IotOf(Step(s, e), p));
    } else {
      RecordAfterRest(IotOf(s, p), IotOf(Step(s, e), p), s.work);
      if Speaks(s, e, p) {
        LetBeKeepsLength(IotOf(s, p), IotOf(Step(s, e), p));
      }
    }
  }

  lemma LetBeKeepsLength(d: IotData, d': IotData)
    ensures LetBe(d, d') ==> |d'.requests| == |d.requests|
  {
  }

  lemma ScansAreNotWords(s: State, e: Label, p: EventNode)
    ensures !(Scans(s, e) && Speaks(s, e, p))
  {
  }

  lemma NewRecord(n: NodeData)
    requires IsNew(n)
    ensures WrittenOk(n.data.iot)
  {
  }

  // ----- runs

  /** Over every run in which no step breaks the record of p, whenever p connects and whatever the build. */
  lemma {:induction false} RunKeepsRecord(s: State, es: seq<Label>, p: EventNode)
    requires Inv(s) && AllFit(s, es) && s.status == Running && Run(s, es).status == Running && NeverBreaks(s, es, p)
    requires IsIot(s, p) ==> WrittenOk(IotOf(s, p))
    ensures IsIot(Run(s, es), p) ==> WrittenOk(IotOf(Run(s, es), p))
    decreases |es|
  {
    hide Inv, Step, Fits, WrittenOk, BreaksRecord, Grows, Answered, LetBe, Scanned, Scans, Speaks, IsNew;
    if es != [] {
      var s1 := Step(s, es[0]);
      if s1.status != Running {
        EndedStays(s1, es[1..]);
      }
      StepKeepsInv(s, es[0]);
      StepOfNode(s, es[0], p);
      if IsIot(s, p) && IsIot(s1, p) {
        StepKeepsRecordIff(s, es[0], p);
      } else if IsIot(s1, p) {
        NewRecord(s1.nodes[p]);
      }
      RunKeepsRecord(s1, es[1..], p);
    }
  }

  /** First in, first out, and exactly once, in either build. */
  lemma ExactlyOnceOnRuns(b: Startup, es: seq<Label>, p: EventNode)
    requires GoodStart(b) && AllFit(Boot(b), es) && Run(Boot(b), es).status == Running && IsIot(Run(Boot(b), es), p)
    requires NeverBreaks(Boot(b), es, p)
    ensures var d := IotOf(Run(Boot(b), es), p);
      d.hist.enqueued == d.hist.completed + Bodies(d.requests) && ExactlyOnce(d)
  {
    BootInv(b);
    assert !IsIot(Boot(b), p) && Boot(b).status == Running;
    hide Inv, Run, AllFit, Boot, NeverBreaks, WrittenOk, ExactlyOnce;
    RunKeepsRecord(Boot(b), es, p);
    FifoOnRuns(b, es, p);
    WrittenExactlyOnce(IotOf(Run(Boot(b), es), p));
  }

  // ----- a condition on what nodes say

  /** No step of the run brings a message that the asserts do not expect. */
  ghost predicate OnlyExpected(s: State, es: seq<Label>)
    decreases |es|
  {
    es != [] ==> !Tells(s, es[0], Unexpected) && OnlyExpected(Step(s, es[0]), es[1..])
  }

  lemma ExpectedAnswersAreSent(s: State, p: EventNode, m: IotMsg)
    requires Inv(s) && s.status == Running && IsIot(s, p) && OnMessage(s, p, m).status == Running
    requires !Unexpected(IotOf(s, p), m)
    ensures IsIot(OnMessage(s, p, m), p)
    ensures |IotOf(OnMessage(s, p, m), p).requests| < |IotOf(s, p).requests| ==> HeadSent(IotOf(s, p))
  {
    hide Inv, OnMessage, OnHello, OnGetResp, OnSetResp, OnCaps, OnNotif;
    assert IotOf(s, p).capsNum == |IotOf(s, p).caps| % 256 by { InvAt(s, p); }
    QueueAt(s, p);
    MessageIsLocal(s, p, m);
    CapsEffectOf(s, p, m);
    NotifKeepsQueue(s, p, m);
    HandlerByNumber(s, p, m);
  }

  lemma CapsEffectOf(s: State, p: EventNode, m: IotMsg)
    requires IsIot(s, p) && IotOf(s, p).capsNum == |IotOf(s, p).caps| % 256
    ensures m.Object? ==> IsIot(OnCaps(s, p, m.name, m.caps), p)
    ensures m.Object? ==> IotOf(OnCaps(s, p, m.name, m.caps), p).requests == IotOf(s, p).requests
  {
    if m.Object? {
      CapsEffect(s, p, m.name, m.caps);
    }
  }

  lemma NotifKeepsQueue(s: State, p: EventNode, m: IotMsg)
    requires IsIot(s, p)
    ensures m.Object? ==> IsIot(OnNotif(s, p, m.reqArray), p)
    ensures m.Object? ==> IotOf(OnNotif(s, p, m.reqArray), p).requests == IotOf(s, p).requests
  {
  }

  lemma ExpectedStepKeepsRecord(s: State, e: Label, p: EventNode)
    requires Inv(s) && FreeOk(s) && s.status == Running && Fits(s, e) && Step(s, e).status == Running
    requires Alive(s, p) && !Tells(s, e, Unexpected)
    ensures !BreaksRecord(s, e, p)
  {
    assert FreeMeansPending(s.nodes[p].marked, IotOf(s, p));
    if Speaks(s, e, p) {
      AdvanceKeepsInv(s);
      var s1 := s.(todo := s.todo[1..]);
      hide Inv, FreeOk, Unexpected, OnMessage, OnClosed, HeadSent, LetBe;
      if e.input.NodeMessage? {
        ExpectedAnswersAreSent(s1, p, e.input.msg);
      } else {
        CloseOnNodes(s1, p, p);
        LetBeKeepsLength(IotOf(s, p), IotOf(OnClosed(s1, p), p));
      }
      ScansAreNotWords(s, e, p);
    }
  }

  /** When CAPS comes only from nodes that are not busy, and every answer is one the asserts expect, the record of every
      node that is not about to be removed stays right, in either build. */
  lemma {:induction false} ExpectedRunKeepsRecord(s: State, es: seq<Label>, p: EventNode)
    requires Inv(s) && FreeOk(s) && AllFit(s, es) && s.status == Running && Run(s, es).status == Running
    requires CapsOnlyWhenFree(s, es) && OnlyExpected(s, es)
    requires Alive(s, p) ==> WrittenOk(IotOf(s, p))
    ensures Alive(Run(s, es), p) ==> WrittenOk(IotOf(Run(s, es), p))
    decreases |es|
  {
    hide Inv, FreeOk, Step, Fits, WrittenOk, BreaksRecord, Grows, Answered, LetBe, Scanned, Scans, Speaks, IsNew,
      Unexpected;
    if es != [] {
      var s1 := Step(s, es[0]);
      if s1.status != Running {
        EndedStays(s1, es[1..]);
      }
      StepKeepsInv(s, es[0]);
      StepKeepsFreeOk(s, es[0]);
      StepOfNode(s, es[0], p);
      if Alive(s1, p) {
        if IsIot(s, p) {
          ExpectedStepKeepsRecord(s, es[0], p);
          StepKeepsRecordIff(s, es[0], p);
        } else {
          NewRecord(s1.nodes[p]);
        }
      }
      ExpectedRunKeepsRecord(s1, es[1..], p);
    }
  }

  /** The same from start-up: a condition on what nodes say that gives exactly once in either build. */
  lemma ExactlyOnceWhenExpected(b: Startup, es: seq<Label>, p: EventNode)
    requires GoodStart(b) && AllFit(Boot(b), es) && Run(Boot(b), es).status == Running && Alive(Run(Boot(b), es), p)
    requires CapsOnlyWhenFree(Boot(b), es) && OnlyExpected(Boot(b), es)
    ensures var d := IotOf(Run(Boot(b), es), p);
      d.hist.enqueued == d.hist.completed + Bodies(d.requests) && ExactlyOnce(d)
  {
    BootInv(b);
    assert FreeOk(Boot(b)) && !IsIot(Boot(b), p) && Boot(b).status == Running;
    hide Inv, FreeOk, Run, AllFit, Boot, CapsOnlyWhenFree, OnlyExpected, WrittenOk, ExactlyOnce;
    ExpectedRunKeepsRecord(Boot(b), es, p);
    FifoOnRuns(b, es, p);
    WrittenExactlyOnce(IotOf(Run(Boot(b), es), p));
  }

  // ----- the input that breaks it

  /** Without asserts, after a CAPS message from a busy node the next scan writes the head a second time. */
  lemma CapsMakesScanWriteAgain(s: State, p: EventNode, name: Field<string>, caps: Field<seq<CapItem>>, clock: Clock)
    requires Inv(s) && s.status == Running && IsIot(s, p) && IotOf(s, p).workState == Busy
    requires Scan(OnCaps(s, p, name, caps), 0, clock).status == Running
    ensures var s2, d := Scan(OnCaps(s, p, name, caps), 0, clock), IotOf(s, p);
      && IsIot(s2, p) && d.requests != []
      && IotOf(s2, p).hist.written == d.hist.written + [WireOf(BodyOf(d.requests[0]))]
      && IotOf(s2, p).hist.completed == d.hist.completed
      && (WrittenOk(d) ==> !WrittenOk(IotOf(s2, p)))
  {
    InvAt(s, p);
    QueueAt(s, p);
    CapsEffect(s, p, name, caps);
    CapsKeepsInv(s, p, name, caps);
    var s1 := OnCaps(s, p, name, caps);
    InvAt(s1, p);
    hide Inv, OnCaps, Scan, NodeOk, WrittenOk, SendHead;
    ScanOnNodes(s1, clock, p);
    var s2 := Scan(s1, 0, clock);
    var j :| 0 <= j < |s1.order| && s1.order[j] == p && s2.nodes[p] == ScanData(s1.nodes[p], clock(j).time);
    SentAgain(IotOf(s1, p), clock(j).time);
    SameRecord(IotOf(s, p), IotOf(s1, p));
  }

  lemma SentAgain(d: IotData, now: Timespec)
    requires d.workState == Free && HeadSent(d)
    ensures var d' := ScanNode(d, now);
      && d'.hist.written == d.hist.written + [WireOf(BodyOf(d.requests[0]))] && d'.hist.completed == d.hist.completed
      && (QueueOk(d) && WrittenOk(d) ==> !WrittenOk(d'))
  {
    if QueueOk(d) && WrittenOk(d) {
      RecordAfterScan(d, now);
    }
  }

  lemma SameRecord(d: IotData, d': IotData)
    requires d'.requests == d.requests && d'.hist == d.hist
    ensures WrittenOk(d') <==> WrittenOk(d)
  {
  }
}

/** In a LOG_ENABLE process a node that was freed with its head out stays so until it is collected, and the first scan
    before that ends the process. */
module GatewayStuck {
  import opened GatewayTypes
  import opened GatewaySpec
  import opened GatewayInvariant
  import opened GatewayScan
  import opened GatewayRuns
  import opened GatewayProgress
  import opened GatewayNodes
  import opened GatewayBalance
  import opened GatewayOnce

  /** The asserts let no message take the head of a free node. */
  lemma FreeNodeKeepsQueue(s: State, p: EventNode, m: IotMsg)
    requires Inv(s) && s.status == Running && IsIot(s, p) && OnMessage(s, p, m).status == Running
    requires IotOf(s, p).workState == Free && !Unexpected(IotOf(s, p), m)
    ensures IsIot(OnMessage(s, p, m), p) && |IotOf(OnMessage(s, p, m), p).requests| == |IotOf(s, p).requests|
  {
    hide Inv, OnHello, OnCaps, OnGetResp, OnSetResp, OnNotif;
    assert IotOf(s, p).capsNum == |IotOf(s, p).caps| % 256 by { InvAt(s, p); }
    CapsEffectOf(s, p, m);
    NotifKeepsQueue(s, p, m);
  }

  lemma GrowthKeepsStuck(n: NodeData, n': NodeData, work: seq<Request>)
    requires Stuck(n) && n'.data.Iot? && (Grows(n.data.iot, n'.data.iot, work)
      || (LetBe(n.data.iot, n'.data.iot) && |n'.data.iot.requests| == |n.data.iot.requests|))
    ensures Stuck(n')
  {
  }

  /** One step of a process that it does not end. */
  lemma StuckStays(s: State, e: Label, p: EventNode)
    requires Inv(s) && s.status == Running && s.build.asserts && Fits(s, e) && Step(s, e).status == Running
    requires IsIot(s, p) && IsIot(Step(s, e), p) && Stuck(s.nodes[p])
    ensures Stuck(Step(s, e).nodes[p]) && !Scans(s, e)
  {
    hide Inv, Step, Fits, Grows, LetBe, Answered, Scanned;
    StepOfNode(s, e, p);
    if Scans(s, e) {
      StuckIsNotScanned(s, e, p);
    } else if Speaks(s, e, p) {
      StuckIsNotAnswered(s, e, p);
      AnswersAreShorter(IotOf(s, p), IotOf(Step(s, e), p));
    }
    GrowthKeepsStuck(s.nodes[p], Step(s, e).nodes[p], s.work);
  }

  lemma StuckIsNotScanned(s: State, e: Label, p: EventNode)
    requires Inv(s) && s.build.asserts && Scans(s, e) && IsIot(s, p) && Stuck(s.nodes[p])
    ensures Step(s, e).status != Running
  {
    AdvancedInv(s);
    hide Inv, Stuck;
    StuckNodeEndsScan(s.(todo := s.todo[1..]), e.input.clock, p);
    ScanStep(s, e);
  }

  lemma StuckIsNotAnswered(s: State, e: Label, p: EventNode)
    requires Inv(s) && s.build.asserts && Step(s, e).status == Running
    requires Speaks(s, e, p) && IsIot(s, p) && IsIot(Step(s, e), p) && Stuck(s.nodes[p])
    ensures |IotOf(Step(s, e), p).requests| == |IotOf(s, p).requests|
  {
    hide Inv, OnMessage, OnClosed, LetBe, Unexpected;
    AdvancedInv(s);
    var s1 := s.(todo := s.todo[1..]);
    if e.input.NodeMessage? {
      MessageOutcome(s1, p, e.input.msg);
      FreeNodeKeepsQueue(s1, p, e.input.msg);
    } else {
      CloseOnNodes(s1, p, p);
      AnswersAreShorter(IotOf(s, p), IotOf(Step(s, e), p));
    }
  }

  lemma AnswersAreShorter(d: IotData, d': IotData)
    ensures Answered(d, d') ==> |d'.requests| < |d.requests|
    ensures LetBe(d, d') ==> |d'.requests| == |d.requests|
  {
  }

  lemma AdvancedInv(s: State)
    requires Inv(s)
    ensures Inv(s.(todo := if s.todo == [] then [] else s.todo[1..]))
  {
    if s.todo != [] {
      AdvanceKeepsInv(s);
    }
    assert s.(todo := s.todo) == s;
  }

  /** A stuck node of a LOG_ENABLE process, as long as it is listed: it is still stuck and no scan has been taken, or
      the process has ended. */
  lemma {:induction false} StuckNodeEndsProcess(s: State, es: seq<Label>, p: EventNode)
    requires Inv(s) && AllFit(s, es) && s.status == Running && s.build.asserts
    requires Outlasts(s, es, p) && Stuck(s.nodes[p])
    ensures Run(s, es).status == Running ==> IsIot(Run(s, es), p) && Stuck(Run(s, es).nodes[p]) && Clocks(s, es) == []
    decreases |es|
  {
    hide Inv, Step, Fits, Stuck, Scans;
    if es != [] {
      var s1 := Step(s, es[0]);
      assert Outlasts(s1, es[1..], p);
      if s1.status == Running {
        StepKeepsInv(s, es[0]);
        StepKeepsBuild(s, es[0]);
        StuckStays(s, es[0], p);
        StuckNodeEndsProcess(s1, es[1..], p);
        ClocksUnfold(s, es);
      } else {
        EndedStays(s1, es[1..]);
      }
    }
  }

  /** After a CAPS message from a busy node, or the end of its connection, any scan before the node is collected ends a
      LOG_ENABLE process, whatever lies between. */
  lemma FreedWhileBusyEndsProcess(s: State, p: EventNode, m: IotMsg, closed: bool, es: seq<Label>)
    requires Inv(s) && s.status == Running && s.build.asserts && IsIot(s, p) && IotOf(s, p).workState == Busy
    requires closed || Numbered(m, 1)
    requires var s1 := if closed then OnClosed(s, p) else OnMessage(s, p, m);
      s1.status == Running && AllFit(s1, es) && Outlasts(s1, es, p) && Clocks(s1, es) != []
    ensures Run(if closed then OnClosed(s, p) else OnMessage(s, p, m), es).status != Running
  {
    var s1 := if closed then OnClosed(s, p) else OnMessage(s, p, m);
    QueueAt(s, p);
    InvAt(s, p);
    assert Inv(s1) && s1.build == s.build && IsIot(s1, p) && Stuck(s1.nodes[p]) by {
      if closed {
        CloseWhileBusyHalts(s, p, _ => Reading(Timespec(0, 0), false));
        ClosedKeepsInv(s, p);
        CloseKeepsBuild(s, p);
      } else {
        CapsWhileBusyHalts(s, p, m.name, m.caps, _ => Reading(Timespec(0, 0), false));
        CapsKeepsInv(s, p, m.name, m.caps);
        MessageKeepsRest(s, p, m);
        CapsEffectOf(s, p, m);
      }
      hide Inv, OnClosed, OnCaps, Scan;
    }
    hide Inv, Run, OnClosed, OnMessage, Stuck, AllFit, Outlasts, Clocks;
    StuckNodeEndsProcess(s1, es, p);
  }

  lemma CloseKeepsBuild(s: State, p: EventNode)
    requires Inv(s) && IsIot(s, p)
    ensures OnClosed(s, p).build == s.build && IsIot(OnClosed(s, p), p)
  {
    CloseOnNodes(s, p, p);
  }
}

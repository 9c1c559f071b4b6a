/** Progress over every run: the exact account of what a node has still to do, with accepts, dispatches, timers, other
    nodes and collection all allowed; and how a gateway all of whose nodes have fallen silent comes to rest. */
module GatewayBalance {
  import opened GatewayTypes
  import opened GatewaySpec
  import opened GatewayInvariant
  import opened GatewayScan
  import opened GatewayProgress
  import opened GatewayHello
  import opened GatewayNodes

  /** The node is listed at every state of the run. */
  ghost predicate Outlasts(s: State, es: seq<Label>, p: EventNode)
    decreases |es|
  {
    IsIot(s, p) && (es != [] ==> Outlasts(Step(s, es[0]), es[1..], p))
  }

  /** A scan that moves the node: it has something to do, and its head, if out, is at least 20 seconds old. */
  ghost predicate Moves(s: State, e: Label, p: EventNode) {
    && Scans(s, e) && p in s.nodes && MeasureOf(s.nodes[p]) > 0
    && exists j :: 0 <= j < |s.order| && s.order[j] == p && !Held(s.nodes[p], e.input.clock(j).time)
  }

  /** How many turns nearer to empty a word of the node brings it: an answer to the head counts one when the head is
      out and two when the node is free, and a word that frees the node without answering takes one turn back. */
  ghost function WordTurns(s: State, e: Label, p: EventNode): int {
    if !Speaks(s, e, p) || !IsIot(s, p) || !IsIot(Step(s, e), p) then 0
    else
      var d, d' := IotOf(s, p), IotOf(Step(s, e), p);
      if |d'.requests| < |d.requests| then (if d.workState.Busy? then 1 else 2)
      else if d.workState.Busy? && d'.workState.Free? then -1
      else 0
  }

  ghost function ScanMoves(s: State, es: seq<Label>, p: EventNode): nat
    decreases |es|
  {
    if es == [] then 0 else (if Moves(s, es[0], p) then 1 else 0) + ScanMoves(Step(s, es[0]), es[1..], p)
  }

  ghost function WordMoves(s: State, es: seq<Label>, p: EventNode): int
    decreases |es|
  {
    if es == [] then 0 else WordTurns(s, es[0], p) + WordMoves(Step(s, es[0]), es[1..], p)
  }

  lemma ScanBalance(s: State, e: Label, p: EventNode)
    requires Inv(s) && Scans(s, e) && IsIot(s, p) && IsIot(Step(s, e), p) && Scanned(s, Step(s, e), e.input.clock, p)
    ensures MeasureOf(Step(s, e).nodes[p]) == MeasureOf(s.nodes[p]) - if Moves(s, e, p) then 1 else 0
    ensures |IotOf(Step(s, e), p).hist.enqueued| == |IotOf(s, p).hist.enqueued|
  {
    hide Inv, Step, MeasureOf, NodeOk;
    AllListed(s);
    NodeIsOk(s, p);
    var clock, s' := e.input.clock, Step(s, e);
    var j :| 0 <= j < |s.order| && s.order[j] == p && s'.nodes[p] == ScanData(s.nodes[p], clock(j).time);
    NodeProgress(s.build.asserts, s.nodes[p], clock(j).time);
    hide Held, ScanData;
    assert Moves(s, e, p) <==> MeasureOf(s.nodes[p]) > 0 && !Held(s.nodes[p], clock(j).time);
    ScanEnqueuesNothing(s.nodes[p], clock(j).time);
  }

  lemma ScanEnqueuesNothing(n: NodeData, now: Timespec)
    requires n.data.Iot?
    ensures ScanData(n, now).data.Iot? && ScanData(n, now).data.iot.hist.enqueued == n.data.iot.hist.enqueued
  {
  }

  lemma WordBalance(d: IotData, d': IotData)
    requires Answered(d, d') || LetBe(d, d')
    ensures |d'.hist.enqueued| == |d.hist.enqueued|
    ensures Measure(d') == Measure(d) - (
      if |d'.requests| < |d.requests| then (if d.workState.Busy? then 1 else 2)
      else if d.workState.Busy? && d'.workState.Free? then -1
      else 0)
  {
  }

  lemma GrowthBalance(d: IotData, d': IotData, work: seq<Request>)
    requires Grows(d, d', work)
    ensures Measure(d') == Measure(d) + 2 * (|d'.hist.enqueued| - |d.hist.enqueued|)
  {
    var rs :| GrowsBy(d, d', rs);
    assert |Bodies(rs)| == |rs|;
  }

  /** The account of one step. */
  lemma StepBalance(s: State, e: Label, p: EventNode)
    requires Inv(s) && s.status == Running && Fits(s, e) && Step(s, e).status == Running
    requires IsIot(s, p) && IsIot(Step(s, e), p)
    ensures Measure(IotOf(Step(s, e), p)) == Measure(IotOf(s, p))
      + 2 * (|IotOf(Step(s, e), p).hist.enqueued| - |IotOf(s, p).hist.enqueued|)
      - (if Moves(s, e, p) then 1 else 0) - WordTurns(s, e, p)
  {
    hide Inv, Step, Measure, Grows, Answered, LetBe, Scanned, Scans, Speaks;
    StepOfNode(s, e, p);
    ScanIsNoWord(s, e, p);
    if Scans(s, e) {
      ScanBalance(s, e, p);
    } else if Speaks(s, e, p) {
      WordBalance(IotOf(s, p), IotOf(Step(s, e), p));
    } else {
      GrowthBalance(IotOf(s, p), IotOf(Step(s, e), p), s.work);
    }
  }

  lemma ScanIsNoWord(s: State, e: Label, p: EventNode)
    ensures !(Scans(s, e) && Speaks(s, e, p))
  {
  }

  /** Over every run that a node outlasts: what it has to do at the end is what it had to do, and two turns for each
      request that was put into its queue, less the scans that moved it, less what its own words did. */
  lemma {:induction false} BalanceOnRuns(s: State, es: seq<Label>, p: EventNode)
    requires Inv(s) && AllFit(s, es) && s.status == Running && Run(s, es).status == Running && Outlasts(s, es, p)
    ensures IsIot(Run(s, es), p)
    ensures Measure(IotOf(Run(s, es), p)) == Measure(IotOf(s, p))
      + 2 * (|IotOf(Run(s, es), p).hist.enqueued| - |IotOf(s, p).hist.enqueued|)
      - ScanMoves(s, es, p) - WordMoves(s, es, p)
    decreases |es|
  {
    hide Inv, Step, Fits, Moves, WordTurns, Measure;
    if es != [] {
      if Step(s, es[0]).status != Running {
        EndedStays(Step(s, es[0]), es[1..]);
      }
      StepKeepsInv(s, es[0]);
      StepBalance(s, es[0], p);
      BalanceOnRuns(Step(s, es[0]), es[1..], p);
    }
  }

  /** The node says nothing along the run, and keeps its connection. */
  ghost predicate Mute(s: State, es: seq<Label>, p: EventNode)
    decreases |es|
  {
    es != [] ==> !Speaks(s, es[0], p) && Mute(Step(s, es[0]), es[1..], p)
  }

  lemma {:induction false} MuteHasNoWords(s: State, es: seq<Label>, p: EventNode)
    requires Mute(s, es, p)
    ensures WordMoves(s, es, p) == 0
    decreases |es|
  {
    hide Step, Speaks;
    if es != [] {
      MuteHasNoWords(Step(s, es[0]), es[1..], p);
    }
  }

  /** A node that says nothing is moved by scans alone: each takes exactly one of the turns that its requests need,
      two for every one that was waiting or has come in since, and its queue is empty exactly when none is left. */
  lemma MuteNodeBalance(s: State, es: seq<Label>, p: EventNode)
    requires Inv(s) && AllFit(s, es) && s.status == Running && Run(s, es).status == Running
    requires Outlasts(s, es, p) && Mute(s, es, p)
    ensures IsIot(Run(s, es), p)
    ensures var d, d' := IotOf(s, p), IotOf(Run(s, es), p);
      var owed := Measure(d) + 2 * (|d'.hist.enqueued| - |d.hist.enqueued|);
      && Measure(d') == owed - ScanMoves(s, es, p)
      && ScanMoves(s, es, p) <= owed
      && (d'.requests == [] <==> ScanMoves(s, es, p) == owed)
  {
    hide Inv, Run, Measure, AllFit;
    BalanceOnRuns(s, es, p);
    MuteHasNoWords(s, es, p);
    RunKeepsInv(s, es);
    MeasureIsSound(Run(s, es), p);
    MeasureIsMeasure(Run(s, es), p);
  }

  lemma MeasureIsMeasure(s: State, p: EventNode)
    requires IsIot(s, p)
    ensures MeasureOf(s.nodes[p]) == Measure(IotOf(s, p))
  {
  }

  // ----- when every node has fallen silent

  /** No connection is accepted. */
  ghost predicate NoAccepts(es: seq<Label>) {
    forall i :: 0 <= i < |es| ==> !(es[i].Visit? && es[i].input.Accepted?)
  }

  /** What is not alive does not come alive. */
  lemma {:induction false} DeadStaysDead(s: State, es: seq<Label>, p: EventNode)
    requires Inv(s) && AllFit(s, es) && s.status == Running && Run(s, es).status == Running && NoAccepts(es)
    requires !Alive(s, p) || !StaysAlive(s, es, p)
    ensures !Alive(Run(s, es), p)
    decreases |es|
  {
    hide Inv, Step, Fits, Grows, Answered, LetBe, Scanned, Scans, Speaks, IsNew;
    if es != [] {
      var s1 := Step(s, es[0]);
      if s1.status != Running {
        EndedStays(s1, es[1..]);
      }
      StepKeepsInv(s, es[0]);
      StepOfNode(s, es[0], p);
      assert forall i :: 0 <= i < |es[1..]| ==> es[1..][i] == es[i + 1];
      DeadStaysDead(s1, es[1..], p);
    }
  }

  /** Every node that is alive says neither HELLO nor goodbye, and its hello timer fires once more than the countdown
      allows; from three, that is four times. */
  ghost predicate AllFallSilent(s: State, es: seq<Label>) {
    forall p :: p in s.nodes && Alive(s, p) ==> Silent(s, es, p) && Firings(s, es, p) > IotOf(s, p).helloCount
  }

  /** A gateway all of whose nodes fall silent comes to rest: whatever else happens, if nobody connects, the
      collection after the last of the firings leaves no node, no request waiting, the counter at zero and the scan
      timer off. */
  lemma SilentGatewayRests(s: State, es: seq<Label>)
    requires Inv(s) && AllFit(s, es) && s.status == Running && NoAccepts(es) && AllFallSilent(s, es)
    requires Run(s, es).status == Running && Run(s, es).todo == []
    ensures var s' := Run(s, es + [LoopTop]);
      AllFit(s, es + [LoopTop]) && AllDone(s') && forall p :: !IsIot(s', p)
  {
    hide Inv, Run, AllFit, NoAccepts, OnLoopTop, Silent, StaysAlive, Firings;
    var s1 := Run(s, es);
    RunKeepsInv(s, es);
    ExtendRun(s, es, LoopTop);
    LoopTopKeepsInv(s1);
    LoopTopKeepsNodes(s1);
    var s' := Run(s, es + [LoopTop]);
    assert s' == OnLoopTop(s1);
    forall p
      ensures !IsIot(s', p)
    {
      if Alive(s, p) {
        SilentNodeCountdown(s, es, p);
      }
      DeadStaysDead(s, es, p);
    }
    EmptyIsDone(s');
  }
}

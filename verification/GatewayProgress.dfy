/** Progress by scans alone: the exact account of quiet runs, when they do not end the process, and the vocabulary of
    the times at which scans are taken. */
module GatewayProgress {
  import opened Common
  import opened GatewayTypes
  import opened GatewaySpec
  import opened GatewayInvariant
  import opened GatewayScan

  /** Turns still needed to empty the node: two for each waiting request, one less when the head is out. */
  function Measure(d: IotData): int {
    2 * |d.requests| - if d.workState.Busy? then 1 else 0
  }

  function MeasureOf(n: NodeData): int {
    if n.data.Iot? then Measure(n.data.iot) else 0
  }

  function Less(m: int, k: int): int {
    if m <= k then 0 else m - k
  }

  ghost predicate HeadOut(n: NodeData) {
    n.data.Iot? && n.data.iot.workState.Busy? && n.data.iot.requests != []
  }

  /** Busy with a head that was sent less than 20 seconds ago: the one case in which a scan passes the node over. */
  ghost predicate Held(n: NodeData, now: Timespec) {
    HeadOut(n) && !TimedOut(n.data.iot.requests[0].timestamp, now)
  }

  lemma NodeProgress(asserts: bool, n: NodeData, now: Timespec)
    requires n.data.Iot? ==> NodeOk(asserts, n.marked, n.data.iot)
    ensures var n' := ScanData(n, now);
      && MeasureOf(n) >= 0 && MeasureOf(n') == Less(MeasureOf(n), if Held(n, now) then 0 else 1)
      && n'.marked == n.marked && (n'.data.Iot? <==> n.data.Iot?)
      && (MeasureOf(n) == 0 || Held(n, now) ==> n' == n)
      && (n.data.Iot? ==> (n.data.iot.requests == [] <==> MeasureOf(n) == 0))
      && (HeadOut(n') ==> n'.data.iot.requests[0].timestamp == now || n' == n)
  {
  }

  /** One scan lowers the measure of every node that has requests by exactly one, unless it is busy with a head
      younger than 20 seconds. */
  lemma ScanMakesProgress(s: State, clock: Clock)
    requires Inv(s) && s.status == Running && Scan(s, 0, clock).status == Running
    ensures var s' := Scan(s, 0, clock);
      && Inv(s') && s'.order == s.order && s'.nodes.Keys == s.nodes.Keys
      && forall j :: 0 <= j < |s.order| ==> ScannedAt(s, s', clock, j)
  {
    hide *;
    AllListed(s);
    ScanKeepsInv(s, 0, clock);
    ScanIsPointwise(s, 0, clock);
    var s' := Scan(s, 0, clock);
    forall j | 0 <= j < |s.order|
      ensures ScannedAt(s, s', clock, j)
    {
      EntryProgress(s, s', clock, j);
    }
  }

  ghost predicate ScannedAt(s: State, s': State, clock: Clock, j: nat)
    requires j < |s.order|
  {
    && s.order[j] in s.nodes && s.order[j] in s'.nodes
    && s'.nodes[s.order[j]] == ScanData(s.nodes[s.order[j]], clock(j).time)
    && MeasureOf(s'.nodes[s.order[j]])
       == Less(MeasureOf(s.nodes[s.order[j]]), if Held(s.nodes[s.order[j]], clock(j).time) then 0 else 1)
  }

  lemma EntryProgress(s: State, s': State, clock: Clock, j: nat)
    requires Inv(s) && ScannedFrom(s, s', 0, clock) && j < |s.order|
    ensures ScannedAt(s, s', clock, j)
  {
    NodeIsOk(s, s.order[j]);
    NodeProgress(s.build.asserts, s.nodes[s.order[j]], clock(j).time);
    hide Inv, NodeOk, ScanData, MeasureOf, Held;
  }

  lemma NodeIsOk(s: State, p: EventNode)
    requires Inv(s) && p in s.nodes
    ensures s.nodes[p].data.Iot? ==> NodeOk(s.build.asserts, s.nodes[p].marked, s.nodes[p].data.iot)
  {
  }

  // ----- quiet runs

  ghost predicate QuietLabel(e: Label) {
    e.LoopTop? || (e.Visit? && (e.input.NotReady? || e.input.ScanExpired?))
  }

  /** Nothing but the scan timer is ever ready, and no request arrives. */
  ghost predicate Quiet(es: seq<Label>) {
    forall i :: 0 <= i < |es| ==> QuietLabel(es[i])
  }

  /** The step is a scan that does not pass the node over. */
  ghost predicate TakesTurn(s: State, e: Label, p: EventNode) {
    && Scans(s, e)
    && exists j :: 0 <= j < |s.order| && s.order[j] == p && p in s.nodes && !Held(s.nodes[p], e.input.clock(j).time)
  }

  /** The scans of a run that do not pass the node over. */
  ghost function Turns(s: State, es: seq<Label>, p: EventNode): nat
    decreases |es|
  {
    if es == [] then 0 else (if TakesTurn(s, es[0], p) then 1 else 0) + Turns(Step(s, es[0]), es[1..], p)
  }

  lemma LoopTopKeepsNodes(s: State)
    requires Inv(s) && s.todo == []
    ensures var s' := OnLoopTop(s);
      && s'.status == s.status && s'.build == s.build
      && (forall p :: p in s'.nodes ==> p in s.nodes && s'.nodes[p] == s.nodes[p])
      && (forall p :: p in s.nodes && !s.nodes[p].marked ==> p in s'.nodes)
  {
    GcRemovesMarked(s, s.order);
  }

  lemma QuietVisit(s: State, e: Label)
    requires s.status == Running && e.Visit? && QuietLabel(e)
    requires s.todo != [] && s.todo[0] in s.nodes && !Scans(s, e)
    ensures Step(s, e) == s.(todo := s.todo[1..])
  {
  }

  /** What one quiet step does to a node that outlasts it. */
  ghost predicate QuietEffect(s: State, e: Label, p: EventNode) {
    var s' := Step(s, e);
    p in s'.nodes ==>
      && p in s.nodes
      && (!Scans(s, e) ==> s'.nodes[p] == s.nodes[p])
      && (Scans(s, e) ==> exists j :: 0 <= j < |s.order| && s.order[j] == p && ScannedAt(s, s', e.input.clock, j))
  }

  lemma QuietStep(s: State, e: Label, p: EventNode)
    requires Inv(s) && s.status == Running && QuietLabel(e) && Step(s, e).status == Running
    ensures QuietEffect(s, e, p) && Inv(Step(s, e)) && Step(s, e).build == s.build
    ensures p in Step(s, e).nodes ==> p in s.nodes
    ensures p in s.nodes && !s.nodes[p].marked ==> p in Step(s, e).nodes && !Step(s, e).nodes[p].marked
  {
    StepKeepsInv(s, e);
    hide Inv, OnVisit, OnLoopTop, ScannedAt;
    if e.LoopTop? {
      if s.todo == [] {
        LoopTopKeepsNodes(s);
      }
    } else if s.todo != [] {
      AdvanceKeepsInv(s);
      if Scans(s, e) {
        ScanStep(s, e);
        QuietScan(s, e, p);
      } else {
        QuietVisit(s, e);
      }
    }
  }

  lemma QuietScan(s: State, e: Label, p: EventNode)
    requires Inv(s) && Scans(s, e) && Step(s, e).status == Running
    ensures QuietEffect(s, e, p) && Step(s, e).build == s.build
    ensures p in s.nodes ==> p in Step(s, e).nodes && Step(s, e).nodes[p].marked == s.nodes[p].marked
  {
    hide Inv, Scan, OnVisit, MeasureOf, Held, Less;
    var s1, clock := s.(todo := s.todo[1..]), e.input.clock;
    AdvanceKeepsInv(s);
    ScanStep(s, e);
    AllListed(s1);
    ScanIsPointwise(s1, 0, clock);
    ScanMakesProgress(s1, clock);
    var s' := Step(s, e);
    assert p in s'.nodes <==> p in s'.nodes.Keys;
    if p in s.nodes {
      assert p in s.nodes.Keys;
      var j :| 0 <= j < |s.order| && s.order[j] == p;
      assert ScannedAt(s1, s', clock, j) && ScannedAt(s, s', clock, j);
    }
  }

  /** The measure of a node that outlasts a quiet step. */
  lemma QuietMeasure(s: State, e: Label, p: EventNode)
    requires Inv(s) && QuietEffect(s, e, p) && p in Step(s, e).nodes
    ensures MeasureOf(Step(s, e).nodes[p]) == Less(MeasureOf(s.nodes[p]), if TakesTurn(s, e, p) then 1 else 0)
    ensures MeasureOf(s.nodes[p]) >= 0
  {
    NodeIsOk(s, p);
    AllListed(s);
    NodeProgress(s.build.asserts, s.nodes[p], Timespec(0, 0));
    hide Inv, NodeOk, Step, Scans, MeasureOf, Held;
  }

  /** The exact law of each node over every quiet run that does not end the process: its measure falls by one for
      every scan that does not pass it over, whatever other scans there are, and its queue is empty exactly when
      there have been enough of them. */
  lemma {:induction false} QuietRunDrains(s: State, es: seq<Label>, p: EventNode)
    requires Inv(s) && s.status == Running && Quiet(es) && Run(s, es).status == Running
    ensures var s' := Run(s, es);
      && Inv(s')
      && (p in s.nodes && !s.nodes[p].marked ==> p in s'.nodes && !s'.nodes[p].marked)
      && (p in s'.nodes ==>
            && p in s.nodes
            && MeasureOf(s'.nodes[p]) == Less(MeasureOf(s.nodes[p]), Turns(s, es, p))
            && (IsIot(s', p) ==> (IotOf(s', p).requests == [] <==> Turns(s, es, p) >= MeasureOf(s.nodes[p]))))
    decreases |es|
  {
    hide Inv, Step, TakesTurn, QuietEffect, Measure;
    if es != [] {
      var e, s1 := es[0], Step(s, es[0]);
      assert s1.status == Running by {
        if s1.status != Running {
          EndedStays(s1, es[1..]);
        }
      }
      assert Quiet(es[1..]) by {
        assert forall i :: 0 <= i < |es[1..]| ==> es[1..][i] == es[i + 1];
      }
      QuietStep(s, e, p);
      QuietRunDrains(s1, es[1..], p);
      if p in Run(s, es).nodes {
        QuietMeasure(s, e, p);
      }
    } else if p in s.nodes {
      MeasureIsSound(s, p);
    }
    if p in Run(s, es).nodes {
      MeasureIsSound(Run(s, es), p);
    }
  }

  lemma MeasureIsSound(s: State, p: EventNode)
    requires Inv(s) && p in s.nodes
    ensures MeasureOf(s.nodes[p]) >= 0 && (IsIot(s, p) ==> (IotOf(s, p).requests == [] <==> MeasureOf(s.nodes[p]) == 0))
  {
    NodeIsOk(s, p);
    hide Inv;
  }

  // ----- in terms of the times at which scans are taken

  /** The readings of the scans a run takes, in order. */
  ghost function Clocks(s: State, es: seq<Label>): seq<Clock>
    decreases |es|
  {
    if es == [] then [] else (if Scans(s, es[0]) then [es[0].input.clock] else []) + Clocks(Step(s, es[0]), es[1..])
  }

  function Nanos(t: Timespec): int {
    1_000_000_000 * t.sec + t.nsec
  }

  /** Every reading of d is at least 20 seconds after every reading of c. */
  ghost predicate Apart(c: Clock, d: Clock) {
    forall i: nat, j: nat :: TimedOut(c(i).time, d(j).time)
  }

  /** The clock does not run backwards between scans. */
  ghost predicate Monotone(cs: seq<Clock>) {
    forall a, b, i: nat, j: nat :: 0 <= a < b < |cs| ==> Nanos(cs[a](i).time) <= Nanos(cs[b](j).time)
  }

  /** No request that is out was sent after a reading of these clocks. */
  ghost predicate SentBefore(n: NodeData, cs: seq<Clock>) {
    HeadOut(n) ==> forall k, j: nat :: 0 <= k < |cs| ==> Nanos(n.data.iot.requests[0].timestamp) <= Nanos(cs[k](j).time)
  }

  /** How many of these scans can be counted so that each is 20 seconds after the one counted before it. */
  ghost function Spaced(cs: seq<Clock>, last: Option<Clock>): nat {
    if cs == [] then 0
    else if last.None? || Apart(last.value, cs[0]) then 1 + Spaced(cs[1..], Some(cs[0]))
    else Spaced(cs[1..], last)
  }

  /** The head of the node, if it is out, was sent no later than some reading of the scan counted last. */
  ghost predicate Settled(n: NodeData, last: Option<Clock>) {
    last.Some? && (HeadOut(n) ==> exists i: nat :: Nanos(n.data.iot.requests[0].timestamp) <= Nanos(last.value(i).time))
  }

  lemma SettledIsNotHeld(n: NodeData, last: Option<Clock>, c: Clock, j: nat)
    requires Settled(n, last) && (last.None? || Apart(last.value, c))
    ensures !Held(n, c(j).time)
  {
    if HeadOut(n) {
      var since := n.data.iot.requests[0].timestamp;
      var i: nat :| Nanos(since) <= Nanos(last.value(i).time);
      assert TimedOut(last.value(i).time, c(j).time);
    }
  }

  /** What a scan leaves: heads were sent before all later readings, and after a counted scan the node is settled. */
  lemma ScanSettles(asserts: bool, n: NodeData, cs: seq<Clock>, j: nat)
    requires cs != [] && Monotone(cs) && SentBefore(n, cs)
    requires n.data.Iot? ==> NodeOk(asserts, n.marked, n.data.iot)
    ensures var n' := ScanData(n, cs[0](j).time); SentBefore(n', cs[1..]) && Settled(n', Some(cs[0]))
  {
    NodeProgress(asserts, n, cs[0](j).time);
    hide NodeOk, ScanData, MeasureOf, Held;
    assert forall k :: 0 <= k < |cs[1..]| ==> cs[1..][k] == cs[k + 1];
  }

  lemma TailIsMonotone(cs: seq<Clock>)
    requires cs != [] && Monotone(cs)
    ensures Monotone(cs[1..])
  {
    assert forall k :: 0 <= k < |cs[1..]| ==> cs[1..][k] == cs[k + 1];
  }

  lemma FirstStep(s: State, es: seq<Label>)
    requires es != [] && s.status == Running && Quiet(es) && Run(s, es).status == Running
    ensures var s1 := Step(s, es[0]);
      s1.status == Running && QuietLabel(es[0]) && Quiet(es[1..]) && Run(s, es) == Run(s1, es[1..])
  {
    hide Step, QuietLabel;
    if Step(s, es[0]).status != Running {
      EndedStays(Step(s, es[0]), es[1..]);
    }
    assert forall i :: 0 <= i < |es[1..]| ==> es[1..][i] == es[i + 1];
  }

  lemma ClocksUnfold(s: State, es: seq<Label>)
    requires es != []
    ensures Scans(s, es[0]) ==> (
      && es[0].Visit? && es[0].input.ScanExpired?
      && Clocks(s, es) == [es[0].input.clock] + Clocks(Step(s, es[0]), es[1..]))
    ensures !Scans(s, es[0]) ==> Clocks(s, es) == Clocks(Step(s, es[0]), es[1..])
  {
    assert [] + Clocks(Step(s, es[0]), es[1..]) == Clocks(Step(s, es[0]), es[1..]);
    hide Step;
  }

  lemma SpacedUnfolds(cs: seq<Clock>, last: Option<Clock>)
    requires cs != []
    ensures Spaced(cs, last) ==
      if last.None? || Apart(last.value, cs[0]) then 1 + Spaced(cs[1..], Some(cs[0])) else Spaced(cs[1..], last)
  {
  }

  lemma QuietKeeps(s: State, e: Label, p: EventNode)
    requires QuietEffect(s, e, p) && !Scans(s, e) && p in Step(s, e).nodes
    ensures p in s.nodes && Step(s, e).nodes[p] == s.nodes[p]
  {
    hide Step, Scans;
  }

  /** The position at which the scan of this step has stepped p. */
  ghost function PlaceOf(s: State, e: Label, p: EventNode): (j: nat)
    requires QuietEffect(s, e, p) && Scans(s, e) && p in Step(s, e).nodes
    ensures p in s.nodes && Step(s, e).nodes[p] == ScanData(s.nodes[p], e.input.clock(j).time)
    ensures MeasureOf(Step(s, e).nodes[p]) ==
      Less(MeasureOf(s.nodes[p]), if Held(s.nodes[p], e.input.clock(j).time) then 0 else 1)
  {
    var j :| 0 <= j < |s.order| && s.order[j] == p && ScannedAt(s, Step(s, e), e.input.clock, j);
    j
  }

  // ----- when quiet runs do not end the process

  ghost predicate NoneStuck(s: State) {
    forall p :: p in s.nodes ==> !Stuck(s.nodes[p])
  }

  /** None of these requests is written for ever at any reading of the scans in es. */
  ghost predicate Sendable(build: Build, q: seq<Request>, es: seq<Label>) {
    forall i, k, j: nat :: 0 <= i < |q| && 0 <= k < |es| && es[k].Visit? && es[k].input.ScanExpired? ==>
      !EndlessAt(build, q[i], es[k].input.clock(j))
  }

  ghost predicate AllSendable(s: State, es: seq<Label>) {
    forall p :: p in s.nodes && IsIot(s, p) ==> Sendable(s.build, IotOf(s, p).requests, es)
  }

  lemma SendableAfterScan(asserts: bool, build: Build, n: NodeData, now: Timespec, es: seq<Label>)
    requires n.data.Iot? && NodeOk(asserts, n.marked, n.data.iot) && es != []
    requires Sendable(build, n.data.iot.requests, es)
    ensures var n' := ScanData(n, now); Sendable(build, n'.data.iot.requests, es[1..]) && (!Stuck(n) ==> !Stuck(n'))
  {
    var q, q' := n.data.iot.requests, ScanData(n, now).data.iot.requests;
    assert forall k :: 0 <= k < |es[1..]| ==> es[1..][k] == es[k + 1];
    forall i | 0 <= i < |q'|
      ensures exists h :: 0 <= h < |q| && BodyOf(q'[i]) == BodyOf(q[h])
    {
      assert BodyOf(q'[i]) == BodyOf(q[if |q'| == |q| then i else i + 1]);
    }
    if |q| > 1 {
      assert q[1..][0].status == RequestPending;
    }
    hide ScanData, NodeOk, Stuck;
  }

  lemma {:induction false} NothingEnds(s: State, i: nat, clock: Clock)
    requires forall p, j: nat :: p in s.nodes ==> NodeVerdict(s.build, s.nodes[p], clock(j)) == Running
    ensures Verdict(s, i, clock) == Running
    decreases |s.order| - i
  {
    hide NodeVerdict;
    if i < |s.order| {
      NothingEnds(s, i + 1, clock);
    }
  }

  lemma GoodNodesRun(s: State, es: seq<Label>, clock: Clock)
    requires (s.build.asserts ==> NoneStuck(s)) && AllSendable(s, es)
    requires es != [] && es[0] == Visit(ScanExpired(clock))
    ensures forall p, j: nat :: p in s.nodes ==> NodeVerdict(s.build, s.nodes[p], clock(j)) == Running
  {
    hide Stuck, EndlessAt;
    forall p, j: nat | p in s.nodes
      ensures NodeVerdict(s.build, s.nodes[p], clock(j)) == Running
    {
      if IsIot(s, p) && IotOf(s, p).requests != [] {
        assert Sendable(s.build, IotOf(s, p).requests, es);
        assert !EndlessAt(s.build, IotOf(s, p).requests[0], es[0].input.clock(j));
      }
    }
  }

  lemma QuietStepRuns(s: State, es: seq<Label>)
    requires Inv(s) && s.status == Running && es != [] && QuietLabel(es[0])
    requires (s.build.asserts ==> NoneStuck(s)) && AllSendable(s, es)
    ensures Step(s, es[0]).status == Running
  {
    hide Inv, NoneStuck, AllSendable, OnVisit, OnLoopTop, Scan, Verdict, NodeVerdict;
    var e := es[0];
    if e.LoopTop? {
      if s.todo == [] {
        LoopTopKeepsNodes(s);
      }
    } else if s.todo != [] {
      AdvanceKeepsInv(s);
      if Scans(s, e) {
        var s1 := s.(todo := s.todo[1..]);
        ScanStep(s, e);
        ScanIsPointwise(s1, 0, e.input.clock);
        GoodNodesRun(s, es, e.input.clock);
        NothingEnds(s1, 0, e.input.clock);
      } else {
        QuietVisit(s, e);
      }
    }
  }

  lemma QuietStepStaysGood(s: State, es: seq<Label>, p: EventNode)
    requires Inv(s) && es != [] && QuietEffect(s, es[0], p) && p in Step(s, es[0]).nodes
    requires Step(s, es[0]).build == s.build && AllSendable(s, es)
    ensures var s' := Step(s, es[0]);
      && (IsIot(s', p) ==> Sendable(s.build, IotOf(s', p).requests, es[1..]))
      && (!Stuck(s.nodes[p]) ==> !Stuck(s'.nodes[p]))
  {
    var e, s' := es[0], Step(s, es[0]);
    NodeIsOk(s, p);
    hide Inv, Step, Scans, NodeOk, Stuck, EndlessAt, MeasureOf, Held;
    assert forall k :: 0 <= k < |es[1..]| ==> es[1..][k] == es[k + 1];
    if Scans(s, e) {
      var j := PlaceOf(s, e, p);
      if IsIot(s, p) {
        SendableAfterScan(s.build.asserts, s.build, s.nodes[p], e.input.clock(j).time, es);
      }
    } else {
      QuietKeeps(s, e, p);
    }
  }

  /** A quiet run does not end the process if nothing that waits is written for ever and, in a LOG_ENABLE build, no
      node is stuck at the start. */
  lemma {:induction false} QuietRunRuns(s: State, es: seq<Label>)
    requires Inv(s) && s.status == Running && Quiet(es)
    requires (s.build.asserts ==> NoneStuck(s)) && AllSendable(s, es)
    ensures Run(s, es).status == Running
    decreases |es|
  {
    hide Inv, Step, QuietEffect, Stuck, Sendable, QuietLabel;
    if es != [] {
      var s1, rest := Step(s, es[0]), es[1..];
      QuietStepRuns(s, es);
      assert forall i :: 0 <= i < |rest| ==> rest[i] == es[i + 1];
      BuildIsKept(s, es[0]);
      forall p | p in s1.nodes
        ensures (IsIot(s1, p) ==> Sendable(s1.build, IotOf(s1, p).requests, rest))
          && (s.build.asserts ==> !Stuck(s1.nodes[p]))
      {
        QuietStep(s, es[0], p);
        QuietStepStaysGood(s, es, p);
      }
      QuietRunRuns(s1, rest);
    }
  }

  lemma BuildIsKept(s: State, e: Label)
    requires Inv(s) && s.status == Running && QuietLabel(e) && Step(s, e).status == Running
    ensures Inv(Step(s, e)) && Step(s, e).build == s.build
  {
    StepKeepsInv(s, e);
    hide Inv, OnVisit, OnLoopTop;
    if e.LoopTop? {
      if s.todo == [] {
        LoopTopKeepsNodes(s);
      }
    } else if s.todo != [] {
      AdvanceKeepsInv(s);
      if Scans(s, e) {
        ScanStep(s, e);
        ScanIsPointwise(s.(todo := s.todo[1..]), 0, e.input.clock);
      } else {
        QuietVisit(s, e);
      }
    }
  }

  // ----- the end of it

  /** Every queue is empty, the counter is zero, and the scan timer is off. */
  ghost predicate AllDone(s: State) {
    && s.status == Running
    && (forall p :: p in s.nodes && IsIot(s, p) ==> IotOf(s, p).requests == [])
    && Waiting(s) == 0 && s.count == 0 && !s.armed
  }

  lemma EmptyIsDone(s: State)
    requires Inv(s) && s.status == Running && forall p :: IsIot(s, p) ==> IotOf(s, p).requests == []
    ensures AllDone(s)
  {
    forall p | p in s.order && p in s.nodes
      ensures QueueLength(s.nodes[p].data) == 0
    {
      assert IsIot(s, p) ==> IotOf(s, p).requests == [];
    }
    AllEmptyIsZero(s.order, s.nodes);
  }

  lemma {:induction false} RunEndsGood(s: State, es: seq<Label>)
    requires Inv(s) && s.status == Running && Quiet(es) && Run(s, es).status == Running
    ensures Inv(Run(s, es))
    decreases |es|
  {
    hide Inv, Step, QuietLabel, Quiet;
    if es != [] {
      FirstStep(s, es);
      BuildIsKept(s, es[0]);
      RunEndsGood(Step(s, es[0]), es[1..]);
    }
  }

  // ----- a scan every second
}

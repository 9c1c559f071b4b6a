/** Bounded waiting: in terms of the times at which scans are taken, how soon every request leaves its queue, over every
    run that its node outlasts; and what that means when nothing else happens. */
module GatewayWaiting {
  import opened Common
  import opened GatewayTypes
  import opened GatewaySpec
  import opened GatewayInvariant
  import opened GatewayScan
  import opened GatewayProgress
  import opened GatewayNodes
  import opened GatewayBalance

  /** No word of the node frees it while its head is out without answering the head. */
  ghost predicate NeverFreedUnanswered(s: State, es: seq<Label>, p: EventNode)
    decreases |es|
  {
    es != [] ==> WordTurns(s, es[0], p) >= 0 && NeverFreedUnanswered(Step(s, es[0]), es[1..], p)
  }

  /** How many requests were ever put into the node's queue. */
  ghost function Enqueued(s: State, p: EventNode): nat
    requires IsIot(s, p)
  {
    |IotOf(s, p).hist.enqueued|
  }

  // ----- what a step other than a scan does to the head

  ghost predicate KeepsHead(n: NodeData, n': NodeData) {
    HeadOut(n') ==> HeadOut(n) && n'.data.iot.requests[0].timestamp == n.data.iot.requests[0].timestamp
  }

  lemma KeptHead(n: NodeData, n': NodeData, cs: seq<Clock>, last: Option<Clock>)
    requires KeepsHead(n, n') && SentBefore(n, cs)
    ensures SentBefore(n', cs) && (Settled(n, last) ==> Settled(n', last))
  {
  }

  lemma GrowthKeepsHead(n: NodeData, n': NodeData, work: seq<Request>)
    requires n.data.Iot? && n'.data.Iot? && Grows(n.data.iot, n'.data.iot, work)
    requires n.data.iot.workState == Busy ==> n.data.iot.requests != []
    ensures KeepsHead(n, n')
  {
  }

  lemma WordKeepsHead(n: NodeData, n': NodeData)
    requires n.data.Iot? && n'.data.Iot? && (Answered(n.data.iot, n'.data.iot) || LetBe(n.data.iot, n'.data.iot))
    ensures KeepsHead(n, n')
  {
  }

  lemma OtherStep(s: State, e: Label, p: EventNode)
    requires Inv(s) && s.status == Running && Fits(s, e) && Step(s, e).status == Running && !Scans(s, e)
    requires IsIot(s, p) && IsIot(Step(s, e), p) && WordTurns(s, e, p) >= 0
    ensures KeepsHead(s.nodes[p], Step(s, e).nodes[p])
    ensures Measure(IotOf(Step(s, e), p)) <= Measure(IotOf(s, p)) + 2 * (Enqueued(Step(s, e), p) - Enqueued(s, p))
    ensures p in s.nodes && p in Step(s, e).nodes && Enqueued(Step(s, e), p) >= Enqueued(s, p)
  {
    StepOfNode(s, e, p);
    StepBalance(s, e, p);
    NoMoveWithoutScan(s, e, p);
    BusyHasHead(s, p);
    hide Inv, Step, Measure, Grows, Answered, LetBe, Scans, Speaks, Moves, WordTurns, KeepsHead;
    if Speaks(s, e, p) {
      WordKeepsHead(s.nodes[p], Step(s, e).nodes[p]);
      WordBalance(IotOf(s, p), IotOf(Step(s, e), p));
    } else {
      GrowthKeepsHead(s.nodes[p], Step(s, e).nodes[p], s.work);
      GrowthAdds(IotOf(s, p), IotOf(Step(s, e), p), s.work);
    }
  }

  lemma NoMoveWithoutScan(s: State, e: Label, p: EventNode)
    ensures Moves(s, e, p) ==> Scans(s, e)
  {
  }

  lemma BusyHasHead(s: State, p: EventNode)
    requires Inv(s) && IsIot(s, p)
    ensures IotOf(s, p).workState == Busy ==> IotOf(s, p).requests != []
  {
    QueueAt(s, p);
  }

  lemma GrowthAdds(d: IotData, d': IotData, work: seq<Request>)
    requires Grows(d, d', work)
    ensures |d'.hist.enqueued| >= |d.hist.enqueued|
  {
  }

  // ----- the law in terms of time

  /** A counted scan: a settled node moves, and the node is settled afterwards; k requests come in later. */
  lemma CountedScan(m: int, m1: int, w: nat, settled: bool, held: bool, m': int, k: nat)
    requires m >= 0 && m1 == Less(m, if held then 0 else 1) && (settled ==> !held)
    requires m' <= Less(m1 + 0, w) + 2 * k
    ensures m' <= Less(m + (if settled then 0 else 1), 1 + w) + 2 * k
  {
  }

  /** A scan between two that count: the node may move, and may then be no longer settled. */
  lemma UncountedScan(m: int, m1: int, w: nat, settled: bool, settled1: bool, held: bool, m': int, k: nat)
    requires m >= 0 && m1 == Less(m, if held then 0 else 1) && (held || m == 0 ==> (settled1 <==> settled))
    requires m' <= Less(m1 + (if settled1 then 0 else 1), w) + 2 * k
    ensures m' <= Less(m + (if settled then 0 else 1), w) + 2 * k
  {
  }

  /** Any other step: j requests come in now and k later. */
  lemma UnscannedStep(m: int, m1: int, w: nat, settled: bool, settled1: bool, m': int, j: nat, k: nat)
    requires m1 <= m + 2 * j && (settled ==> settled1)
    requires m' <= Less(m1 + (if settled1 then 0 else 1), w) + 2 * k
    ensures m' <= Less(m + (if settled then 0 else 1), w) + 2 * (j + k)
  {
  }

  /** What scans counted 20 seconds apart leave of the node, given what has come in since. */
  ghost predicate Served(s: State, s': State, p: EventNode, cs: seq<Clock>, last: Option<Clock>) {
    && IsIot(s, p) && IsIot(s', p) && Enqueued(s', p) >= Enqueued(s, p)
    && MeasureOf(s'.nodes[p]) <= Less(MeasureOf(s.nodes[p]) + (if Settled(s.nodes[p], last) then 0 else 1),
         Spaced(cs, last))
         + 2 * (Enqueued(s', p) - Enqueued(s, p))
  }

  /** What is needed of a run for the law. */
  ghost predicate Attended(s: State, es: seq<Label>, p: EventNode) {
    && Inv(s) && AllFit(s, es) && s.status == Running && Run(s, es).status == Running
    && Outlasts(s, es, p) && NeverFreedUnanswered(s, es, p)
    && Monotone(Clocks(s, es)) && SentBefore(s.nodes[p], Clocks(s, es))
  }

  /** Of the scans that can be counted 20 seconds apart each has taken one of the turns that the node needed at the
      start, except perhaps the first, which may find a head that is still young; every request that has come in since
      needs at most two more. Whatever else happens in the run. */
  lemma {:induction false} SpacedScansServe(s: State, es: seq<Label>, p: EventNode, last: Option<Clock>)
    requires Attended(s, es, p)
    ensures Served(s, Run(s, es), p, Clocks(s, es), last)
    decreases |es|
  {
    hide *;
    if es == [] {
      NothingServed(s, p, last);
    } else {
      var e, s1, rest := es[0], Step(s, es[0]), es[1..];
      FirstOfAttended(s, es, p);
      ClocksUnfold(s, es);
      var cs, cs1 := Clocks(s, es), Clocks(s1, rest);
      if Scans(s, e) {
        assert cs[1..] == cs1 && cs[0] == e.input.clock;
        var j := ScanTakesPlace(s, e, p, cs);
        AttendedAfter(s, es, p);
        if last.None? || Apart(last.value, cs[0]) {
          SpacedScansServe(s1, rest, p, Some(cs[0]));
          ServedByCounted(s, e, Run(s, es), p, cs, last, j);
        } else {
          SpacedScansServe(s1, rest, p, last);
          ServedByUncounted(s, e, Run(s, es), p, cs, last, j);
        }
      } else {
        OtherStep(s, e, p);
        KeptHead(s.nodes[p], s1.nodes[p], cs, last);
        AttendedAfter(s, es, p);
        SpacedScansServe(s1, rest, p, last);
        ServedByOther(s, s1, Run(s, es), p, cs, last);
      }
    }
  }

  lemma NothingServed(s: State, p: EventNode, last: Option<Clock>)
    requires Attended(s, [], p)
    ensures Served(s, Run(s, []), p, Clocks(s, []), last)
  {
    MeasureIsSound(s, p);
    hide Inv, Settled, MeasureOf;
  }

  lemma FirstOfAttended(s: State, es: seq<Label>, p: EventNode)
    requires Attended(s, es, p) && es != []
    ensures var s1 := Step(s, es[0]);
      && Inv(s) && Fits(s, es[0]) && s.status == Running && s1.status == Running && IsIot(s, p) && IsIot(s1, p)
      && WordTurns(s, es[0], p) >= 0 && Run(s, es) == Run(s1, es[1..])
      && Monotone(Clocks(s, es)) && SentBefore(s.nodes[p], Clocks(s, es))
  {
    hide Inv, Step, Fits, Monotone, SentBefore, WordTurns, Clocks;
    assert Outlasts(Step(s, es[0]), es[1..], p);
    if Step(s, es[0]).status != Running {
      EndedStays(Step(s, es[0]), es[1..]);
    }
  }

  lemma AttendedAfter(s: State, es: seq<Label>, p: EventNode)
    requires Attended(s, es, p) && es != []
    requires IsIot(Step(s, es[0]), p) && SentBefore(Step(s, es[0]).nodes[p], Clocks(Step(s, es[0]), es[1..]))
    ensures Attended(Step(s, es[0]), es[1..], p)
  {
    hide Inv, Step, Fits, Monotone, SentBefore, WordTurns, Clocks, Scans;
    FirstOfAttended(s, es, p);
    StepKeepsInv(s, es[0]);
    ClocksUnfold(s, es);
    var cs := Clocks(s, es);
    if Scans(s, es[0]) {
      assert cs[1..] == Clocks(Step(s, es[0]), es[1..]);
      TailIsMonotone(cs);
    }
  }

  /** Where the scan steps the node, and what it leaves of it. */
  lemma ScanTakesPlace(s: State, e: Label, p: EventNode, cs: seq<Clock>) returns (j: nat)
    requires Inv(s) && s.status == Running && Fits(s, e) && Step(s, e).status == Running && Scans(s, e)
    requires IsIot(s, p) && IsIot(Step(s, e), p) && cs != [] && cs[0] == e.input.clock
      && Monotone(cs) && SentBefore(s.nodes[p], cs)
    ensures p in Step(s, e).nodes && Step(s, e).nodes[p] == ScanData(s.nodes[p], cs[0](j).time)
    ensures SentBefore(Step(s, e).nodes[p], cs[1..]) && Settled(Step(s, e).nodes[p], Some(cs[0]))
    ensures Enqueued(Step(s, e), p) == Enqueued(s, p)
  {
    StepOfNode(s, e, p);
    NodeIsOk(s, p);
    hide Inv, Step, NodeOk, ScanData, Monotone, SentBefore, Settled;
    j :| 0 <= j < |s.order| && s.order[j] == p && Step(s, e).nodes[p] == ScanData(s.nodes[p], e.input.clock(j).time);
    ScanSettles(s.build.asserts, s.nodes[p], cs, j);
    ScanEnqueuesNothing(s.nodes[p], cs[0](j).time);
  }

  lemma ServedByCounted(s: State, e: Label, s': State, p: EventNode, cs: seq<Clock>, last: Option<Clock>, j: nat)
    requires Inv(s) && IsIot(s, p) && cs != [] && p in Step(s, e).nodes
      && Step(s, e).nodes[p] == ScanData(s.nodes[p], cs[0](j).time)
    requires Settled(Step(s, e).nodes[p], Some(cs[0])) && Enqueued(Step(s, e), p) == Enqueued(s, p)
    requires last.None? || Apart(last.value, cs[0])
    requires Served(Step(s, e), s', p, cs[1..], Some(cs[0]))
    ensures Served(s, s', p, cs, last)
  {
    NodeIsOk(s, p);
    NodeProgress(s.build.asserts, s.nodes[p], cs[0](j).time);
    SpacedUnfolds(cs, last);
    if Settled(s.nodes[p], last) {
      SettledIsNotHeld(s.nodes[p], last, cs[0], j);
    }
    hide Inv, Step, NodeOk, ScanData, Settled, Held, MeasureOf, Less, Spaced, Apart;
    CountedScan(MeasureOf(s.nodes[p]), MeasureOf(Step(s, e).nodes[p]), Spaced(cs[1..], Some(cs[0])),
                Settled(s.nodes[p], last), Held(s.nodes[p], cs[0](j).time), MeasureOf(s'.nodes[p]),
                Enqueued(s', p) - Enqueued(s, p));
  }

  lemma ServedByUncounted(s: State, e: Label, s': State, p: EventNode, cs: seq<Clock>, last: Option<Clock>, j: nat)
    requires Inv(s) && IsIot(s, p) && cs != [] && p in Step(s, e).nodes
      && Step(s, e).nodes[p] == ScanData(s.nodes[p], cs[0](j).time)
    requires Enqueued(Step(s, e), p) == Enqueued(s, p) && last.Some? && !Apart(last.value, cs[0])
    requires Served(Step(s, e), s', p, cs[1..], last)
    ensures Served(s, s', p, cs, last)
  {
    NodeIsOk(s, p);
    NodeProgress(s.build.asserts, s.nodes[p], cs[0](j).time);
    SpacedUnfolds(cs, last);
    hide Inv, Step, NodeOk, ScanData, Settled, Held, MeasureOf, Less, Spaced, Apart;
    UncountedScan(MeasureOf(s.nodes[p]), MeasureOf(Step(s, e).nodes[p]), Spaced(cs[1..], last),
                  Settled(s.nodes[p], last), Settled(Step(s, e).nodes[p], last), Held(s.nodes[p], cs[0](j).time),
                  MeasureOf(s'.nodes[p]), Enqueued(s', p) - Enqueued(s, p));
  }

  lemma ServedByOther(s: State, s1: State, s': State, p: EventNode, cs: seq<Clock>, last: Option<Clock>)
    requires IsIot(s, p) && IsIot(s1, p) && Enqueued(s1, p) >= Enqueued(s, p)
    requires Measure(IotOf(s1, p)) <= Measure(IotOf(s, p)) + 2 * (Enqueued(s1, p) - Enqueued(s, p))
    requires Settled(s.nodes[p], last) ==> Settled(s1.nodes[p], last)
    requires Served(s1, s', p, cs, last)
    ensures Served(s, s', p, cs, last)
  {
    MeasureIsMeasure(s, p);
    MeasureIsMeasure(s1, p);
    hide Settled, MeasureOf, Measure, Less, Spaced;
    UnscannedStep(MeasureOf(s.nodes[p]), MeasureOf(s1.nodes[p]), Spaced(cs, last), Settled(s.nodes[p], last),
                  Settled(s1.nodes[p], last), MeasureOf(s'.nodes[p]), Enqueued(s1, p) - Enqueued(s, p),
                  Enqueued(s', p) - Enqueued(s1, p));
  }

  // ----- every request leaves

  lemma GrowthIsAtTheEnd(d: IotData, d': IotData, work: seq<Request>)
    requires Grows(d, d', work)
    ensures |d.hist.enqueued| <= |d'.hist.enqueued| && d'.hist.enqueued[..|d.hist.enqueued|] == d.hist.enqueued
  {
  }

  /** What has been put into a queue stays on record. */
  lemma {:induction false} RecordGrows(s: State, es: seq<Label>, p: EventNode)
    requires Inv(s) && AllFit(s, es) && s.status == Running && Run(s, es).status == Running && Outlasts(s, es, p)
    ensures IsIot(s, p) && IsIot(Run(s, es), p)
    ensures IotOf(s, p).hist.enqueued <= IotOf(Run(s, es), p).hist.enqueued
    decreases |es|
  {
    hide Inv, Step, Fits;
    if es != [] {
      if Step(s, es[0]).status != Running {
        EndedStays(Step(s, es[0]), es[1..]);
      }
      StepKeepsInv(s, es[0]);
      RecordGrowsByStep(s, es[0], p);
      RecordGrows(Step(s, es[0]), es[1..], p);
    }
  }

  lemma RecordGrowsByStep(s: State, e: Label, p: EventNode)
    requires Inv(s) && s.status == Running && Fits(s, e) && Step(s, e).status == Running
      && IsIot(s, p) && IsIot(Step(s, e), p)
    ensures IotOf(s, p).hist.enqueued <= IotOf(Step(s, e), p).hist.enqueued
  {
    StepOfNode(s, e, p);
    hide Inv, Step, Grows, ScanData, Scans, Speaks;
    if Scans(s, e) {
      var j :| 0 <= j < |s.order| && s.order[j] == p
        && Step(s, e).nodes[p] == ScanData(s.nodes[p], e.input.clock(j).time);
      ScanEnqueuesNothing(s.nodes[p], e.input.clock(j).time);
    } else if !Speaks(s, e, p) {
      GrowthIsAtTheEnd(IotOf(s, p), IotOf(Step(s, e), p), s.work);
    }
  }

  /** Bounded waiting: once 2 * n + 1 scans have been taken 20 seconds apart, every request that was in the queue of n
      at the start has left it, answered or given up, in order. Requests may come in, timers may fire, nodes may come
      and go meanwhile. */
  lemma WaitingIsBounded(s: State, es: seq<Label>, p: EventNode)
    requires Attended(s, es, p)
    requires Spaced(Clocks(s, es), None) >= 2 * |IotOf(s, p).requests| + 1
    ensures IsIot(Run(s, es), p) && IotOf(s, p).hist.enqueued <= IotOf(Run(s, es), p).hist.completed
  {
    SpacedScansServe(s, es, p, None);
    AttendedRecord(s, es, p);
    hide Inv, Run, Step, Attended, Spaced, Clocks, Settled;
    var s' := Run(s, es);
    var d, d' := IotOf(s, p), IotOf(s', p);
    assert |d'.requests| <= |d'.hist.enqueued| - |d.hist.enqueued|;
    assert |Bodies(d'.requests)| == |d'.requests|;
    PrefixOfCompleted(d.hist.enqueued, d'.hist.completed, Bodies(d'.requests));
  }

  lemma AttendedRecord(s: State, es: seq<Label>, p: EventNode)
    requires Attended(s, es, p)
    ensures IsIot(s, p) && IsIot(Run(s, es), p) && FifoOk(IotOf(Run(s, es), p))
    ensures IotOf(s, p).hist.enqueued <= IotOf(Run(s, es), p).hist.enqueued
    ensures MeasureOf(s.nodes[p]) <= 2 * |IotOf(s, p).requests|
  {
    RecordGrows(s, es, p);
    RunKeepsInv(s, es);
    InvAt(Run(s, es), p);
    hide Inv, Run, Attended;
  }

  lemma PrefixOfCompleted<T>(a: seq<T>, c: seq<T>, b: seq<T>)
    requires a <= c + b && |c| >= |a|
    ensures a <= c
  {
    assert (c + b)[..|a|] == c[..|a|];
  }

  // ----- a scan for every expiry of the timer

  /** Scans g positions apart are 20 seconds apart. */
  ghost predicate EveryG(cs: seq<Clock>, g: nat) {
    forall a, b :: 0 <= a && a + g <= b < |cs| ==> Apart(cs[a], cs[b])
  }

  /** If r scans may still be too early after the one counted last, every g-th of the rest counts. */
  lemma {:induction false} EveryGthCounts(cs: seq<Clock>, last: Clock, r: nat, g: nat)
    requires EveryG(cs, g) && r < g && (forall k :: r <= k < |cs| ==> Apart(last, cs[k]))
    ensures Spaced(cs, Some(last)) * g + r >= |cs|
  {
    hide Apart;
    if cs != [] {
      var rest := cs[1..];
      assert forall k :: 0 <= k < |rest| ==> rest[k] == cs[k + 1];
      assert EveryG(rest, g) by {
        forall a, b | 0 <= a && a + g <= b < |rest|
          ensures Apart(rest[a], rest[b])
        {
          assert rest[a] == cs[a + 1] && rest[b] == cs[b + 1];
        }
      }
      if Apart(last, cs[0]) {
        EveryGthCounts(rest, cs[0], g - 1, g);
        assert (1 + Spaced(rest, Some(cs[0]))) * g == g + Spaced(rest, Some(cs[0])) * g;
      } else {
        EveryGthCounts(rest, last, r - 1, g);
      }
    }
  }

  lemma ScansCount(cs: seq<Clock>, n: nat, g: nat)
    requires EveryG(cs, g) && g > 0 && |cs| >= n * g + 1
    ensures Spaced(cs, None) >= n + 1
  {
    hide Apart;
    var rest := cs[1..];
    assert forall k :: 0 <= k < |rest| ==> rest[k] == cs[k + 1];
    EveryGthCounts(rest, cs[0], g - 1, g);
    SpacedUnfolds(cs, None);
    Quotient(Spaced(rest, Some(cs[0])), n, g);
  }

  lemma Quotient(w: nat, n: nat, g: nat)
    requires g > 0 && w * g + (g - 1) >= n * g
    ensures w >= n
  {
    assert (w + 1) * g == w * g + g > n * g;
    if w < n {
      Multiples(w + 1, n, g);
    }
  }

  lemma Multiples(a: nat, b: nat, g: nat)
    requires a <= b
    ensures a * g <= b * g
  {
  }

  /** With a scan timer that takes g expiries to cover 20 seconds, 2 * g * n + 1 scans are enough. */
  lemma WaitingInScans(s: State, es: seq<Label>, p: EventNode, g: nat)
    requires Attended(s, es, p) && EveryG(Clocks(s, es), g) && g > 0
    requires |Clocks(s, es)| >= 2 * g * |IotOf(s, p).requests| + 1
    ensures IsIot(Run(s, es), p) && IotOf(s, p).hist.enqueued <= IotOf(Run(s, es), p).hist.completed
  {
    hide Inv, Run, Attended, Spaced, Clocks, EveryG;
    AttendedRecord(s, es, p);
    var n := 2 * |IotOf(s, p).requests|;
    assert n * g == 2 * g * |IotOf(s, p).requests|;
    ScansCount(Clocks(s, es), n, g);
    WaitingIsBounded(s, es, p);
  }

  // ----- when nothing comes in

  lemma QuietStepServes(s: State, e: Label, p: EventNode)
    requires Inv(s) && s.status == Running && QuietLabel(e) && Step(s, e).status == Running && QuietEffect(s, e, p)
    requires p in Step(s, e).nodes && IsIot(Step(s, e), p)
    ensures Fits(s, e) && IsIot(s, p) && Enqueued(Step(s, e), p) == Enqueued(s, p) && WordTurns(s, e, p) >= 0
  {
    NodeIsOk(s, p);
    hide Inv, Step, NodeOk, ScanData, Scans, MeasureOf, Held;
    if Scans(s, e) {
      var j := PlaceOf(s, e, p);
      NodeProgress(s.build.asserts, s.nodes[p], e.input.clock(j).time);
      ScanEnqueuesNothing(s.nodes[p], e.input.clock(j).time);
    } else {
      QuietKeeps(s, e, p);
    }
  }

  /** A node that is still there after a quiet run has been there all along, and nothing has come in. */
  lemma {:induction false} QuietRunAttends(s: State, es: seq<Label>, p: EventNode)
    requires Inv(s) && s.status == Running && Quiet(es) && Run(s, es).status == Running
    requires p in Run(s, es).nodes && IsIot(Run(s, es), p)
    ensures AllFit(s, es) && Outlasts(s, es, p) && NeverFreedUnanswered(s, es, p)
    ensures Enqueued(Run(s, es), p) == Enqueued(s, p)
    decreases |es|
  {
    hide Inv, Step, Quiet, QuietLabel, QuietEffect, Fits, WordTurns;
    if es != [] {
      FirstStep(s, es);
      QuietStep(s, es[0], p);
      QuietRunDrains(Step(s, es[0]), es[1..], p);
      QuietRunAttends(Step(s, es[0]), es[1..], p);
      QuietStepServes(s, es[0], p);
    }
  }

  lemma NodeFinishes(s: State, es: seq<Label>, p: EventNode, longest: nat)
    requires Inv(s) && s.status == Running && Quiet(es) && Run(s, es).status == Running && p in Run(s, es).nodes
    requires Monotone(Clocks(s, es)) && (p in s.nodes ==> SentBefore(s.nodes[p], Clocks(s, es)))
    requires IsIot(s, p) ==> |IotOf(s, p).requests| <= longest
    requires Spaced(Clocks(s, es), None) >= 2 * longest + 1
    ensures IsIot(Run(s, es), p) ==> IotOf(Run(s, es), p).requests == []
  {
    hide Inv, Run, Quiet, Monotone, SentBefore, Settled, Spaced, Clocks, Outlasts, NeverFreedUnanswered, AllFit;
    if IsIot(Run(s, es), p) {
      QuietRunAttends(s, es, p);
      StartOfOutlasting(s, es, p);
      SpacedScansServe(s, es, p, None);
      RunEndsGood(s, es);
      MeasureIsSound(Run(s, es), p);
    }
  }

  lemma StartOfOutlasting(s: State, es: seq<Label>, p: EventNode)
    requires Outlasts(s, es, p)
    ensures IsIot(s, p)
  {
  }

  /** When nothing is ready but the scan timer, 2 * longest + 1 scans 20 seconds apart empty every queue and disarm the
      timer, whatever other scans there are between them and whoever is marked. */
  lemma QuietRunFinishes(s: State, es: seq<Label>, longest: nat)
    requires Inv(s) && s.status == Running && Quiet(es)
    requires (s.build.asserts ==> NoneStuck(s)) && AllSendable(s, es)
    requires Monotone(Clocks(s, es)) && (forall p :: p in s.nodes ==> SentBefore(s.nodes[p], Clocks(s, es)))
    requires forall p :: IsIot(s, p) ==> |IotOf(s, p).requests| <= longest
    requires Spaced(Clocks(s, es), None) >= 2 * longest + 1
    ensures AllDone(Run(s, es))
  {
    hide Inv, Run, Quiet, Monotone, SentBefore, Spaced, AllSendable, NoneStuck, Clocks, Total;
    QuietRunRuns(s, es);
    var s' := Run(s, es);
    forall p | IsIot(s', p)
      ensures IotOf(s', p).requests == []
    {
      NodeFinishes(s, es, p, longest);
    }
    RunEndsGood(s, es);
    EmptyIsDone(s');
  }

  /** The same, with a scan timer that takes g expiries to cover 20 seconds. */
  lemma FinishesInScans(s: State, es: seq<Label>, longest: nat, g: nat)
    requires Inv(s) && s.status == Running && Quiet(es)
    requires (s.build.asserts ==> NoneStuck(s)) && AllSendable(s, es)
    requires Monotone(Clocks(s, es)) && (forall p :: p in s.nodes ==> SentBefore(s.nodes[p], Clocks(s, es)))
    requires forall p :: IsIot(s, p) ==> |IotOf(s, p).requests| <= longest
    requires EveryG(Clocks(s, es), g) && g > 0 && |Clocks(s, es)| >= 2 * g * longest + 1
    ensures AllDone(Run(s, es))
  {
    hide *;
    assert (2 * longest) * g == 2 * g * longest;
    ScansCount(Clocks(s, es), 2 * longest, g);
    QuietRunFinishes(s, es, longest);
  }
}

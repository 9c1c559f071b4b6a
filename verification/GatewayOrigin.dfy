/** Where requests come from: every run gives a node only HELLO requests and requests that an MQTT thread has put on the
    list, and writes nothing else to it. If all of these are short, no message is written for ever. */
module GatewayOrigin {
  import opened Common
  import opened GatewayTypes
  import opened GatewaySpec
  import opened GatewayInvariant
  import opened GatewayScan
  import opened GatewayRuns
  import opened GatewayDispatch
  import opened GatewayNodes
  import opened MessageText

  const HelloBody: Body := Body(HelloRequest, None)

  /** The requests that arrive in a run, and HELLO. */
  ghost function Known(es: seq<Label>): set<Body> {
    if es == [] then {HelloBody}
    else Known(es[1..]) + if es[0].Arrive? then {BodyOf(es[0].request)} else {}
  }

  ghost predicate ListWithin(work: seq<Request>, known: set<Body>) {
    forall r :: r in work ==> BodyOf(r) in known
  }

  /** What the node was given and what was written to it. */
  ghost predicate NodeWithin(d: IotData, known: set<Body>) {
    && (forall b :: b in d.hist.enqueued ==> b in known)
    && (forall m :: m in d.hist.written ==> exists b :: b in known && m == WireOf(b))
  }

  ghost predicate Within(s: State, known: set<Body>) {
    ListWithin(s.work, known) && forall p :: p in s.nodes && IsIot(s, p) ==> NodeWithin(IotOf(s, p), known)
  }

  // ----- the list

  /** Nothing but an arrival adds to the list. */
  ghost predicate Fewer(work: seq<Request>, work': seq<Request>) {
    forall r :: r in work' ==> r in work
  }

  lemma {:induction false} UnmatchedIsPart(s: State, w: seq<Request>)
    ensures Fewer(w, Unmatched(s, w))
  {
    hide IsFor, ForNobody;
    if w != [] {
      UnmatchedIsPart(s, w[1..]);
    }
  }

  lemma DispatchTakes(s: State)
    requires Inv(s)
    ensures Fewer(s.work, Dispatch(s).work)
  {
    DispatchPartitions(s);
    hide Inv, Dispatch, Unmatched, FirstMatch;
    UnmatchedIsPart(s, s.work[FirstMatch(s, s.work)..]);
  }

  lemma {:induction false} ScanKeepsWork(s: State, i: nat, clock: Clock)
    ensures Scan(s, i, clock).work == s.work
    decreases |s.order| - i
  {
    if s.status == Running && i < |s.order| {
      ScanKeepsWork(ScanOne(s, s.order[i], clock(i)), i + 1, clock);
    }
  }

  lemma {:induction false} GcKeepsWork(s: State, ps: seq<EventNode>)
    ensures Gc(s, ps).work == s.work
    decreases |ps|
  {
    if ps != [] {
      GcKeepsWork(if ps[0] in s.nodes && s.nodes[ps[0]].marked then DelEvent(s, ps[0]) else s, ps[1..]);
    }
  }

  lemma MessageKeepsWork(s: State, p: EventNode, m: IotMsg)
    requires IsIot(s, p)
    ensures OnMessage(s, p, m).work == s.work
  {
    hide AddCaps, Translate, ParseMsgType;
  }

  lemma VisitTakes(s: State, p: EventNode, input: Input)
    requires Inv(s)
    ensures Fewer(s.work, OnVisit(s, p, input).work)
  {
    hide Inv, Scan, Dispatch, OnMessage;
    DispatchTakes(s);
    if input.ScanExpired? {
      ScanKeepsWork(s, 0, input.clock);
    } else if input.NodeMessage? && IsIot(s, p) {
      MessageKeepsWork(s, p, input.msg);
    }
  }

  lemma StepKeepsList(s: State, e: Label, known: set<Body>)
    requires Inv(s) && ListWithin(s.work, known) && (e.Arrive? ==> BodyOf(e.request) in known)
    ensures ListWithin(Step(s, e).work, known)
  {
    hide Gc, OnVisit;
    GcKeepsWork(s, s.order);
    if e.Visit? && s.todo != [] {
      AdvanceKeepsInv(s);
      VisitTakes(s.(todo := s.todo[1..]), s.todo[0], e.input);
    }
  }

  // ----- the nodes

  lemma GrowthStaysWithin(d: IotData, d': IotData, work: seq<Request>, known: set<Body>)
    requires Grows(d, d', work) && NodeWithin(d, known) && ListWithin(work, known) && HelloBody in known
    ensures NodeWithin(d', known)
  {
    var rs :| GrowsBy(d, d', rs) && forall r :: r in rs ==> r in work || r == HelloOf();
    forall b | b in Bodies(rs)
      ensures b in known
    {
      var i :| 0 <= i < |rs| && b == BodyOf(rs[i]);
      assert rs[i] in rs;
    }
  }

  lemma ScanStaysWithin(d: IotData, now: Timespec, known: set<Body>)
    requires FifoOk(d) && NodeWithin(d, known)
    ensures NodeWithin(ScanNode(d, now), known)
  {
    if d.requests != [] {
      HeadIsKnown(d, known);
    }
  }

  lemma HeadIsKnown(d: IotData, known: set<Body>)
    requires FifoOk(d) && NodeWithin(d, known) && d.requests != []
    ensures BodyOf(d.requests[0]) in known
  {
    assert BodyOf(d.requests[0]) == d.hist.enqueued[|d.hist.completed|];
  }

  lemma NodeStaysWithin(s: State, e: Label, p: EventNode, known: set<Body>)
    requires Inv(s) && s.status == Running && Fits(s, e) && Step(s, e).status == Running
    requires Within(s, known) && HelloBody in known && IsIot(Step(s, e), p)
    ensures NodeWithin(IotOf(Step(s, e), p), known)
  {
    StepOfNode(s, e, p);
    hide Inv, Step, Fits, Grows, ListWithin, Scans, Speaks;
    if IsIot(s, p) {
      assert FifoOk(IotOf(s, p)) by { InvAt(s, p); }
      if Scans(s, e) {
        var now :| Step(s, e).nodes[p] == ScanData(s.nodes[p], now);
        ScanStaysWithin(IotOf(s, p), now, known);
      } else if !Speaks(s, e, p) {
        GrowthStaysWithin(IotOf(s, p), IotOf(Step(s, e), p), s.work, known);
      }
    }
  }

  lemma StepStaysWithin(s: State, e: Label, known: set<Body>)
    requires Inv(s) && s.status == Running && Fits(s, e) && Step(s, e).status == Running
    requires Within(s, known) && HelloBody in known && (e.Arrive? ==> BodyOf(e.request) in known)
    ensures Within(Step(s, e), known)
  {
    hide Inv, Step, Fits, NodeWithin, ListWithin;
    StepKeepsList(s, e, known);
    forall p | p in Step(s, e).nodes && IsIot(Step(s, e), p)
      ensures NodeWithin(IotOf(Step(s, e), p), known)
    {
      NodeStaysWithin(s, e, p, known);
    }
  }

  // ----- runs

  lemma {:induction false} HelloIsKnown(es: seq<Label>)
    ensures HelloBody in Known(es)
  {
    if es != [] {
      HelloIsKnown(es[1..]);
    }
  }

  lemma {:induction false} RunStaysWithin(s: State, es: seq<Label>, known: set<Body>)
    requires Inv(s) && AllFit(s, es) && Run(s, es).status == Running && Within(s, known) && Known(es) <= known
    ensures Within(Run(s, es), known)
    decreases |es|
  {
    hide Inv, Step, Fits, Within;
    HelloIsKnown(es);
    if s.status != Running {
      EndedStays(s, es);
    } else if es != [] {
      StepKeepsInv(s, es[0]);
      if Step(s, es[0]).status != Running {
        EndedStays(Step(s, es[0]), es[1..]);
      } else {
        StepStaysWithin(s, es[0], known);
        RunStaysWithin(Step(s, es[0]), es[1..], known);
      }
    }
  }

  lemma BootWithin(b: Startup, known: set<Body>)
    requires GoodStart(b)
    ensures Within(Boot(b), known)
  {
  }

  /** A node is given HELLO requests and requests that arrived, and nothing but their messages is written to it. */
  lemma OriginOnRuns(b: Startup, es: seq<Label>, p: EventNode)
    requires GoodStart(b) && AllFit(Boot(b), es) && Run(Boot(b), es).status == Running && IsIot(Run(Boot(b), es), p)
    ensures NodeWithin(IotOf(Run(Boot(b), es), p), Known(es))
  {
    hide Run, AllFit, Known, NodeWithin, Boot, GoodStart;
    BootInv(b);
    BootWithin(b, Known(es));
    RunStaysWithin(Boot(b), es, Known(es));
  }

  // ----- short texts

  /** The text of the message fits into a char. */
  ghost predicate FitsChar(build: Build, m: NodeMsg) {
    build.textSize(m) <= if build.signedChar then 127 else 255
  }

  ghost predicate AllShort(build: Build, known: set<Body>) {
    forall b :: b in known ==> FitsChar(build, WireOf(b))
  }

  lemma ShortHeadEnds(s: State, p: EventNode, now: Reading, known: set<Body>)
    requires Inv(s) && IsIot(s, p) && Within(s, known) && AllShort(s.build, known)
    ensures !SendsEndless(s.build, s.nodes[p], now)
  {
    var d := IotOf(s, p);
    if d.requests != [] {
      assert FifoOk(d) by { InvAt(s, p); }
      HeadIsKnown(d, known);
      assert FitsChar(s.build, WireOf(BodyOf(d.requests[0])));
    }
  }

  lemma NothingEndless(s: State, e: Label, known: set<Body>)
    requires Inv(s) && Within(s, known) && AllShort(s.build, known)
    ensures !ScanEndsIn(s, e, Spinning)
  {
    hide Inv, Within, AllShort, Stuck, SendsEndless;
    if Scans(s, e) {
      forall j: nat | j < |s.order| && s.order[j] in s.nodes
        ensures NodeVerdict(s.build, s.nodes[s.order[j]], e.input.clock(j)) != Spinning
      {
        if IsIot(s, s.order[j]) {
          ShortHeadEnds(s, s.order[j], e.input.clock(j), known);
        } else {
          PlainEntryEnds(s.build, s.nodes[s.order[j]], e.input.clock(j));
        }
      }
    }
  }

  lemma PlainEntryEnds(build: Build, n: NodeData, now: Reading)
    requires !n.data.Iot?
    ensures NodeVerdict(build, n, now) == Running
  {
  }

  lemma {:induction false} ShortRunEnds(s: State, es: seq<Label>, known: set<Body>)
    requires Inv(s) && AllFit(s, es) && s.status != Spinning
    requires (s.status == Running ==> Within(s, known)) && Known(es) <= known && AllShort(s.build, known)
    ensures Run(s, es).status != Spinning
    decreases |es|
  {
    hide Inv, Step, Fits, Within, AllShort, ScanEndsIn;
    HelloIsKnown(es);
    if s.status != Running {
      EndedStays(s, es);
    } else if es != [] {
      StepKeepsInv(s, es[0]);
      StepKeepsBuild(s, es[0]);
      StepOutcome(s, es[0]);
      NothingEndless(s, es[0], known);
      if Step(s, es[0]).status == Running {
        StepStaysWithin(s, es[0], known);
      }
      ShortRunEnds(Step(s, es[0]), es[1..], known);
    }
  }

  /** If the messages of HELLO and of all requests that arrive fit into a char, no message is written for ever. */
  lemma ShortTextsNeverSpin(b: Startup, es: seq<Label>)
    requires GoodStart(b) && AllFit(Boot(b), es) && AllShort(b.build, Known(es))
    ensures Run(Boot(b), es).status != Spinning
  {
    hide Run, AllFit, Known, Within, Boot, GoodStart, AllShort;
    BootInv(b);
    BootWithin(b, Known(es));
    BootRuns(b);
    ShortRunEnds(Boot(b), es, Known(es));
  }

  lemma BootRuns(b: Startup)
    ensures Boot(b).status == Running && Boot(b).build == b.build
  {
  }

  lemma {:induction false} KnownMeans(es: seq<Label>, b: Body)
    ensures b in Known(es) <==>
      b == HelloBody || exists i :: 0 <= i < |es| && es[i].Arrive? && b == BodyOf(es[i].request)
  {
    if es != [] {
      KnownMeans(es[1..], b);
      assert forall i :: 0 <= i < |es| ==> es[i] == if i == 0 then es[0] else es[1..][i - 1];
    }
  }

  /** With the JSON text that the program prints this asks nothing of HELLO. */
  lemma ShortJsonNeverSpins(b: Startup, es: seq<Label>)
    requires GoodStart(b) && AllFit(Boot(b), es) && PrintsJson(b.build)
    requires forall i :: 0 <= i < |es| && es[i].Arrive? ==>
      |JsonText(WireOf(BodyOf(es[i].request)))| <= if b.build.signedChar then 127 else 255
    ensures Run(Boot(b), es).status != Spinning
  {
    hide Run, AllFit, Known, Boot, GoodStart, JsonText;
    TextLength(SendHello);
    forall k | k in Known(es)
      ensures FitsChar(b.build, WireOf(k))
    {
      KnownMeans(es, k);
    }
    ShortTextsNeverSpin(b, es);
  }
}

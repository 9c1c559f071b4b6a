/** Two runs of the program from start-up. One leaves 256 requests waiting with the scan timer off: one connection,
    257 requests for it, one of them answered. The other writes one message for ever. */
module GatewayOverflow {
  import opened Common
  import opened GatewayTypes
  import opened GatewaySpec
  import opened GatewayInvariant
  import opened GatewayScan
  import opened GatewayWakeup
  import opened GatewayDispatch
  import opened MqttIntake
  import opened MessageText

  // ----- turns of the loop in which at most one entry is offered something

  lemma {:induction false} NothingToCollect(s: State, ps: seq<EventNode>)
    requires NoMarks(s)
    ensures Gc(s, ps) == s
    decreases |ps|
  {
    if ps != [] {
      NothingToCollect(s, ps[1..]);
    }
  }

  lemma Turns(s: State)
    requires Inv(s) && NoMarks(s) && s.status == Running && s.todo == []
    ensures Fits(s, LoopTop) && Step(s, LoopTop) == s.(todo := s.order) && Inv(s.(todo := s.order))
  {
    NothingToCollect(s, s.order);
    StepKeepsInv(s, LoopTop);
  }

  lemma Skips(s: State)
    requires Inv(s) && s.status == Running && s.todo != []
    ensures Step(s, Visit(NotReady)) == s.(todo := s.todo[1..]) && Inv(s.(todo := s.todo[1..]))
  {
    AdvanceKeepsInv(s);
  }

  /** The labels of a turn of the loop in which only the entry at position k is offered something. */
  function TurnOf(n: nat, k: nat, input: Input): seq<Label> {
    [LoopTop] + seq(n, i => Visit(if i == k then input else NotReady))
  }

  lemma {:induction false} SkipMany(s: State, n: nat)
    requires Inv(s) && s.status == Running && n <= |s.todo|
    ensures var s', es := s.(todo := s.todo[n..]), Skipping(n);
      Run(s, es) == s' && AllFit(s, es) && Inv(s')
    decreases n
  {
    var es := Skipping(n);
    if n == 0 {
      assert s.todo[0..] == s.todo;
    } else {
      Skips(s);
      assert es[0] == Visit(NotReady) && es[1..] == Skipping(n - 1);
      var s1 := s.(todo := s.todo[1..]);
      assert s1.todo[n - 1..] == s.todo[n..];
      SkipMany(s1, n - 1);
    }
  }

  function Skipping(n: nat): seq<Label> {
    seq(n, i => Visit(NotReady))
  }

  lemma TurnSplits(n: nat, k: nat, input: Input)
    requires k < n
    ensures TurnOf(n, k, input) == [LoopTop] + (Skipping(k) + ([Visit(input)] + Skipping(n - k - 1)))
  {
  }

  /** The state in which the k-th entry of a turn is visited. */
  function AtEntry(s: State, k: nat): State
    requires k < |s.order|
  {
    s.(todo := s.order[k..])
  }

  /** A turn in which only the k-th entry is offered something: the step of that entry, and nothing else. */
  lemma TurnEffect(s: State, k: nat, input: Input)
    requires Inv(s) && NoMarks(s) && s.status == Running && s.todo == [] && k < |s.order|
    requires Fits(AtEntry(s, k), Visit(input)) && Step(AtEntry(s, k), Visit(input)).status == Running
    requires Step(AtEntry(s, k), Visit(input)).todo == s.order[k + 1..]
    ensures var es := TurnOf(|s.order|, k, input);
      AllFit(s, es) && Run(s, es) == Step(AtEntry(s, k), Visit(input)).(todo := []) && Inv(Run(s, es))
  {
    hide *;
    var n := |s.order|;
    Turns(s);
    var s0 := s.(todo := s.order);
    SkipMany(s0, k);
    var s1 := AtEntry(s, k);
    EntryOf(s, k);
    StepKeepsInv(s1, Visit(input));
    var s2 := Step(s1, Visit(input));
    SkipMany(s2, n - k - 1);
    assert s2.todo[n - k - 1..] == [];
    TurnSplits(n, k, input);
    JoinRuns(s1, [Visit(input)], Skipping(n - k - 1));
    JoinRuns(s0, Skipping(k), [Visit(input)] + Skipping(n - k - 1));
    JoinRuns(s, [LoopTop], Skipping(k) + ([Visit(input)] + Skipping(n - k - 1)));
    SingleRun(s1, Visit(input));
    SingleRun(s, LoopTop);
  }

  lemma AdvanceTo(s: State, k: nat)
    requires Inv(s) && NoMarks(s) && k <= |s.order|
    ensures Inv(s.(todo := s.order[k..]))
  {
    forall t | t in s.nodes
      ensures PairedAt(s.nodes, t)
    {
    }
  }

  /** The state that the visited entry leaves behind for the rest of the pass. */
  lemma EntryOf(s: State, k: nat)
    requires Inv(s) && NoMarks(s) && k < |s.order|
    ensures AtEntry(s, k).todo != [] && AtEntry(s, k).todo[0] == s.order[k]
      && AtEntry(s, k).todo[1..] == s.order[k + 1..]
    ensures AtEntry(s, k).(todo := AtEntry(s, k).todo[1..]) == s.(todo := s.order[k + 1..])
    ensures AtEntry(s, k) == s.(todo := s.order).(todo := s.order[k..])
    ensures AtEntry(s, k).status == s.status && AtEntry(s, k).nodes == s.nodes
    ensures s.order[k] in s.nodes && Inv(s.(todo := s.order[k + 1..]))
  {
    AdvanceTo(s, k + 1);
  }

  // ----- from start-up to a node with a load of requests

  /** One node with its timer is connected, nothing is marked, and the process runs. */
  ghost predicate OneNode(s: State, node: EventNode, timer: EventNode, b: Startup) {
    && Inv(s) && NoMarks(s) && s.status == Running && s.build == b.build
    && s.order == [timer, node, b.scan, b.pipe, b.listen]
    && node !in {timer, b.scan, b.pipe, b.listen}
    && IsIot(s, node) && IsTimer(s, timer)
    && s.nodes[b.scan].data == Plain(WorkScanTimerEvent)
    && s.nodes[b.pipe].data == Plain(MqttMsgEvent)
    && s.nodes[b.listen].data == Plain(ListenSocket)
  }

  /** Between turns, with the given requests in the queue of the one node. */
  ghost predicate Resting(s: State, node: EventNode, timer: EventNode, b: Startup, q: seq<Request>) {
    OneNode(s, node, timer, b) && s.todo == [] && IotOf(s, node).requests == q && IotOf(s, node).name == "n"
  }

  lemma WaitingAtOneNode(s: State, node: EventNode, timer: EventNode, b: Startup)
    requires OneNode(s, node, timer, b)
    ensures Waiting(s) == |IotOf(s, node).requests|
  {
    hide Inv, NoMarks;
    var rest := [b.scan, b.pipe, b.listen];
    assert s.order[1..] == [node] + rest && ([node] + rest)[1..] == rest;
    AllEmptyIsZero(rest, s.nodes);
    hide OneNode;
    assert Total([node] + rest, s.nodes) == |IotOf(s, node).requests|;
  }

  /** The nodes of the program and of its first connection are five different ones. */
  ghost predicate Apart(b: Startup, node: EventNode, timer: EventNode) {
    node != timer && node !in {b.scan, b.pipe, b.listen} && timer !in {b.scan, b.pipe, b.listen}
  }

  ghost predicate Booted(s: State, b: Startup) {
    && s.order == [b.scan, b.pipe, b.listen] && s.todo == [] && s.work == [] && !s.armed
    && s.status == Running && s.build == b.build && NoMarks(s)
    && b.scan in s.nodes && s.nodes[b.scan].data == Plain(WorkScanTimerEvent)
    && b.pipe in s.nodes && s.nodes[b.pipe].data == Plain(MqttMsgEvent)
    && b.listen in s.nodes && s.nodes[b.listen].data == Plain(ListenSocket)
  }

  lemma BootShape(b: Startup)
    requires GoodStart(b)
    ensures Booted(Boot(b), b) && Inv(Boot(b))
  {
    BootInv(b);
    hide Inv;
  }

  /** What accepting a connection adds. */
  lemma AcceptShape(s: State, node: EventNode, timer: EventNode, fd: int, timerFd: int, junk: string)
    requires node != timer
    ensures var s' := OnAccept(s, node, timer, fd, timerFd, junk);
      && s' == s.(order := [timer, node] + s.order, nodes := s'.nodes, eventCount := s'.eventCount, fdSet := s'.fdSet,
           maxFd := s'.maxFd)
      && IsIot(s', node) && IsTimer(s', timer)
      && IotOf(s', node).requests == [] && IotOf(s', node).name == junk && IotOf(s', node).workState == Free
      && !s'.nodes[node].marked && !s'.nodes[timer].marked
      && (forall p :: p in s'.nodes ==> p == node || p == timer || p in s.nodes)
      && (forall p :: p in s.nodes && p != node && p != timer ==> p in s'.nodes && s'.nodes[p] == s.nodes[p])
  {
    assert [timer] + ([node] + s.order) == [timer, node] + s.order;
  }

  lemma PlainStep(s: State, input: Input)
    requires s.status == Running && s.todo != [] && s.todo[0] in s.nodes
    ensures s.nodes[s.todo[0]].data == Plain(ListenSocket) && input.Accepted? ==>
      Step(s, Visit(input)) ==
        OnAccept(s.(todo := s.todo[1..]), input.node, input.timer, input.fd, input.timerFd, input.junk)
    ensures s.nodes[s.todo[0]].data == Plain(MqttMsgEvent) && input.WorkSignal? ==>
      Step(s, Visit(input)) == Dispatch(s.(todo := s.todo[1..]))
  {
  }

  lemma AfterAccept(b: Startup, s: State, node: EventNode, timer: EventNode, fd: int, timerFd: int)
    requires GoodStart(b) && Apart(b, node, timer) && Booted(s, b)
    requires Inv(OnAccept(s, node, timer, fd, timerFd, "n"))
    ensures Connected(OnAccept(s, node, timer, fd, timerFd, "n"), node, timer, b)
  {
    hide Inv, OnAccept;
    AcceptShape(s, node, timer, fd, timerFd, "n");
    assert [timer, node] + [b.scan, b.pipe, b.listen] == [timer, node, b.scan, b.pipe, b.listen];
  }

  lemma ListenEntry(s: State, b: Startup)
    requires Booted(s, b)
    ensures |s.order| == 3 && AtEntry(s, 2).todo == [b.listen] && s.order[3..] == []
    ensures AtEntry(s, 2).(todo := []) == s && AtEntry(s, 2).status == Running && AtEntry(s, 2).nodes == s.nodes
  {
  }

  /** The first turn: one connection is accepted. */
  lemma Connect(b: Startup, node: EventNode, timer: EventNode, fd: int, timerFd: int)
    requires GoodStart(b) && Apart(b, node, timer)
    requires Fits(Boot(b), Visit(Accepted(node, timer, fd, timerFd, "n")))
    ensures var es := TurnOf(3, 2, Accepted(node, timer, fd, timerFd, "n"));
      && AllFit(Boot(b), es)
      && Connected(Run(Boot(b), es), node, timer, b)
  {
    var s, input := Boot(b), Accepted(node, timer, fd, timerFd, "n");
    BootShape(b);
    ListenEntry(s, b);
    hide Inv, Boot, Step, OnAccept, Run, AllFit, TurnOf, AtEntry, Connected;
    PlainStep(AtEntry(s, 2), input);
    assert [b.listen][1..] == [];
    assert OnAccept(s, node, timer, fd, timerFd, "n").todo == [] by { AcceptShape(s, node, timer, fd, timerFd, "n"); }
    TurnEffect(s, 2, input);
    AfterAccept(b, s, node, timer, fd, timerFd);
  }

  /** After the first turn. */
  ghost predicate Connected(s: State, node: EventNode, timer: EventNode, b: Startup) {
    Resting(s, node, timer, b, []) && s.work == [] && !s.armed && IotOf(s, node).workState == Free
  }

  lemma {:induction false} ArrivalsFit(s: State, rs: seq<Request>)
    requires forall i :: 0 <= i < |rs| ==> Fits(s, Arrive(rs[i]))
    ensures AllFit(s, Arrivals(rs))
    decreases |rs|
  {
    if rs != [] {
      assert Arrivals(rs)[0] == Arrive(rs[0]) && Arrivals(rs)[1..] == Arrivals(rs[1..]);
      var s1 := Step(s, Arrive(rs[0]));
      forall i | 0 <= i < |rs[1..]|
        ensures Fits(s1, Arrive(rs[1..][i]))
      {
        assert Fits(s, Arrive(rs[i + 1]));
      }
      ArrivalsFit(s1, rs[1..]);
    }
  }

  lemma {:induction false} AllSets(rs: seq<Request>)
    requires forall i :: 0 <= i < |rs| ==> rs[i].reqType == SetRequest
    ensures Gets(rs) == [] && Sets(rs) == rs
  {
    if rs != [] {
      AllSets(rs[1..]);
    }
  }

  /** n SET requests for the node named "n". */
  function Load(n: nat, ps: seq<Param>): seq<Request> {
    seq(n, i => Request(SetRequest, RequestPending, Timespec(0, 0), Some(MqttRequest("app", "n", ps, LocalClient))))
  }

  lemma LoadArrives(s: State, n: nat, ps: seq<Param>)
    requires s.status == Running && s.work == []
    ensures AllFit(s, Arrivals(Load(n, ps))) && Run(s, Arrivals(Load(n, ps))) == s.(work := Load(n, ps))
  {
    var rs := Load(n, ps);
    ArrivalsFit(s, rs);
    AllSets(rs);
    hide Arrivals, Load;
    ArrivalOrder(s, rs);
    assert Reverse([]) + [] + rs == rs;
  }

  lemma Arriving(s: State, node: EventNode, timer: EventNode, b: Startup, n: nat, ps: seq<Param>)
    requires Connected(s, node, timer, b)
    ensures AllFit(s, Arrivals(Load(n, ps))) && Run(s, Arrivals(Load(n, ps))) == s.(work := Load(n, ps))
    ensures OneNode(s.(work := Load(n, ps)), node, timer, b)
  {
    LoadArrives(s, n, ps);
    hide Arrivals, Load, Run, AllFit;
    RunKeepsInv(s, Arrivals(Load(n, ps)));
    hide Inv;
  }

  lemma {:induction false} AllForNode(s: State, node: EventNode, w: seq<Request>)
    requires forall i :: 0 <= i < |w| ==> MatchOf(s, w[i]) == Some(node)
    ensures For(s, node, w) == w && Unmatched(s, w) == []
  {
    hide MatchOf, IsFor, ForNobody;
    if w != [] {
      MatchIsByName(s, w[0]);
      AllForNode(s, node, w[1..]);
    }
  }

  lemma NodeIsFound(s: State, node: EventNode, timer: EventNode, b: Startup)
    requires OneNode(s, node, timer, b) && IotOf(s, node).name == "n"
    ensures FirstNamed(s.order, s.nodes, "n") == Some(node)
  {
    assert s.order[0] == timer && s.order[1..][0] == node;
    assert !Named(s.nodes, timer, "n") && Named(s.nodes, node, "n");
  }

  /** Every request of the load is for the one node. */
  lemma LoadIsForNode(s: State, node: EventNode, timer: EventNode, b: Startup, n: nat, ps: seq<Param>)
    requires OneNode(s, node, timer, b) && IotOf(s, node).name == "n" && s.work == Load(n, ps)
    ensures |Load(n, ps)| == n && For(s, node, s.work) == Load(n, ps)
      && Unmatched(s, s.work) == [] && FirstMatch(s, s.work) == 0
  {
    NodeIsFound(s, node, timer, b);
    hide OneNode, FirstNamed;
    forall i | 0 <= i < |s.work|
      ensures MatchOf(s, s.work[i]) == Some(node)
    {
    }
    AllForNode(s, node, s.work);
  }

  /** Dispatching the load, and nothing else. */
  lemma DispatchLoad(s: State, node: EventNode, timer: EventNode, b: Startup, n: nat, ps: seq<Param>)
    requires OneNode(s, node, timer, b) && IotOf(s, node).name == "n"
      && IotOf(s, node).requests == [] && s.work == Load(n, ps)
    requires IotOf(s, node).workState == Free && !s.armed
    ensures var s' := Dispatch(s);
      && OneNode(s', node, timer, b) && IotOf(s', node).requests == Load(n, ps) && IotOf(s', node).name == "n"
      && IotOf(s', node).workState == Free && s'.work == [] && s'.todo == s.todo && (n > 0 ==> s'.armed)
  {
    assert Inv(s);
    WaitingAtOneNode(s, node, timer, b);
    LoadIsForNode(s, node, timer, b, n, ps);
    hide Inv, Dispatch, Load, For, Unmatched, FirstMatch;
    DispatchPartitions(s);
    DispatchInv(s);
    var s' := Dispatch(s);
    assert [] + Load(n, ps) == Load(n, ps) && s.work[0..] == s.work;
    assert OneNode(s', node, timer, b) by { DeliveredKeepsOneNode(s, s', node, timer, b); }
    WaitingAtOneNode(s', node, timer, b);
  }

  lemma DeliveredKeepsOneNode(s: State, s': State, node: EventNode, timer: EventNode, b: Startup)
    requires OneNode(s, node, timer, b) && Delivered(s, s, s', s.work)
    requires Inv(s') && s'.status == s.status && s'.order == s.order && s'.build == s.build
    ensures OneNode(s', node, timer, b)
  {
    hide Inv, Delivered;
    AllListed(s);
    assert s.order[2] in s.nodes && s.order[3] in s.nodes && s.order[4] in s.nodes;
    forall p
      ensures p in s'.nodes <==> p in s.nodes
      ensures p in s.nodes ==> s'.nodes[p].marked == s.nodes[p].marked && (IsIot(s', p) <==> IsIot(s, p))
      ensures p in s.nodes && !IsIot(s, p) ==> s'.nodes[p] == s.nodes[p]
    {
      DeliveredAt(s, s', p);
    }
  }

  lemma DeliveredAt(s: State, s': State, p: EventNode)
    requires Delivered(s, s, s', s.work)
    ensures p in s'.nodes <==> p in s.nodes
    ensures p in s.nodes ==> s'.nodes[p].marked == s.nodes[p].marked && (IsIot(s', p) <==> IsIot(s, p))
    ensures p in s.nodes && !IsIot(s, p) ==> s'.nodes[p] == s.nodes[p]
  {
    hide For, Bodies;
    assert (p in s'.nodes <==> p in s'.nodes.Keys) && (p in s.nodes <==> p in s.nodes.Keys);
  }

  lemma DispatchInv(s: State)
    requires Inv(s) && WakeOk(s)
    ensures var s' := Dispatch(s);
      Inv(s') && WakeOk(s') && s'.status == s.status && s'.order == s.order && s'.todo == s.todo && s'.build == s.build
  {
    hide Inv, DispatchFrom;
    DispatchKeepsInv(s, 0, false, false);
    DispatchKeepsWake(s, 0, false, false);
    DispatchKeepsRest(s, 0, false, false);
  }

  /** The todo list of a state between steps does not matter to its shape. */
  lemma OneNodeAnywhere(s: State, node: EventNode, timer: EventNode, b: Startup, todo: seq<EventNode>)
    requires OneNode(s, node, timer, b) && Inv(s.(todo := todo))
    ensures OneNode(s.(todo := todo), node, timer, b)
  {
    hide Inv;
  }

  /** The free node with n requests waiting. */
  ghost predicate Loaded(s: State, node: EventNode, timer: EventNode, b: Startup, n: nat, ps: seq<Param>) {
    Resting(s, node, timer, b, Load(n, ps)) && IotOf(s, node).workState == Free
  }

  /** The turn in which the pipe is ready. */
  lemma PipeTurn(s: State, node: EventNode, timer: EventNode, b: Startup, n: nat, ps: seq<Param>)
    requires OneNode(s, node, timer, b) && s.todo == [] && s.work == Load(n, ps)
    requires IotOf(s, node).name == "n" && IotOf(s, node).requests == [] && IotOf(s, node).workState == Free && !s.armed
    ensures var es := TurnOf(5, 3, WorkSignal); var s' := Run(s, es);
      AllFit(s, es) && Loaded(s', node, timer, b, n, ps)
  {
    hide Inv, NoMarks, AtEntry, Step, Run, AllFit, TurnOf, Dispatch, Load;
    EntryOf(s, 3);
    var s1 := s.(todo := s.order[4..]);
    OneNodeAnywhere(s, node, timer, b, s.order[4..]);
    DispatchLoad(s1, node, timer, b, n, ps);
    PlainStep(AtEntry(s, 3), WorkSignal);
    TurnEffect(s, 3, WorkSignal);
    OneNodeAnywhere(Dispatch(s1), node, timer, b, []);
  }

  /** A run from start-up to a node with n requests waiting: one connection, the requests, and a turn that dispatches
      them. */
  lemma LoadedRun(b: Startup, node: EventNode, timer: EventNode, fd: int, timerFd: int, n: nat, ps: seq<Param>)
    requires GoodStart(b) && Apart(b, node, timer)
    requires Fits(Boot(b), Visit(Accepted(node, timer, fd, timerFd, "n")))
    ensures exists es :: AllFit(Boot(b), es) && Loaded(Run(Boot(b), es), node, timer, b, n, ps)
  {
    hide *;
    var s0 := Boot(b);
    var es1 := TurnOf(3, 2, Accepted(node, timer, fd, timerFd, "n"));
    Connect(b, node, timer, fd, timerFd);
    var s1 := Run(s0, es1);
    var es2 := Arrivals(Load(n, ps));
    Arriving(s1, node, timer, b, n, ps);
    var s2 := Run(s1, es2);
    ConnectedFacts(s1, node, timer, b, Load(n, ps));
    var es3 := TurnOf(5, 3, WorkSignal);
    PipeTurn(s2, node, timer, b, n, ps);
    JoinRuns(s1, es2, es3);
    JoinRuns(s0, es1, es2 + es3);
    assert AllFit(s0, es1 + (es2 + es3));
  }

  lemma ConnectedFacts(s: State, node: EventNode, timer: EventNode, b: Startup, work: seq<Request>)
    requires Connected(s, node, timer, b)
    ensures var s' := s.(work := work);
      && IsIot(s', node) && s'.todo == [] && IotOf(s', node).name == "n" && IotOf(s', node).requests == []
      && IotOf(s', node).workState == Free && !s'.armed && s'.work == work
  {
  }

  // ----- 256 requests left with the timer off

  ghost predicate Waits(s: State, node: EventNode, timer: EventNode, b: Startup, n: nat) {
    && OneNode(s, node, timer, b) && s.todo == [] && |IotOf(s, node).requests| == n > 0
    && IotOf(s, node).workState == Busy && HeadSent(IotOf(s, node)) && IotOf(s, node).requests[0].reqType == SetRequest
  }

  /** The message of every request of the load. */
  function LoadMsg(ps: seq<Param>): NodeMsg {
    SendSet("app", WireSet(ps))
  }

  ghost predicate LoadIsEndless(b: Startup, ps: seq<Param>, clock: Clock) {
    SendLoop.Endless(b.build.textSize(LoadMsg(ps)), clock(1).eintr, b.build.signedChar)
  }

  /** What becomes of the process at each entry: only the node can end it. */
  lemma VerdictOfLoad(s: State, node: EventNode, timer: EventNode, b: Startup, n: nat, ps: seq<Param>, clock: Clock)
    requires OneNode(s, node, timer, b) && n > 0 && IotOf(s, node).requests == Load(n, ps)
      && IotOf(s, node).workState == Free
    ensures Verdict(s, 0, clock) == if LoadIsEndless(b, ps, clock) then Spinning else Running
  {
    hide Inv, NoMarks;
    assert s.order[0] == timer && s.order[1] == node && |s.order| == 5;
    assert NodeVerdict(s.build, s.nodes[timer], clock(0)) == Running;
    assert NodeVerdict(s.build, s.nodes[node], clock(1)) == if LoadIsEndless(b, ps, clock) then Spinning else Running;
    PlainVerdict(s, 2, clock);
  }

  /** Entries that are no nodes do not end it. */
  lemma {:induction false} PlainVerdict(s: State, i: nat, clock: Clock)
    requires forall j :: i <= j < |s.order| && s.order[j] in s.nodes ==> !s.nodes[s.order[j]].data.Iot?
    ensures Verdict(s, i, clock) == Running
    decreases |s.order| - i
  {
    if i < |s.order| {
      PlainVerdict(s, i + 1, clock);
    }
  }

  /** A state with the same list, marks and kinds of entry has the same shape. */
  lemma SameShape(s: State, s': State, node: EventNode, timer: EventNode, b: Startup)
    requires OneNode(s, node, timer, b)
    requires Inv(s') && s'.status == s.status && s'.order == s.order
      && s'.build == s.build && NoMarks(s') && IsIot(s', node)
    requires forall p :: p in s.order && p != node ==> p in s.nodes && p in s'.nodes && s'.nodes[p] == s.nodes[p]
    ensures OneNode(s', node, timer, b)
  {
    hide Inv, NoMarks;
    assert s.order[0] == timer && s.order[2] == b.scan && s.order[3] == b.pipe && s.order[4] == b.listen;
  }

  lemma OthersAfterScan(s: State, s': State, node: EventNode, timer: EventNode, b: Startup, clock: Clock, p: EventNode)
    requires OneNode(s, node, timer, b) && ScannedFrom(s, s', 0, clock) && p in s.order
    ensures p in s.nodes && p in s'.nodes && s'.nodes[p].marked == s.nodes[p].marked
    ensures p != node ==> s'.nodes[p] == s.nodes[p]
  {
    hide Inv, NoMarks, ScanNode;
    var j :| 0 <= j < |s.order| && s.order[j] == p;
    assert s'.nodes[s.order[j]] == ScanData(s.nodes[s.order[j]], clock(j).time);
    assert j == 0 || j == 1 || j == 2 || j == 3 || j == 4;
  }

  lemma NodeAfterScan(d: IotData, n: nat, ps: seq<Param>, now: Timespec)
    requires n > 0 && d.requests == Load(n, ps) && d.workState == Free
    ensures var d' := ScanNode(d, now);
      |d'.requests| == n && d'.workState == Busy && HeadSent(d') && d'.requests[0].reqType == SetRequest
  {
  }

  lemma MarksAfterScan(s: State, s': State, node: EventNode, timer: EventNode, b: Startup, clock: Clock)
    requires OneNode(s, node, timer, b) && ScannedFrom(s, s', 0, clock) && s'.nodes.Keys == s.nodes.Keys
    ensures NoMarks(s') && IsIot(s', node) && IotOf(s', node) == ScanNode(IotOf(s, node), clock(1).time)
  {
    hide Inv, ScanNode;
    forall p | p in s'.nodes
      ensures !s'.nodes[p].marked
    {
      assert p in s'.nodes.Keys;
      AllListed(s);
      OthersAfterScan(s, s', node, timer, b, clock, p);
    }
    assert s.order[1] == node;
    assert s'.nodes[s.order[1]] == ScanData(s.nodes[node], clock(1).time) && node in s'.nodes;
  }

  lemma ScanSends(s: State, node: EventNode, timer: EventNode, b: Startup, n: nat, ps: seq<Param>, clock: Clock)
    requires OneNode(s, node, timer, b) && n > 0 && IotOf(s, node).requests == Load(n, ps)
      && IotOf(s, node).workState == Free
    requires !LoadIsEndless(b, ps, clock)
    ensures var s' := Scan(s, 0, clock);
      && OneNode(s', node, timer, b) && |IotOf(s', node).requests| == n && IotOf(s', node).workState == Busy
      && HeadSent(IotOf(s', node)) && IotOf(s', node).requests[0].reqType == SetRequest
  {
    hide Inv, Scan, NoMarks, ScannedFrom, Verdict, Load, ScanNode, HeadSent;
    VerdictOfLoad(s, node, timer, b, n, ps, clock);
    ScanIsPointwise(s, 0, clock);
    ScanKeepsInv(s, 0, clock);
    ScanKeepsRest(s, 0, clock);
    var s' := Scan(s, 0, clock);
    MarksAfterScan(s, s', node, timer, b, clock);
    forall p | p in s.order && p != node
      ensures p in s.nodes && p in s'.nodes && s'.nodes[p] == s.nodes[p]
    {
      OthersAfterScan(s, s', node, timer, b, clock, p);
    }
    SameShape(s, s', node, timer, b);
    NodeAfterScan(IotOf(s, node), n, ps, clock(1).time);
  }

  lemma ScanLabel(s: State, clock: Clock)
    requires s.status == Running && s.todo != [] && s.todo[0] in s.nodes
      && s.nodes[s.todo[0]].data == Plain(WorkScanTimerEvent)
    ensures var e := Visit(ScanExpired(clock)); Scans(s, e) && Fits(s, e)
  {
  }

  /** The turn in which the scan timer has expired. */
  lemma ScanTurn(s: State, node: EventNode, timer: EventNode, b: Startup, n: nat, ps: seq<Param>, clock: Clock)
    requires Loaded(s, node, timer, b, n, ps) && n > 0
    requires !LoadIsEndless(b, ps, clock)
    ensures var es := TurnOf(5, 2, ScanExpired(clock));
      AllFit(s, es) && Waits(Run(s, es), node, timer, b, n)
  {
    hide Inv, NoMarks, AtEntry, Step, Run, AllFit, TurnOf, Scan, Load, Scans, HeadSent;
    EntryOf(s, 2);
    var s1, s2 := s.(todo := s.order[3..]), AtEntry(s, 2);
    var visit := Visit(ScanExpired(clock));
    ScanLabel(s2, clock);
    OneNodeAnywhere(s, node, timer, b, s.order[3..]);
    ScanKeepsRest(s1, 0, clock);
    ScanSends(s1, node, timer, b, n, ps, clock);
    ScanStep(s2, visit);
    TurnEffect(s, 2, ScanExpired(clock));
    OneNodeAnywhere(Scan(s1, 0, clock), node, timer, b, []);
  }

  /** A well-formed SET response without items. */
  const Answer := Object(Value(6), Missing, Missing, Value([]))

  lemma AnswerReleases(s: State, node: EventNode)
    requires IsIot(s, node) && IotOf(s, node).workState == Busy && HeadSent(IotOf(s, node))
      && IotOf(s, node).requests[0].reqType == SetRequest
    ensures exists pubs :: OnMessage(s, node, Answer) == Release(Publish(s, pubs), node)
  {
    var d := IotOf(s, node);
    assert TranslateItems([]) == Some([]);
    assert OnMessage(s, node, Answer) == Release(Publish(s, BroadcastBoth(SetResponse(d.clientId, d.name, []))), node);
  }

  lemma AnswerStep(s: State, node: EventNode)
    requires s.status == Running && s.todo != [] && s.todo[0] == node && IsIot(s, node)
    ensures Fits(s, Visit(NodeMessage(Answer)))
    ensures Step(s, Visit(NodeMessage(Answer))) == OnMessage(s.(todo := s.todo[1..]), node, Answer)
  {
  }

  /** The turn in which the node answers its first request, 257 of which are waiting. */
  lemma AnswerTurn(s: State, node: EventNode, timer: EventNode, b: Startup)
    requires Waits(s, node, timer, b, 257)
    ensures var es := TurnOf(5, 1, NodeMessage(Answer)); var s' := Run(s, es);
      AllFit(s, es) && Waiting(s') == 256 && !s'.armed
  {
    hide *;
    WaitsFacts(s, node, timer, b, 257);
    EntryOf(s, 1);
    var s1 := s.(todo := s.order[2..]);
    OneNodeAnywhere(s, node, timer, b, s.order[2..]);
    WaitingAtOneNode(s1, node, timer, b);
    AnswerLeavesWork(s1, node);
    MessageKeepsRest(s1, node, Answer);
    AnswerStep(AtEntry(s, 1), node);
    TurnEffect(s, 1, NodeMessage(Answer));
  }

  lemma WaitsFacts(s: State, node: EventNode, timer: EventNode, b: Startup, n: nat)
    requires Waits(s, node, timer, b, n)
    ensures OneNode(s, node, timer, b) && s.todo == [] && Inv(s) && NoMarks(s) && s.status == Running
    ensures |s.order| == 5 && s.order[1] == node && IsIot(s, node) && |IotOf(s, node).requests| == n
    ensures var s1 := s.(todo := s.order[2..]);
      && s1.status == Running && s1.nodes == s.nodes && s1.order == s.order && s1.todo == s.order[2..]
      && IsIot(s1, node) && IotOf(s1, node) == IotOf(s, node)
      && IotOf(s1, node).workState == Busy && HeadSent(IotOf(s1, node))
      && IotOf(s1, node).requests[0].reqType == SetRequest
    ensures var s2 := AtEntry(s, 1);
      IsIot(s2, node) && s2.status == Running && s2.nodes == s.nodes
  {
    hide Inv, NoMarks, HeadSent;
  }

  lemma AnswerWithWorkLeft(s: State, node: EventNode, pubs: seq<Publication>)
    requires Inv(s) && Waiting(s) == 257 && IsIot(s, node) && HeadSent(IotOf(s, node)) && s.status == Running
    ensures var s' := Release(Publish(s, pubs), node);
      Waiting(s') == 256 && !s'.armed && s'.status == Running
  {
    hide Inv, Release, Waiting;
    PublishKeepsInv(s, pubs);
    DisarmedWithWorkLeft(Publish(s, pubs), node);
  }

  lemma AnswerLeavesWork(s: State, node: EventNode)
    requires Inv(s) && Waiting(s) == 257 && IsIot(s, node) && s.status == Running
    requires IotOf(s, node).workState == Busy && HeadSent(IotOf(s, node))
      && IotOf(s, node).requests[0].reqType == SetRequest
    ensures var s' := OnMessage(s, node, Answer);
      Waiting(s'.(todo := [])) == 256 && !s'.armed && s'.status == Running
  {
    hide Inv, OnMessage, Release, Total;
    AnswerReleases(s, node);
    var pubs :| OnMessage(s, node, Answer) == Release(Publish(s, pubs), node);
    AnswerWithWorkLeft(s, node, pubs);
  }

  /** From start-up: one connection, 257 requests for it, a scan, one answer. 256 requests are left waiting, and the
      scan timer, which alone would get them sent, is off. */
  lemma OverflowIsReachable(b: Startup, node: EventNode, timer: EventNode, fd: int, timerFd: int, clock: Clock)
    requires GoodStart(b) && Apart(b, node, timer)
    requires Fits(Boot(b), Visit(Accepted(node, timer, fd, timerFd, "n")))
    requires !LoadIsEndless(b, [], clock)
    ensures exists es :: AllFit(Boot(b), es) && Waiting(Run(Boot(b), es)) == 256 && !Run(Boot(b), es).armed
  {
    hide *;
    var s0 := Boot(b);
    LoadedRun(b, node, timer, fd, timerFd, 257, []);
    var es1 :| AllFit(s0, es1) && Loaded(Run(s0, es1), node, timer, b, 257, []);
    var s1 := Run(s0, es1);
    var es2 := TurnOf(5, 2, ScanExpired(clock));
    ScanTurn(s1, node, timer, b, 257, [], clock);
    var s2 := Run(s1, es2);
    var es3 := TurnOf(5, 1, NodeMessage(Answer));
    AnswerTurn(s2, node, timer, b);
    JoinRuns(s1, es2, es3);
    JoinRuns(s0, es1, es2 + es3);
    assert AllFit(s0, es1 + (es2 + es3));
  }

  // ----- a message that is written for ever

  /** The turn in which the scan comes to a message that it writes for ever. */
  lemma EndlessTurn(s: State, node: EventNode, timer: EventNode, b: Startup, n: nat, ps: seq<Param>, clock: Clock)
    requires Loaded(s, node, timer, b, n, ps) && n > 0 && LoadIsEndless(b, ps, clock)
    ensures var es := [LoopTop] + (Skipping(2) + [Visit(ScanExpired(clock))]);
      AllFit(s, es) && Run(s, es).status == Spinning
  {
    hide *;
    LoadedFacts(s, node, timer, b, n, ps);
    var s0, s1, s2 := s.(todo := s.order), AtEntry(s, 2), s.(todo := s.order[3..]);
    var visit := Visit(ScanExpired(clock));
    Turns(s);
    SkipMany(s0, 2);
    EntryOf(s, 2);
    OneNodeAnywhere(s, node, timer, b, s.order[3..]);
    ScanLabel(s1, clock);
    ScanStep(s1, visit);
    ScanIsPointwise(s2, 0, clock);
    VerdictOfLoad(s2, node, timer, b, n, ps, clock);
    SingleRun(s1, visit);
    SingleRun(s, LoopTop);
    JoinRuns(s0, Skipping(2), [visit]);
    JoinRuns(s, [LoopTop], Skipping(2) + [visit]);
  }

  lemma LoadedFacts(s: State, node: EventNode, timer: EventNode, b: Startup, n: nat, ps: seq<Param>)
    requires Loaded(s, node, timer, b, n, ps)
    ensures OneNode(s, node, timer, b) && s.todo == [] && Inv(s) && NoMarks(s) && s.status == Running && |s.order| == 5
    ensures s.order[2] in s.nodes && s.nodes[s.order[2]].data == Plain(WorkScanTimerEvent)
    ensures var s2 := s.(todo := s.order[3..]);
      IsIot(s2, node) && IotOf(s2, node).requests == Load(n, ps) && IotOf(s2, node).workState == Free
  {
    hide NoMarks, Load;
  }

  /** From start-up: one connection, one SET request for it whose text has one of the endless sizes, and a scan. The
      main thread writes that message for ever. */
  lemma EndlessSendIsReachable(b: Startup, node: EventNode, timer: EventNode, fd: int, timerFd: int, ps: seq<Param>,
    clock: Clock)
    requires GoodStart(b) && Apart(b, node, timer)
    requires Fits(Boot(b), Visit(Accepted(node, timer, fd, timerFd, "n")))
    requires LoadIsEndless(b, ps, clock)
    ensures exists es :: AllFit(Boot(b), es) && Run(Boot(b), es).status == Spinning
  {
    hide *;
    LoadedRun(b, node, timer, fd, timerFd, 1, ps);
    var es1 :| AllFit(Boot(b), es1) && Loaded(Run(Boot(b), es1), node, timer, b, 1, ps);
    var s1 := Run(Boot(b), es1);
    var es2 := [LoopTop] + (Skipping(2) + [Visit(ScanExpired(clock))]);
    EndlessTurn(s1, node, timer, b, 1, ps, clock);
    JoinRuns(Boot(b), es1, es2);
    assert AllFit(Boot(b), es1 + es2);
  }

  /** One parameter with a value of 151 characters. */
  function LongLoad(): seq<Param> {
    [Param("1", Some(seq(151, _ => 'x')))]
  }

  lemma LongLoadIsEndless(b: Startup, clock: Clock)
    requires PrintsJson(b.build)
    ensures LoadIsEndless(b, LongLoad(), clock)
  {
    hide JsonText;
    var value := seq(151, _ => 'x');
    assert WireSet(LongLoad()) == [WireItem("1", Some(value))];
    OneValueIsEndlessIff("app", "1", value, clock(1).eintr, b.build.signedChar);
  }

  /** With the JSON text that the program prints, that SET request is enough, whether char is signed or not. */
  lemma JsonSendIsEndless(b: Startup, node: EventNode, timer: EventNode, fd: int, timerFd: int)
    requires GoodStart(b) && Apart(b, node, timer) && PrintsJson(b.build)
    requires Fits(Boot(b), Visit(Accepted(node, timer, fd, timerFd, "n")))
    ensures exists es :: AllFit(Boot(b), es) && Run(Boot(b), es).status == Spinning
  {
    hide *;
    var clock := (i: nat) => Reading(Timespec(0, 0), false);
    LongLoadIsEndless(b, clock);
    EndlessSendIsReachable(b, node, timer, fd, timerFd, LongLoad(), clock);
  }
}

/** try_do_some_work as a whole: what one scan does to each node, looking at that node only, and when it ends the
    process. */
module GatewayScan {
  import opened Common
  import opened GatewayTypes
  import opened GatewaySpec
  import opened GatewayInvariant

  // ----- the time test

  ghost predicate Normalised(t: Timespec) {
    0 <= t.nsec < 1_000_000_000
  }

  /** now is at least 20 seconds after since, second by second. */
  ghost predicate TwentySecondsAfter(since: Timespec, now: Timespec) {
    now.sec > since.sec + 20 || (now.sec == since.sec + 20 && now.nsec >= since.nsec)
  }

  /** The scaled difference test is the lexicographic one on normalised times. */
  lemma TimeTestIsLexicographic(since: Timespec, now: Timespec)
    requires Normalised(since) && Normalised(now)
    ensures TimedOut(since, now) <==> TwentySecondsAfter(since, now)
  {
  }

  // ----- one scan, node by node

  /** What a scan does to one node, looking at nothing else. */
  function ScanNode(d: IotData, now: Timespec): IotData {
    if d.workState.Busy? then
      if d.requests != [] && TimedOut(d.requests[0].timestamp, now) then DropHead(d).(workState := Free) else d
    else if d.requests == [] then d
    else SendHead(d, now)
  }

  function ScanData(n: NodeData, now: Timespec): NodeData {
    if n.data.Iot? then n.(data := Iot(ScanNode(n.data.iot, now))) else n
  }

  /** Free although its head is out: the node sendNodeMessage asserts not to meet. */
  ghost predicate Stuck(n: NodeData) {
    n.data.Iot? && n.data.iot.workState == Free && HeadSent(n.data.iot)
  }

  /** The scan is about to send a message whose text is written for ever. */
  ghost predicate SendsEndless(build: Build, n: NodeData, now: Reading) {
    n.data.Iot? && n.data.iot.workState == Free && n.data.iot.requests != []
      && EndlessAt(build, n.data.iot.requests[0], now)
  }

  /** What becomes of the process when the scan comes to this entry. */
  ghost function NodeVerdict(build: Build, n: NodeData, now: Reading): Status {
    if build.asserts && Stuck(n) then Halted
    else if SendsEndless(build, n, now) then Spinning
    else Running
  }

  lemma ScanOneEffect(s: State, p: EventNode, now: Reading)
    requires Inv(s) && s.status == Running && p in s.nodes
    ensures var s' := ScanOne(s, p, now);
      && s'.order == s.order && s'.build == s.build && s'.nodes.Keys == s.nodes.Keys
      && s'.status == NodeVerdict(s.build, s.nodes[p], now)
      && s'.nodes == if s'.status == Running then s.nodes[p := ScanData(s.nodes[p], now.time)] else s.nodes
  {
    hide Inv, Release, Send, ScanData, NodeVerdict;
    KeysKept(s.nodes, p, ScanData(s.nodes[p], now.time));
    if IsIot(s, p) {
      QueueAt(s, p);
      var d := IotOf(s, p);
      if d.workState.Busy? {
        if TimedOut(d.requests[0].timestamp, now.time) {
          ReleaseIsItsStep(s, p, now);
        } else {
          StaysAsItIs(s, p, now);
        }
      } else if d.requests != [] {
        SendIsItsStep(s, p, now);
      } else {
        StaysAsItIs(s, p, now);
      }
    } else {
      StaysAsItIs(s, p, now);
    }
  }

  lemma KeysKept<K, V>(m: map<K, V>, k: K, v: V)
    requires k in m
    ensures m[k := v].Keys == m.Keys
    ensures m[k] == v ==> m[k := v] == m
  {
  }

  lemma StaysAsItIs(s: State, p: EventNode, now: Reading)
    requires p in s.nodes
    requires IsIot(s, p) ==> var d := IotOf(s, p);
      d.requests == [] || (d.workState.Busy? && !TimedOut(d.requests[0].timestamp, now.time))
    ensures ScanData(s.nodes[p], now.time) == s.nodes[p] && NodeVerdict(s.build, s.nodes[p], now) == Running
  {
  }

  lemma ReleaseIsItsStep(s: State, p: EventNode, now: Reading)
    requires IsIot(s, p) && IotOf(s, p).workState.Busy? && IotOf(s, p).requests != []
    requires TimedOut(IotOf(s, p).requests[0].timestamp, now.time)
    ensures var s' := Release(s, p);
      && s'.order == s.order && s'.build == s.build && s'.status == s.status
      && s'.nodes == s.nodes[p := ScanData(s.nodes[p], now.time)] && NodeVerdict(s.build, s.nodes[p], now) == Running
  {
    ReleaseIsUpdate(s, p);
    hide Release, DropHead;
  }

  lemma SendIsItsStep(s: State, p: EventNode, now: Reading)
    requires IsIot(s, p) && !IotOf(s, p).workState.Busy? && s.status == Running && IotOf(s, p).requests != []
    requires IotOf(s, p).requests[0].reqType.HelloRequest? || IotOf(s, p).requests[0].data.Some?
    requires IotOf(s, p).requests[0].status != RequestPending ==> IotOf(s, p).requests[0].status == RequestSent
    ensures var s' := Send(s, p, now);
      && s'.order == s.order && s'.build == s.build
      && s'.status == NodeVerdict(s.build, s.nodes[p], now)
      && s'.nodes == if s'.status == Running then s.nodes[p := ScanData(s.nodes[p], now.time)] else s.nodes
  {
    hide SendHead, EndlessAt;
  }

  /** What becomes of the process when the scan goes on from the i-th entry. */
  ghost function Verdict(s: State, i: nat, clock: Clock): Status
    decreases |s.order| - i
  {
    if i >= |s.order| || s.order[i] !in s.nodes then Running
    else
      var v := NodeVerdict(s.build, s.nodes[s.order[i]], clock(i));
      if v != Running then v else Verdict(s, i + 1, clock)
  }

  /** The j-th entry is the first, from the i-th on, at which the process ends, and this is how. */
  ghost predicate EndsAt(s: State, i: nat, clock: Clock, j: nat, st: Status) {
    && i <= j < |s.order| && s.order[j] in s.nodes && NodeVerdict(s.build, s.nodes[s.order[j]], clock(j)) == st
    && forall k :: i <= k < j ==>
         s.order[k] in s.nodes && NodeVerdict(s.build, s.nodes[s.order[k]], clock(k)) == Running
  }

  lemma {:induction false} VerdictIff(s: State, i: nat, clock: Clock, st: Status)
    requires st != Running && forall j :: 0 <= j < |s.order| ==> s.order[j] in s.nodes
    ensures Verdict(s, i, clock) == st <==> exists j: nat :: EndsAt(s, i, clock, j, st)
    ensures Verdict(s, i, clock) != Undefined
    decreases |s.order| - i
  {
    if i < |s.order| {
      var next := i + 1;
      VerdictIff(s, next, clock, st);
      if NodeVerdict(s.build, s.nodes[s.order[i]], clock(i)) == Running {
        if j: nat :| EndsAt(s, next, clock, j, st) {
          assert EndsAt(s, i, clock, j, st);
        }
        if j: nat :| EndsAt(s, i, clock, j, st) {
          assert j != i && EndsAt(s, next, clock, j, st);
        }
      } else if Verdict(s, i, clock) == st {
        assert EndsAt(s, i, clock, i, st);
      }
    }
  }

  lemma {:induction false} VerdictSame(s: State, s1: State, i: nat, clock: Clock)
    requires s1.order == s.order && s1.build == s.build
    requires forall j :: i <= j < |s.order| ==>
      s.order[j] in s.nodes && s.order[j] in s1.nodes && s1.nodes[s.order[j]] == s.nodes[s.order[j]]
    ensures Verdict(s1, i, clock) == Verdict(s, i, clock)
    decreases |s.order| - i
  {
    hide NodeVerdict;
    if i < |s.order| {
      VerdictSame(s, s1, i + 1, clock);
    }
  }

  /** The entries before i are as they were, the others have made their own step. */
  ghost predicate ScannedFrom(s: State, s': State, i: nat, clock: Clock) {
    forall j :: 0 <= j < |s.order| ==> (
      && s.order[j] in s.nodes && s.order[j] in s'.nodes
      && s'.nodes[s.order[j]] == if j < i then s.nodes[s.order[j]] else ScanData(s.nodes[s.order[j]], clock(j).time))
  }

  lemma ScannedStep(s: State, s1: State, i: nat, clock: Clock)
    requires Distinct(s.order) && i < |s.order| && (forall j :: 0 <= j < |s.order| ==> s.order[j] in s.nodes)
    requires s1.order == s.order && s1.build == s.build
    requires s1.nodes == s.nodes[s.order[i] := ScanData(s.nodes[s.order[i]], clock(i).time)]
    ensures forall s': State :: ScannedFrom(s1, s', i + 1, clock) ==> ScannedFrom(s, s', i, clock)
    ensures Verdict(s1, i + 1, clock) == Verdict(s, i + 1, clock)
  {
    hide ScanData, Verdict;
    assert forall j :: 0 <= j < |s.order| && j != i ==> s.order[j] != s.order[i];
    assert forall j :: i < j < |s.order| && s.order[j] in s.nodes ==> s1.nodes[s.order[j]] == s.nodes[s.order[j]];
    VerdictSame(s, s1, i + 1, clock);
  }

  lemma AllListed(s: State)
    requires Inv(s)
    ensures Distinct(s.order) && (forall j :: 0 <= j < |s.order| ==> s.order[j] in s.nodes)
      && (forall p :: p in s.nodes ==> p in s.order)
  {
  }

  lemma ScanUnfolds(s: State, i: nat, clock: Clock)
    requires forall j :: 0 <= j < |s.order| ==> s.order[j] in s.nodes
    ensures s.status != Running || i >= |s.order| ==> Scan(s, i, clock) == s
    ensures i >= |s.order| ==> Verdict(s, i, clock) == Running && ScannedFrom(s, s, i, clock)
    ensures i < |s.order| ==> var v := NodeVerdict(s.build, s.nodes[s.order[i]], clock(i));
      && (s.status == Running ==> Scan(s, i, clock) == Scan(ScanOne(s, s.order[i], clock(i)), i + 1, clock))
      && Verdict(s, i, clock) == if v != Running then v else Verdict(s, i + 1, clock)
  {
  }

  /** The in-place scan is the node-by-node one: the first entry at which the process ends decides how, and if there
      is none every entry ahead has made its own step. */
  lemma {:induction false} ScanIsPointwise(s: State, i: nat, clock: Clock)
    requires Inv(s) && s.status == Running
    ensures var s' := Scan(s, i, clock);
      && s'.status == Verdict(s, i, clock)
      && s'.order == s.order && s'.build == s.build && s'.nodes.Keys == s.nodes.Keys
      && (s'.status == Running ==> ScannedFrom(s, s', i, clock))
    decreases |s.order| - i
  {
    hide *;
    AllListed(s);
    ScanUnfolds(s, i, clock);
    if i < |s.order| {
      var p := s.order[i];
      ScanOneEffect(s, p, clock(i));
      ScanOneKeepsInv(s, p, clock(i));
      var s1 := ScanOne(s, p, clock(i));
      if s1.status == Running {
        ScannedStep(s, s1, i, clock);
        ScanIsPointwise(s1, i + 1, clock);
      } else {
        AllListed(s1);
        ScanUnfolds(s1, i + 1, clock);
      }
    }
  }

  /** How a scan ends the process, exactly: at the first entry, in list order, that is stuck in a LOG_ENABLE build or
      sends an endless message. */
  lemma ScanOutcome(s: State, clock: Clock, st: Status)
    requires Inv(s) && s.status == Running && st != Running
    ensures Scan(s, 0, clock).status == st <==> exists j: nat :: EndsAt(s, 0, clock, j, st)
    ensures Scan(s, 0, clock).status != Undefined
  {
    hide *;
    AllListed(s);
    ScanIsPointwise(s, 0, clock);
    VerdictIff(s, 0, clock, st);
  }

  /** A scan that meets a stuck node ends a LOG_ENABLE process, one way or the other; without endless messages it
      halts it. */
  lemma StuckNodeEndsScan(s: State, clock: Clock, p: EventNode)
    requires Inv(s) && s.status == Running && s.build.asserts && p in s.nodes && Stuck(s.nodes[p])
    ensures Scan(s, 0, clock).status == Halted || Scan(s, 0, clock).status == Spinning
    ensures (forall q, j: nat :: q in s.nodes ==> !SendsEndless(s.build, s.nodes[q], clock(j))) ==>
      Scan(s, 0, clock).status == Halted
  {
    hide Inv, Scan, Stuck, SendsEndless;
    AllListed(s);
    ScanIsPointwise(s, 0, clock);
    var j :| 0 <= j < |s.order| && s.order[j] == p;
    SomeVerdict(s, 0, clock, j);
  }

  lemma {:induction false} SomeVerdict(s: State, i: nat, clock: Clock, j: nat)
    requires i <= j < |s.order| && (forall k :: 0 <= k < |s.order| ==> s.order[k] in s.nodes)
    requires NodeVerdict(s.build, s.nodes[s.order[j]], clock(j)) == Halted
    ensures Verdict(s, i, clock) == Halted || Verdict(s, i, clock) == Spinning
    ensures (forall q, k: nat :: q in s.nodes ==> !SendsEndless(s.build, s.nodes[q], clock(k))) ==>
      Verdict(s, i, clock) == Halted
    decreases |s.order| - i
  {
    hide Stuck, SendsEndless;
    if i < j {
      SomeVerdict(s, i + 1, clock, j);
    }
  }

  lemma ScanStep(s: State, e: Label)
    requires Scans(s, e)
    ensures Step(s, e) == Scan(s.(todo := s.todo[1..]), 0, e.input.clock)
  {
  }

  /** The step is a scan. */
  ghost predicate Scans(s: State, e: Label) {
    && s.status == Running && e.Visit? && e.input.ScanExpired?
    && s.todo != [] && s.todo[0] in s.nodes && s.nodes[s.todo[0]].data == Plain(WorkScanTimerEvent)
  }
}

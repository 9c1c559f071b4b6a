/** The hello protocol over runs: a node that stays silent is given up on its fourth timer firing. */
module GatewayHello {
  import opened Common
  import opened GatewayTypes
  import opened GatewaySpec
  import opened GatewayInvariant

  ghost predicate Alive(s: State, p: EventNode) {
    IsIot(s, p) && !s.nodes[p].marked
  }

  /** The step is a firing of the hello timer of p. */
  ghost predicate Fires(s: State, e: Label, p: EventNode) {
    && s.status == Running && e == Visit(TimerExpired)
    && s.todo != [] && IsTimer(s, s.todo[0]) && s.nodes[s.todo[0]].data.owner == Some(p)
  }

  /** The step is not a word from p: neither a HELLO nor a closed connection. */
  ghost predicate SilentStep(s: State, e: Label, p: EventNode) {
    s.todo != [] && s.todo[0] == p && e.Visit? ==>
      !e.input.NodeClosed?
        && !(e.input.NodeMessage? && Numbered(e.input.msg, 2))
  }

  ghost predicate Silent(s: State, es: seq<Label>, p: EventNode)
    decreases |es|
  {
    es != [] ==> SilentStep(s, es[0], p) && Silent(Step(s, es[0]), es[1..], p)
  }

  /** The firings of p's hello timer along a run. */
  ghost function Firings(s: State, es: seq<Label>, p: EventNode): nat
    decreases |es|
  {
    if es == [] then 0 else (if Fires(s, es[0], p) then 1 else 0) + Firings(Step(s, es[0]), es[1..], p)
  }

  ghost predicate StaysAlive(s: State, es: seq<Label>, p: EventNode)
    decreases |es|
  {
    Alive(s, p) && (es != [] ==> StaysAlive(Step(s, es[0]), es[1..], p))
  }

  /** The countdown and the mark of p are left alone, and p has not said HELLO. */
  ghost predicate Calm(s: State, s': State, p: EventNode) {
    IsIot(s, p) ==>
      IsIot(s', p) && s'.nodes[p].marked == s.nodes[p].marked && IotOf(s', p).helloCount == IotOf(s, p).helloCount
      && IotOf(s', p).hist.greeted == IotOf(s, p).hist.greeted
  }

  lemma ScanOneIsCalm(s: State, q: EventNode, now: Reading, p: EventNode)
    ensures Calm(s, ScanOne(s, q, now), p) && ScanOne(s, q, now).order == s.order
  {
  }

  lemma {:induction false} ScanIsCalm(s: State, i: nat, clock: Clock, p: EventNode)
    ensures Calm(s, Scan(s, i, clock), p)
    decreases |s.order| - i
  {
    if s.status == Running && i < |s.order| {
      ScanOneIsCalm(s, s.order[i], clock(i), p);
      hide ScanOne;
      ScanIsCalm(ScanOne(s, s.order[i], clock(i)), i + 1, clock, p);
    }
  }

  lemma {:induction false} DispatchIsCalm(s: State, k: nat, found: bool, clear: bool, p: EventNode)
    requires k <= |s.work|
    ensures Calm(s, DispatchFrom(s, k, found, clear), p)
    decreases |s.work| - k
  {
    if k < |s.work| && s.work[k].data.Some? {
      var r := s.work[k];
      var rest := s.(work := s.work[..k] + s.work[k + 1..]);
      match MatchOf(s, r)
      case Some(q) =>
        assert Calm(s, Enqueue(rest, q, r), p);
        DispatchIsCalm(Enqueue(rest, q, r), k, !clear, clear, p);
      case None =>
        if found {
          DispatchIsCalm(s, k + 1, found && !clear, clear, p);
        } else {
          DispatchIsCalm(Publish(rest, [ErrorReply(r)]), k, false, clear, p);
        }
    }
  }

  lemma ReleaseIsCalm(s: State, q: EventNode, pubs: seq<Publication>, p: EventNode)
    requires IsIot(s, q) && IotOf(s, q).requests != []
    ensures Calm(s, Release(Publish(s, pubs), q), p)
  {
  }

  lemma ResponseIsCalm(s: State, q: EventNode, arr: Field<seq<RespItem>>, p: EventNode)
    requires IsIot(s, q)
    ensures Calm(s, OnGetResp(s, q, arr), p) && Calm(s, OnSetResp(s, q, arr), p) && Calm(s, OnNotif(s, q, arr), p)
  {
    var d := IotOf(s, q);
    if Translate(arr).Some? && d.requests != [] {
      ReleaseIsCalm(s, q, BroadcastBoth(SetResponse(d.clientId, d.name, Translate(arr).value)), p);
      if d.requests[0].data.Some? {
        var to := d.requests[0].data.value;
        ReleaseIsCalm(s, q,
          [Publication(ToClient(to.sender), to.broker, GetResponse(d.clientId, d.name, Translate(arr).value))], p);
      }
    }
    hide Translate, Release, ResponseGuard;
  }

  lemma HelloIsCalmForOthers(s: State, q: EventNode, p: EventNode)
    requires IsIot(s, q) && q != p
    ensures Calm(s, OnHello(s, q), p)
  {
  }

  /** A message other than HELLO is calm; a HELLO is calm for every other node. */
  lemma MessageIsCalm(s: State, q: EventNode, m: IotMsg, p: EventNode)
    requires IsIot(s, q) && IotOf(s, q).capsNum == |IotOf(s, q).caps| % 256
    requires q == p ==> !Numbered(m, 2)
    ensures Calm(s, OnMessage(s, q, m), p)
  {
    hide OnHello, OnCaps, OnGetResp, OnSetResp, OnNotif;
    if m.Object? {
      ResponseIsCalm(s, q, m.reqArray, p);
      CapsEffect(s, q, m.name, m.caps);
      if q != p {
        HelloIsCalmForOthers(s, q, p);
      }
    }
  }

  /** Only the halves of the closed pair are touched. */
  lemma CloseIsCalm(s: State, q: EventNode, p: EventNode)
    requires Paired(s.nodes) && IsIot(s, q) && q != p
    ensures Calm(s, OnClosed(s, q), p)
  {
    assert PairedAt(s.nodes, q);
  }

  /** The hello timer of another node. */
  lemma OtherFiringIsCalm(s: State, t: EventNode, p: EventNode)
    requires IsTimer(s, t) && s.nodes[t].data.owner != Some(p)
    ensures Calm(s, OnTimer(s, t), p)
  {
  }

  /** A firing at zero marks both halves; an earlier one puts one HELLO request into the queue and counts down. */
  lemma FiringEffect(s: State, e: Label, t: EventNode, p: EventNode)
    requires Fires(s, e, p) && t == s.todo[0] && Alive(s, p)
    ensures var s', d := Step(s, e), IotOf(s, p);
      if d.helloCount == 0 then
        !Alive(s', p) && p in s'.nodes && s'.nodes[p].marked && s'.nodes[t].marked
      else
        && Alive(s', p) && IotOf(s', p).helloCount == d.helloCount - 1 && IotOf(s', p).hist.greeted == d.hist.greeted
        && IotOf(s', p).hist.enqueued == d.hist.enqueued + [Body(HelloRequest, None)]
  {
  }

  lemma VisitOfSilent(s: State, q: EventNode, i: Input, p: EventNode)
    requires Inv(s) && Alive(s, p) && q in s.nodes && Fits(s, Visit(i))
    requires IsTimer(s, q) && i.TimerExpired? ==> s.nodes[q].data.owner != Some(p)
    requires q == p ==> !i.NodeClosed? && !(i.NodeMessage? && Numbered(i.msg, 2))
    ensures Calm(s, OnVisit(s, q, i), p)
  {
    assert Paired(s.nodes) && (IsIot(s, q) ==> NodeOk(s.build.asserts, s.nodes[q].marked, IotOf(s, q)));
    hide Inv, Paired, OnMessage, OnClosed, OnTimer, DispatchFrom, Scan, ParseMsgType;
    match s.nodes[q].data
    case Iot(_) =>
      if i.NodeMessage? {
        MessageIsCalm(s, q, i.msg, p);
      } else if i.NodeClosed? {
        CloseIsCalm(s, q, p);
      }
    case Timer(_) =>
      if i.TimerExpired? {
        OtherFiringIsCalm(s, q, p);
      }
    case Plain(t) =>
      if i.ScanExpired? {
        ScanIsCalm(s, 0, i.clock, p);
      } else if i.WorkSignal? {
        DispatchIsCalm(s, 0, false, false, p);
      }
  }

  /** One step against a silent, live node. It dies exactly when its timer fires at zero, which is after three
      firings and three HELLO requests put into its queue; otherwise the countdown moves with the firings. */
  lemma SilentStepEffect(s: State, e: Label, p: EventNode)
    requires Inv(s) && Fits(s, e) && Alive(s, p) && SilentStep(s, e, p)
    ensures Alive(Step(s, e), p) <==> !(Fires(s, e, p) && IotOf(s, p).helloCount == 0)
    ensures Alive(Step(s, e), p) ==>
      && IotOf(Step(s, e), p).helloCount == IotOf(s, p).helloCount - (if Fires(s, e, p) then 1 else 0)
      && IotOf(Step(s, e), p).hist.greeted == IotOf(s, p).hist.greeted
    ensures Fires(s, e, p) && IotOf(s, p).helloCount == 0 ==>
      Hellos(IotOf(s, p).hist.enqueued) == IotOf(s, p).hist.greeted + 3 && IotOf(s, p).hist.fires == 3
  {
    assert HelloOk(s.nodes[p].marked, IotOf(s, p));
    if s.status == Running {
      if e.LoopTop? {
        if s.todo == [] {
          LoopTopKeepsInv(s);
        }
      } else if e.Visit? && s.todo != [] {
        var q := s.todo[0];
        var s1 := s.(todo := s.todo[1..]);
        AdvanceKeepsInv(s);
        assert q in s.nodes;
        hide Inv, OnVisit;
        if Fires(s, e, p) {
          FiringEffect(s, e, q, p);
        } else {
          VisitOfSilent(s1, q, e.input, p);
        }
      }
    }
  }

  /** A silent node stays alive exactly as long as its timer has not fired more often than the countdown
      says: a node that has just connected or said HELLO (count 3) dies on the fourth firing. Until then every
      firing, and nothing else, has put one HELLO request into its queue. */
  lemma {:induction false} SilentNodeCountdown(s: State, es: seq<Label>, p: EventNode)
    requires Inv(s) && AllFit(s, es) && Alive(s, p) && Silent(s, es, p)
    ensures StaysAlive(s, es, p) <==> Firings(s, es, p) <= IotOf(s, p).helloCount
    ensures StaysAlive(s, es, p) ==>
      && Alive(Run(s, es), p)
      && IotOf(Run(s, es), p).helloCount == IotOf(s, p).helloCount - Firings(s, es, p)
      && IotOf(Run(s, es), p).hist.greeted == IotOf(s, p).hist.greeted
      && Hellos(IotOf(Run(s, es), p).hist.enqueued) == Hellos(IotOf(s, p).hist.enqueued) + Firings(s, es, p)
    decreases |es|
  {
    HellosOfAlive(s, p);
    if es != [] {
      var e := es[0];
      StepKeepsInv(s, e);
      SilentStepEffect(s, e, p);
      hide Inv, Step, Fires;
      if Alive(Step(s, e), p) {
        SilentNodeCountdown(Step(s, e), es[1..], p);
      }
    }
  }

  lemma HellosOfAlive(s: State, p: EventNode)
    requires Inv(s) && Alive(s, p)
    ensures var d := IotOf(s, p);
      && d.helloCount + d.hist.fires == 3
      && Hellos(d.hist.enqueued) == d.hist.greeted + d.hist.fires
  {
    assert HelloOk(s.nodes[p].marked, IotOf(s, p));
  }

  /** The countdown law in every reachable state: what hello_count lacks to 3 is the number of firings, and of HELLO
      requests put into the queue, since the node connected or last said HELLO. */
  lemma CountdownOnRuns(b: Startup, es: seq<Label>, p: EventNode)
    requires GoodStart(b) && AllFit(Boot(b), es) && Alive(Run(Boot(b), es), p)
    ensures var d := IotOf(Run(Boot(b), es), p);
      && 0 <= d.helloCount <= 3 && d.helloCount + d.hist.fires == 3
      && Hellos(d.hist.enqueued) == d.hist.greeted + (3 - d.helloCount)
  {
    ReachedInv(b, es);
    HellosOfAlive(Run(Boot(b), es), p);
  }
}

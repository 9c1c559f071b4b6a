/** Who is answered: over every run, what goes to a client goes to the sender of a request that has arrived, by the
    broker the request came by. */
module GatewayReplies {
  import opened Common
  import opened GatewayTypes
  import opened GatewaySpec
  import opened GatewayInvariant
  import opened GatewayDispatch
  import opened GatewayEffects
  import opened GatewayOrigin
  import opened MqttIntake

  /** What is published is for all listeners, or it is a reply to the sender of one of the requests, by its own broker:
      an answer of a node, or that there is no node with the name that was asked for. */
  ghost predicate Owed(pub: Publication, known: set<Body>) {
    && (pub.topic == Topic.Broadcast <==> !pub.msg.GetResponse? && !pub.msg.NodeNotFound?)
    && (pub.topic != Topic.Broadcast ==>
          exists b :: b in known && b.data.Some?
            && pub.topic == ToClient(b.data.value.sender) && pub.broker == b.data.value.broker
            && (pub.msg.NodeNotFound? ==> pub.msg == NodeNotFound(b.data.value.nodeName)))
  }

  ghost predicate AllOwed(pubs: seq<Publication>, known: set<Body>) {
    forall pub :: pub in pubs ==> Owed(pub, known)
  }

  /** The step adds only what is owed. */
  ghost predicate AddsOwed(s: State, s': State, known: set<Body>) {
    exists pubs :: s'.published == s.published + pubs && AllOwed(pubs, known)
  }

  lemma AddsNothing(s: State, s': State, known: set<Body>)
    requires s'.published == s.published
    ensures AddsOwed(s, s', known)
  {
    assert s'.published == s.published + [] && AllOwed([], known);
  }

  lemma AddsAnnouncement(s: State, s': State, msg: MqttMsg, known: set<Body>)
    requires Announces(s, s', msg) && !msg.GetResponse? && !msg.NodeNotFound?
    ensures AddsOwed(s, s', known)
  {
    assert AllOwed([Publication(Topic.Broadcast, RemoteClient, msg), Publication(Topic.Broadcast, LocalClient, msg)],
      known);
  }

  lemma MessageIsOwed(s: State, p: EventNode, m: IotMsg, known: set<Body>)
    requires Inv(s) && s.status == Running && IsIot(s, p) && Within(s, known)
    requires OnMessage(s, p, m).status == Running
    ensures AddsOwed(s, OnMessage(s, p, m), known)
  {
    hide Inv, OnMessage, Within, AddsOwed, Announces, Translate;
    var s', d := OnMessage(s, p, m), IotOf(s, p);
    if s'.published == s.published {
      AddsNothing(s, s', known);
    } else if Numbered(m, 1) {
      CapsMessage(s, p, m);
      AddsAnnouncement(s, s', NodeComingUp(IotOf(s', p).name, IotOf(s', p).caps), known);
    } else if Numbered(m, 2) {
      HelloMessage(s, p, m);
    } else if Numbered(m, 4) {
      GetResponseMessage(s, p, m);
      ReplyIsOwed(s, s', p, Translate(m.reqArray).value, known);
    } else if Numbered(m, 6) {
      SetResponseMessage(s, p, m);
      AddsAnnouncement(s, s', SetResponse(d.clientId, d.name, Translate(m.reqArray).value), known);
    } else {
      OtherMessage(s, p, m);
      AddsAnnouncement(s, s', NotifBroadcast(d.clientId, d.name, Translate(m.reqArray).value), known);
    }
  }

  lemma ReplyIsOwed(s: State, s': State, p: EventNode, items: seq<OutItem>, known: set<Body>)
    requires Inv(s) && IsIot(s, p) && Within(s, known) && IotOf(s, p).requests != []
      && IotOf(s, p).requests[0].data.Some?
    requires var d := IotOf(s, p);
      s'.published ==
        s.published + [Publication(ToClient(d.requests[0].data.value.sender), d.requests[0].data.value.broker,
                                                 GetResponse(d.clientId, d.name, items))]
    ensures AddsOwed(s, s', known)
  {
    var d := IotOf(s, p);
    assert FifoOk(d) by { InvAt(s, p); }
    hide Inv;
    HeadIsKnown(d, known);
    var to := d.requests[0].data.value;
    assert BodyOf(d.requests[0]).data == Some(to);
    assert AllOwed([Publication(ToClient(to.sender), to.broker, GetResponse(d.clientId, d.name, items))], known);
  }

  lemma DispatchIsOwed(s: State, known: set<Body>)
    requires Inv(s) && ListWithin(s.work, known)
    ensures AddsOwed(s, Dispatch(s), known)
  {
    DispatchPartitions(s);
    hide Inv, Dispatch, Delivered, FirstMatch, AllOwed, Errors;
    ErrorsAreOwed(s.work[..FirstMatch(s, s.work)], known);
  }

  lemma ErrorsAreOwed(w: seq<Request>, known: set<Body>)
    requires WithData(w) && ListWithin(w, known)
    ensures AllOwed(Errors(w), known)
  {
    forall i | 0 <= i < |w|
      ensures Owed(Errors(w)[i], known)
    {
      assert BodyOf(w[i]) in known && BodyOf(w[i]).data == w[i].data;
    }
  }

  lemma VisitIsOwed(s: State, p: EventNode, input: Input, known: set<Body>)
    requires Inv(s) && s.status == Running && p in s.nodes && (IsTimer(s, p) ==> s.nodes[p].data.owner.Some?)
    requires Within(s, known) && OnVisit(s, p, input).status == Running
    ensures AddsOwed(s, OnVisit(s, p, input), known)
  {
    hide Inv, AddsOwed, OnMessage, OnClosed, OnTimer, Scan, Dispatch, Announces, NodeWithin;
    var s' := OnVisit(s, p, input);
    if s'.published == s.published {
      AddsNothing(s, s', known);
    } else {
      match s.nodes[p].data
      case Iot(d) =>
        if input.NodeMessage? {
          MessageIsOwed(s, p, input.msg, known);
        } else if input.NodeClosed? {
          CloseEffect(s, p);
          AddsAnnouncement(s, s', NodeGoingDown(d.name), known);
        }
      case Timer(o) =>
        FiringEffect(s, p);
        AddsAnnouncement(s, s', NodeGoingDown(IotOf(s, o.value).name), known);
      case Plain(t) =>
        if t == MqttMsgEvent {
          DispatchIsOwed(s, known);
        } else if t == WorkScanTimerEvent && input.ScanExpired? {
          ScanKeepsRest(s, 0, input.clock);
        }
    }
  }

  lemma StepIsOwed(s: State, e: Label, known: set<Body>)
    requires Inv(s) && s.status == Running && Fits(s, e) && Step(s, e).status == Running && Within(s, known)
    ensures AddsOwed(s, Step(s, e), known)
  {
    hide Inv, AddsOwed, OnVisit, NodeWithin, Gc;
    if e.Visit? && s.todo != [] {
      var s1 := s.(todo := s.todo[1..]);
      AdvanceKeepsInv(s);
      VisitIsOwed(s1, s.todo[0], e.input, known);
      CursorIsNotPublished(s, s.todo[1..], Step(s, e), known);
    } else {
      GcKeepsRest(s, s.order);
      AddsNothing(s, Step(s, e), known);
    }
  }

  lemma CursorIsNotPublished(s: State, todo: seq<EventNode>, s': State, known: set<Body>)
    ensures AddsOwed(s.(todo := todo), s', known) <==> AddsOwed(s, s', known)
  {
  }

  lemma StillOwed(s: State, s': State, known: set<Body>)
    requires AllOwed(s.published, known) && AddsOwed(s, s', known)
    ensures AllOwed(s'.published, known)
  {
  }

  lemma {:induction false} RunIsOwed(s: State, es: seq<Label>, known: set<Body>)
    requires Inv(s) && AllFit(s, es) && Run(s, es).status == Running && Within(s, known) && Known(es) <= known
    requires AllOwed(s.published, known)
    ensures AllOwed(Run(s, es).published, known)
    decreases |es|
  {
    hide Inv, Step, Fits, Within, AllOwed, AddsOwed;
    HelloIsKnown(es);
    if s.status != Running {
      EndedStays(s, es);
    } else if es != [] {
      StepKeepsInv(s, es[0]);
      if Step(s, es[0]).status != Running {
        EndedStays(Step(s, es[0]), es[1..]);
      } else {
        StepStaysWithin(s, es[0], known);
        StepIsOwed(s, es[0], known);
        StillOwed(s, Step(s, es[0]), known);
        RunIsOwed(Step(s, es[0]), es[1..], known);
      }
    }
  }

  /** In every reachable state all that was published is for all listeners, or for the sender of a request that arrived,
      by the broker of that request. */
  lemma OwedOnRuns(b: Startup, es: seq<Label>)
    requires GoodStart(b) && AllFit(Boot(b), es) && Run(Boot(b), es).status == Running
    ensures AllOwed(Run(Boot(b), es).published, Known(es))
  {
    hide Run, AllFit, Known, Within, GoodStart;
    BootInv(b);
    BootWithin(b, Known(es));
    NothingPublished(b, Known(es));
    hide Boot;
    RunIsOwed(Boot(b), es, Known(es));
  }

  lemma NothingPublished(b: Startup, known: set<Body>)
    ensures AllOwed(Boot(b).published, known)
  {
  }

  // ----- from the MQTT message to its reply

  /** The run takes in these messages, each by the broker beside it, and no others. */
  ghost predicate TakesIn(es: seq<Label>, ms: seq<(MqttIn, Broker)>) {
    forall k :: 0 <= k < |es| && es[k].Arrive? ==>
      exists i :: 0 <= i < |ms| && Intake(ms[i].0, ms[i].1) == Some(es[k].request)
  }

  /** Every reply goes to the sender that one of the messages taken in names, by the broker that message came by, and an
      error names the node that message names. */
  lemma RepliesReachTheirSender(b: Startup, es: seq<Label>, ms: seq<(MqttIn, Broker)>, pub: Publication)
    requires GoodStart(b) && AllFit(Boot(b), es) && Run(Boot(b), es).status == Running && TakesIn(es, ms)
    requires pub in Run(Boot(b), es).published && (pub.msg.GetResponse? || pub.msg.NodeNotFound?)
    ensures exists i ::
      && 0 <= i < |ms| && pub.topic.ToClient?
      && (Requests(ms[i].0, 1) || Requests(ms[i].0, 3))
      && ms[i].0.sender == Value(pub.topic.name) && pub.broker == ms[i].1
      && (pub.msg.NodeNotFound? ==> ms[i].0.nodeName == Value(pub.msg.nodeName))
  {
    OwedOnRuns(b, es);
    hide Run, AllFit, Known, Boot, GoodStart, Intake, Requests;
    assert Owed(pub, Known(es));
    var body :| body in Known(es) && body.data.Some? && pub.topic == ToClient(body.data.value.sender)
      && pub.broker == body.data.value.broker
      && (pub.msg.NodeNotFound? ==> pub.msg == NodeNotFound(body.data.value.nodeName));
    KnownMeans(es, body);
    var k :| 0 <= k < |es| && es[k].Arrive? && body == BodyOf(es[k].request);
    var i :| 0 <= i < |ms| && Intake(ms[i].0, ms[i].1) == Some(es[k].request);
    IntakeMeans(ms[i].0, ms[i].1);
  }
}

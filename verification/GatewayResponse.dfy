/** Responses of a node are handled all or nothing, and a GET is answered at most once, to its sender. */
module GatewayResponse {
  import opened Common
  import opened GatewayTypes
  import opened GatewaySpec
  import opened GatewayInvariant
  import opened GatewayDispatch

  /** An item that the translation accepts. */
  ghost predicate WellFormed(item: RespItem) {
    item.capId.Value? && item.value.Value? && !item.uname.WrongType? && !item.timestamp.WrongType?
  }

  /** The item handed on for an accepted one: an absent user name is left out, an absent timestamp is 0. */
  ghost predicate Carries(o: OutItem, item: RespItem) {
    && item.capId == Value(o.id) && item.value == Value(o.value)
    && (if o.uname.Some? then item.uname == Value(o.uname.value) else item.uname.Missing?)
    && (item.timestamp == Value(o.timestamp) || (item.timestamp.Missing? && o.timestamp == 0))
  }

  /** The translation succeeds exactly when every item is well formed, and keeps number and order. */
  lemma {:induction false} TranslationIsAllOrNothing(items: seq<RespItem>)
    ensures TranslateItems(items).Some? <==> forall i :: 0 <= i < |items| ==> WellFormed(items[i])
    ensures TranslateItems(items).Some? ==>
      && |TranslateItems(items).value| == |items|
      && forall i :: 0 <= i < |items| ==> Carries(TranslateItems(items).value[i], items[i])
  {
    if items != [] {
      TranslationIsAllOrNothing(items[1..]);
      assert forall i :: 0 < i < |items| ==> items[i] == items[1..][i - 1];
      if TranslateItems(items).Some? {
        var os := TranslateItems(items[1..]).value;
        assert TranslateItems(items).value[1..] == os;
        forall i | 0 <= i < |items|
          ensures Carries(TranslateItems(items).value[i], items[i])
        {
          if i > 0 {
            assert TranslateItems(items).value[i] == os[i - 1];
          }
        }
      }
    }
  }

  /** The head has been answered: it left the queue, the node is free, and the counter moved. */
  ghost predicate HeadCompleted(s: State, s': State, p: EventNode) {
    && IsIot(s, p) && IsIot(s', p) && IotOf(s, p).requests != []
    && IotOf(s', p).requests == IotOf(s, p).requests[1..]
    && IotOf(s', p).workState == Free
    && s'.count == Dec8(s.count) && Waiting(s') == Waiting(s) - 1
    && (forall q :: q in s.nodes && q != p ==> q in s'.nodes && s'.nodes[q] == s.nodes[q])
  }

  lemma CompletesHead(s: State, p: EventNode, pubs: seq<Publication>)
    requires Inv(s) && IsIot(s, p) && IotOf(s, p).requests != [] && (s.build.asserts ==> HeadSent(IotOf(s, p)))
    ensures HeadCompleted(s, Release(Publish(s, pubs), p), p)
    ensures Release(Publish(s, pubs), p).published == s.published + pubs
  {
    PublishKeepsInv(s, pubs);
    ReleaseKeepsInv(Publish(s, pubs), p);
    ReleaseIsUpdate(Publish(s, pubs), p);
  }

  /** A GET response changes the status only, or nothing at all, or completes the head with exactly one reply,
      carrying every item, to the sender and the broker of that very request. Which of the three is decided by
      the guard and by the items. */
  lemma GetResponseIsAtomic(s: State, p: EventNode, arr: Field<seq<RespItem>>)
    requires Inv(s) && s.status == Running && IsIot(s, p)
    ensures var s', d := OnGetResp(s, p, arr), IotOf(s, p);
      && (s'.status != Running ==> s' == s.(status := s'.status))
      && (s'.status == Running && Translate(arr).None? ==> s' == s)
      && (s'.status == Running && Translate(arr).Some? ==>
            && HeadCompleted(s, s', p) && d.requests[0].data.Some?
            && s'.published == s.published + [Publication(
                 ToClient(d.requests[0].data.value.sender), d.requests[0].data.value.broker,
                 GetResponse(d.clientId, d.name, Translate(arr).value))])
  {
    var d := IotOf(s, p);
    GuardIsDefined(s, p, GetRequest);
    hide Inv, Translate, Release;
    if ResponseGuard(s, d, GetRequest).None? && Translate(arr).Some? && d.requests != [] && d.requests[0].data.Some? {
      var to := d.requests[0].data.value;
      CompletesHead(s, p,
        [Publication(ToClient(to.sender), to.broker, GetResponse(d.clientId, d.name, Translate(arr).value))]);
    }
  }

  /** The same for a SET response, which goes to the broadcast topic of both brokers. */
  lemma SetResponseIsAtomic(s: State, p: EventNode, arr: Field<seq<RespItem>>)
    requires Inv(s) && s.status == Running && IsIot(s, p)
    ensures var s', d := OnSetResp(s, p, arr), IotOf(s, p);
      && (s'.status == Halted ==> s' == Halt(s))
      && (s'.status == Running && Translate(arr).None? ==> s' == s)
      && (s'.status == Running && Translate(arr).Some? ==>
            && HeadCompleted(s, s', p)
            && s'.published == s.published + BroadcastBoth(SetResponse(d.clientId, d.name, Translate(arr).value)))
  {
    var d := IotOf(s, p);
    GuardIsDefined(s, p, SetRequest);
    hide Inv, Translate, Release;
    if ResponseGuard(s, d, SetRequest).None? && Translate(arr).Some? && d.requests != [] {
      CompletesHead(s, p, BroadcastBoth(SetResponse(d.clientId, d.name, Translate(arr).value)));
    }
  }

  // ----- replies over the whole machine

  /** The replies to GET requests among some publications. */
  ghost function Replies(pubs: seq<Publication>): seq<Publication> {
    if pubs == [] then [] else (if pubs[0].msg.GetResponse? then [pubs[0]] else []) + Replies(pubs[1..])
  }

  lemma {:induction false} RepliesConcat(a: seq<Publication>, b: seq<Publication>)
    ensures Replies(a + b) == Replies(a) + Replies(b)
  {
    if a == [] {
      assert a + b == b;
    } else {
      var head := if a[0].msg.GetResponse? then [a[0]] else [];
      assert (a + b)[0] == a[0] && (a + b)[1..] == a[1..] + b;
      RepliesConcat(a[1..], b);
      ConcatAssociates(head, Replies(a[1..]), Replies(b));
    }
  }

  lemma NoReplies(pubs: seq<Publication>)
    requires forall i :: 0 <= i < |pubs| ==> !pubs[i].msg.GetResponse?
    ensures Replies(pubs) == []
  {
  }

  ghost predicate NoNewReply(s: State, s': State) {
    Replies(s'.published) == Replies(s.published)
  }

  lemma AddedNoReply(s: State, s': State, pubs: seq<Publication>)
    requires s'.published == s.published + pubs
    requires forall i :: 0 <= i < |pubs| ==> !pubs[i].msg.GetResponse?
    ensures NoNewReply(s, s')
  {
    RepliesConcat(s.published, pubs);
    NoReplies(pubs);
  }

  /** A GET response step either adds no reply or completes a head with its one reply. */
  ghost predicate OneReply(s: State, s': State, p: EventNode) {
    && HeadCompleted(s, s', p) && IotOf(s, p).requests[0].data.Some?
    && exists m :: Replies(s'.published) == Replies(s.published)
         + [Publication(ToClient(IotOf(s, p).requests[0].data.value.sender), IotOf(s, p).requests[0].data.value.broker,
           m)]
  }

  lemma GetReplies(s: State, p: EventNode, arr: Field<seq<RespItem>>)
    requires Inv(s) && s.status == Running && IsIot(s, p)
    ensures NoNewReply(s, OnGetResp(s, p, arr)) || OneReply(s, OnGetResp(s, p, arr), p)
  {
    var s', d := OnGetResp(s, p, arr), IotOf(s, p);
    GetResponseIsAtomic(s, p, arr);
    hide Inv, Translate, OnGetResp, HeadCompleted;
    if s'.status == Running && Translate(arr).Some? {
      var to := d.requests[0].data.value;
      var pub := Publication(ToClient(to.sender), to.broker, GetResponse(d.clientId, d.name, Translate(arr).value));
      RepliesConcat(s.published, [pub]);
      assert Replies([pub]) == [pub];
    }
  }

  lemma SetReplies(s: State, p: EventNode, arr: Field<seq<RespItem>>)
    requires IsIot(s, p)
    ensures NoNewReply(s, OnSetResp(s, p, arr))
  {
    hide Translate, NoNewReply;
    if Translate(arr).Some? {
      var d := IotOf(s, p);
      var pubs := BroadcastBoth(SetResponse(d.clientId, d.name, Translate(arr).value));
      if OnSetResp(s, p, arr).published == s.published + pubs {
        AddedNoReply(s, OnSetResp(s, p, arr), pubs);
      }
    }
    SamePublished(s, OnSetResp(s, p, arr));
  }

  lemma OtherReplies(s: State, p: EventNode, m: IotMsg)
    requires IsIot(s, p) && m.Object?
    ensures NoNewReply(s, OnHello(s, p)) && NoNewReply(s, OnCaps(s, p, m.name, m.caps))
      && NoNewReply(s, OnNotif(s, p, m.reqArray))
  {
    hide Translate, NoNewReply, AddCaps;
    var d := IotOf(s, p);
    SamePublished(s, OnHello(s, p));
    var s2 := OnCaps(s, p, m.name, m.caps);
    AddedNoReply(s, s2, s2.published[|s.published|..]);
    if Translate(m.reqArray).Some? {
      AddedNoReply(s, OnNotif(s, p, m.reqArray),
        BroadcastBoth(NotifBroadcast(d.clientId, d.name, Translate(m.reqArray).value)));
    } else {
      SamePublished(s, s);
    }
  }

  lemma SamePublished(s: State, s': State)
    ensures s'.published == s.published ==> NoNewReply(s, s')
  {
  }

  lemma MessageReplies(s: State, p: EventNode, m: IotMsg)
    requires Inv(s) && s.status == Running && IsIot(s, p)
    ensures NoNewReply(s, OnMessage(s, p, m)) || OneReply(s, OnMessage(s, p, m), p)
  {
    hide Inv, OnHello, OnCaps, OnGetResp, OnSetResp, OnNotif, NoNewReply, OneReply, ParseMsgType;
    SamePublished(s, s);
    if m.Object? {
      GetReplies(s, p, m.reqArray);
      SetReplies(s, p, m.reqArray);
      OtherReplies(s, p, m);
    }
  }

  /** In every reachable state a step adds at most one reply to a GET, and only together with the completion of
      the request it answers: no request is answered twice, and none to anyone but its sender and broker. */
  lemma ReplyOnlyWithCompletion(s: State, e: Label)
    requires Inv(s) && Fits(s, e)
    ensures NoNewReply(s, Step(s, e))
      || exists p :: p in s.nodes && OneReply(s.(todo := Step(s, e).todo), Step(s, e), p)
  {
    hide Inv, OnVisit, NoNewReply, OneReply, OnLoopTop;
    SamePublished(s, Step(s, e));
    if s.status == Running {
      if e.LoopTop? && s.todo == [] {
        LoopTopPublishesNothing(s);
      } else if e.Visit? && s.todo != [] {
        var s1 := s.(todo := s.todo[1..]);
        AdvanceKeepsInv(s);
        VisitReplies(s1, s.todo[0], e.input);
        SamePublished(s, s1);
        SameReplies(s, s1, Step(s, e));
      }
    }
  }

  lemma LoopTopPublishesNothing(s: State)
    ensures OnLoopTop(s).published == s.published
  {
    GcKeepsRest(s, s.order);
  }

  lemma SameReplies(s: State, s1: State, s': State)
    requires s1.published == s.published
    ensures NoNewReply(s1, s') ==> NoNewReply(s, s')
  {
  }

  lemma VisitReplies(s: State, p: EventNode, input: Input)
    requires Inv(s) && s.status == Running && p in s.nodes && (IsTimer(s, p) ==> s.nodes[p].data.owner.Some?)
    ensures NoNewReply(s, OnVisit(s, p, input)) ||
      (IsIot(s, p) && input.NodeMessage? && OneReply(s, OnVisit(s, p, input), p) && OnVisit(s, p, input).todo == s.todo)
  {
    hide NoNewReply, OneReply, OnMessage, OnClosed, OnTimer, Scan, Dispatch;
    SamePublished(s, OnVisit(s, p, input));
    match s.nodes[p].data
    case Iot(d) =>
      hide Inv;
      if input.NodeMessage? {
        MessageReplies(s, p, input.msg);
        MessageKeepsRest(s, p, input.msg);
      } else if input.NodeClosed? {
        ClosedOrTimerReplies(s, p);
      }
    case Timer(_) =>
      hide Inv;
      if input.TimerExpired? {
        ClosedOrTimerReplies(s, p);
      }
    case Plain(t) =>
      if t == ListenSocket && input.Accepted? {
        SamePublished(s, OnAccept(s, input.node, input.timer, input.fd, input.timerFd, input.junk));
      } else if t == WorkScanTimerEvent && input.ScanExpired? {
        ScanKeepsRest(s, 0, input.clock);
      } else if t == MqttMsgEvent && input.WorkSignal? {
        DispatchReplies(s);
      }
  }

  lemma DispatchReplies(s: State)
    requires Inv(s)
    ensures NoNewReply(s, Dispatch(s))
  {
    DispatchPartitions(s);
    hide Inv, Dispatch, NoNewReply;
    AddedNoReply(s, Dispatch(s), Errors(s.work[..FirstMatch(s, s.work)]));
  }

  lemma ClosedOrTimerReplies(s: State, p: EventNode)
    ensures IsIot(s, p) ==> NoNewReply(s, OnClosed(s, p))
    ensures IsTimer(s, p) ==> NoNewReply(s, OnTimer(s, p))
  {
    hide NoNewReply;
    if IsIot(s, p) {
      AddedNoReply(s, OnClosed(s, p), OnClosed(s, p).published[|s.published|..]);
    } else if IsTimer(s, p) {
      AddedNoReply(s, OnTimer(s, p), OnTimer(s, p).published[|s.published|..]);
    }
  }

  // ----- replies over runs

  /** The request that a message of a node takes off the front of the node's queue, if it does. */
  ghost function Finished(s: State, e: Label): seq<Body> {
    if s.status == Running && e.Visit? && e.input.NodeMessage? && s.todo != [] && IsIot(s, s.todo[0])
      && IsIot(Step(s, e), s.todo[0]) && |IotOf(Step(s, e), s.todo[0]).requests| < |IotOf(s, s.todo[0]).requests|
    then [BodyOf(IotOf(s, s.todo[0]).requests[0])] else []
  }

  ghost function FinishedAlong(s: State, es: seq<Label>): seq<Body>
    decreases |es|
  {
    if es == [] then [] else Finished(s, es[0]) + FinishedAlong(Step(s, es[0]), es[1..])
  }

  /** The reply goes to the sender and the broker of the request. */
  ghost predicate Answers(pub: Publication, b: Body) {
    b.data.Some? && pub.topic == ToClient(b.data.value.sender) && pub.broker == b.data.value.broker
  }

  /** Each reply answers a request of its own, in the order of the requests. */
  ghost predicate AnswersSome(pubs: seq<Publication>, bs: seq<Body>) {
    pubs == []
      || (bs != [] && ((Answers(pubs[0], bs[0]) && AnswersSome(pubs[1..], bs[1..])) || AnswersSome(pubs, bs[1..])))
  }

  lemma StepAnswers(s: State, e: Label)
    requires Inv(s) && Fits(s, e)
    ensures |Finished(s, e)| <= 1
    ensures NoNewReply(s, Step(s, e)) ||
      (|Finished(s, e)| == 1
       && exists pub ::
            Replies(Step(s, e).published) == Replies(s.published) + [pub] && Answers(pub, Finished(s, e)[0]))
  {
    hide Inv, OnVisit, NoNewReply, OneReply, OnLoopTop, Replies;
    SamePublished(s, Step(s, e));
    if s.status == Running {
      if e.LoopTop? && s.todo == [] {
        LoopTopPublishesNothing(s);
      } else if e.Visit? && s.todo != [] {
        var s1 := s.(todo := s.todo[1..]);
        AdvanceKeepsInv(s);
        VisitReplies(s1, s.todo[0], e.input);
        SameReplies(s, s1, Step(s, e));
        if IsIot(s, s.todo[0]) && OneReply(s1, Step(s, e), s.todo[0]) {
          ReplyAnswersHead(s1, Step(s, e), s.todo[0]);
        }
      }
    }
  }

  lemma ReplyAnswersHead(s: State, s': State, p: EventNode)
    requires OneReply(s, s', p)
    ensures IsIot(s, p) && IsIot(s', p) && |IotOf(s', p).requests| < |IotOf(s, p).requests|
    ensures exists pub ::
      Replies(s'.published) == Replies(s.published) + [pub] && Answers(pub, BodyOf(IotOf(s, p).requests[0]))
  {
  }

  /** Over every run the replies to GETs answer, one each and in order, requests that a message of their node has
      taken off its queue: no request is answered twice, and none to anyone but its sender and broker. */
  lemma {:induction false} RepliesAnswerOnce(s: State, es: seq<Label>)
    requires Inv(s) && AllFit(s, es)
    ensures exists pubs ::
      Replies(Run(s, es).published) == Replies(s.published) + pubs && AnswersSome(pubs, FinishedAlong(s, es))
    decreases |es|
  {
    hide Inv, Step, Fits, Finished, Answers, Replies;
    if es == [] {
      assert Replies(s.published) + [] == Replies(s.published) && AnswersSome([], FinishedAlong(s, es));
    } else {
      var s1, done := Step(s, es[0]), Finished(s, es[0]);
      StepKeepsInv(s, es[0]);
      StepAnswers(s, es[0]);
      RepliesAnswerOnce(s1, es[1..]);
      var rest :| Replies(Run(s, es).published) == Replies(s1.published) + rest
        && AnswersSome(rest, FinishedAlong(s1, es[1..]));
      if NoNewReply(s, s1) {
        SkipFinished(rest, done, FinishedAlong(s1, es[1..]));
      } else {
        var pub :| Replies(s1.published) == Replies(s.published) + [pub] && Answers(pub, done[0]);
        assert ([pub] + rest)[1..] == rest && (done + FinishedAlong(s1, es[1..]))[1..] == FinishedAlong(s1, es[1..]);
        assert AnswersSome([pub] + rest, done + FinishedAlong(s1, es[1..]));
        ConcatAssociates(Replies(s.published), [pub], rest);
      }
    }
  }

  lemma SkipFinished(pubs: seq<Publication>, done: seq<Body>, bs: seq<Body>)
    requires |done| <= 1 && AnswersSome(pubs, bs)
    ensures AnswersSome(pubs, done + bs)
  {
    if done == [] {
      assert done + bs == bs;
    } else {
      assert (done + bs)[1..] == bs;
    }
  }
}

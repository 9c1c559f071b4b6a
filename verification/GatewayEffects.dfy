/** What a node's message does, decided by the number it carries; what the end of a connection and a firing of a hello
    timer do; and to whom each of them is announced. */
module GatewayEffects {
  import opened Common
  import opened GatewayTypes
  import opened GatewaySpec
  import opened GatewayInvariant
  import opened GatewayRuns
  import opened GatewayResponse

  /** The topic of all listeners, on the remote broker and then on the local one. */
  ghost predicate Announces(s: State, s': State, msg: MqttMsg) {
    s'.published == s.published
      + [Publication(Topic.Broadcast, RemoteClient, msg), Publication(Topic.Broadcast, LocalClient, msg)]
  }

  // ----- CAPS

  /** A capability of a known type, with a name. */
  ghost predicate KnownCap(c: CapItem) {
    c.capType.Value? && c.capId.Value? && ToInt32(c.capType.v) in {0, 1, 2, 3, 4, 5, 6}
  }

  /** The items up to the first that is not known, last one first, stand before what there was. */
  ghost predicate PutInFront(items: seq<CapItem>, caps: seq<Capability>, caps': seq<Capability>) {
    exists k: nat ::
      && k <= |items| && (forall i :: 0 <= i < k ==> KnownCap(items[i])) && (k < |items| ==> !KnownCap(items[k]))
      && |caps'| == k + |caps| && caps'[k..] == caps
      && forall i :: 0 <= i < k ==>
           caps'[k - 1 - i] == Capability(ToInt32(items[i].capType.v), items[i].capId.v)
  }

  lemma {:induction false} CapsArePutInFront(d: IotData, items: seq<CapItem>)
    ensures PutInFront(items, d.caps, AddCaps(d, items).caps) && AddCaps(d, items).name == d.name
    decreases |items|
  {
    if items == [] || !KnownCap(items[0]) {
      assert d.caps[0..] == d.caps;
    } else {
      var c := Capability(ToInt32(items[0].capType.v), items[0].capId.v);
      var d1 := d.(caps := [c] + d.caps, capsNum := Inc8(d.capsNum));
      CapsArePutInFront(d1, items[1..]);
      FrontGrows(items, c, d.caps, AddCaps(d1, items[1..]).caps);
    }
  }

  lemma FrontGrows(items: seq<CapItem>, c: Capability, caps: seq<Capability>, caps': seq<Capability>)
    requires items != [] && KnownCap(items[0]) && c == Capability(ToInt32(items[0].capType.v), items[0].capId.v)
    requires PutInFront(items[1..], [c] + caps, caps')
    ensures PutInFront(items, caps, caps')
  {
    var k: nat :|
      && k <= |items[1..]| && (forall i :: 0 <= i < k ==> KnownCap(items[1..][i]))
      && (k < |items[1..]| ==> !KnownCap(items[1..][k]))
      && |caps'| == k + |[c] + caps| && caps'[k..] == [c] + caps
      && forall i :: 0 <= i < k ==>
           caps'[k - 1 - i] == Capability(ToInt32(items[1..][i].capType.v), items[1..][i].capId.v);
    hide KnownCap, ToInt32;
    assert caps'[k..][0] == c && caps'[k + 1..] == caps'[k..][1..] == caps;
    forall i | 0 <= i < k + 1
      ensures KnownCap(items[i]) && caps'[k - i] == Capability(ToInt32(items[i].capType.v), items[i].capId.v)
    {
      if i > 0 {
        assert items[i] == items[1..][i - 1];
      }
    }
    assert k + 1 < |items| ==> items[k + 1] == items[1..][k];
  }

  /** CAPS: the node takes the name and the capabilities of the message, is announced with them, and is free. Nothing
      else changes. */
  lemma CapsMessage(s: State, p: EventNode, m: IotMsg)
    requires Inv(s) && IsIot(s, p) && Numbered(m, 1)
    ensures var s', d := OnMessage(s, p, m), IotOf(s, p);
      && IsIot(s', p)
      && var d' := IotOf(s', p);
      && d' == d.(name := if m.name.Value? then m.name.v else d.name, caps := d'.caps, capsNum := |d'.caps| % 256,
                  workState := Free)
      && (if m.caps.Value? then PutInFront(m.caps.v, d.caps, d'.caps) else d'.caps == d.caps)
      && Announces(s, s', NodeComingUp(d'.name, d'.caps))
      && s' == PutIot(s, p, d').(published := s'.published)
  {
    var d := IotOf(s, p);
    assert d.capsNum == |d.caps| % 256 by { InvAt(s, p); }
    CapsEffect(s, p, m.name, m.caps);
    hide Inv, AddCaps, PutInFront;
    if m.caps.Value? {
      CapsArePutInFront(if m.name.Value? then d.(name := m.name.v) else d, m.caps.v);
    }
  }

  // ----- HELLO

  /** HELLO starts the countdown again at 3 and, where it answers a HELLO request, takes that off the queue. A
      LOG_ENABLE process ends where it does not; the other takes off whatever is at the head. */
  lemma HelloMessage(s: State, p: EventNode, m: IotMsg)
    requires Inv(s) && s.status == Running && IsIot(s, p) && Numbered(m, 2)
    ensures var s', d := OnMessage(s, p, m), IotOf(s, p);
      && IsIot(s', p) && IotOf(s', p).helloCount == 3 && s'.published == s.published
      && (s'.status == Running && d.requests == [] ==>
            s' == PutIot(s, p, IotOf(s', p)) && IotOf(s', p) == d.(helloCount := 3, hist := IotOf(s', p).hist))
      && (s'.status == Running && d.requests != [] ==> HeadCompleted(s, s', p))
      && (s.build.asserts ==> (s'.status == Running <==>
            d.workState == Busy && d.requests != [] && d.requests[0].reqType == HelloRequest))
  {
    MessageOutcome(s, p, m);
    HelloEffect(s, p);
    hide Inv, OnHello, HeadCompleted, Greeted;
  }

  lemma HelloEffect(s: State, p: EventNode)
    requires Inv(s) && s.status == Running && IsIot(s, p)
    ensures var s', d := OnHello(s, p), IotOf(s, p);
      && IsIot(s', p) && IotOf(s', p).helloCount == 3 && s'.published == s.published
      && (s'.status == Running && d.requests == [] ==>
            s' == PutIot(s, p, IotOf(s', p)) && IotOf(s', p) == d.(helloCount := 3, hist := IotOf(s', p).hist))
      && (s'.status == Running && d.requests != [] ==> HeadCompleted(s, s', p))
  {
    var d := IotOf(s, p);
    hide Inv, HeadCompleted, Release;
    if d.requests != [] && (s.build.asserts ==> HeadSent(d)) {
      GreetingCompletes(s, p);
    }
  }

  lemma GreetingCompletes(s: State, p: EventNode)
    requires Inv(s) && IsIot(s, p) && IotOf(s, p).requests != [] && (s.build.asserts ==> HeadSent(IotOf(s, p)))
    ensures var s' := Release(PutIot(s, p, Greeted(IotOf(s, p))), p);
      HeadCompleted(s, s', p) && IotOf(s', p).helloCount == 3 && s'.published == s.published && s'.status == s.status
  {
    var s1 := PutIot(s, p, Greeted(IotOf(s, p)));
    ResetKeepsInv(s, p, Greeted(IotOf(s, p)));
    CompletesHead(s1, p, []);
    assert Publish(s1, []) == s1;
    hide Inv, Total;
    ReleaseIsUpdate(s1, p);
  }

  // ----- responses and notifications

  /** The number 4: a well-formed answer completes the head with one reply, which goes to the sender of that request,
      by the broker it came by. */
  lemma GetResponseMessage(s: State, p: EventNode, m: IotMsg)
    requires Inv(s) && s.status == Running && IsIot(s, p) && Numbered(m, 4)
    ensures var s', d := OnMessage(s, p, m), IotOf(s, p);
      && (s'.status != Running ==> s' == s.(status := s'.status))
      && (s'.status == Running && Translate(m.reqArray).None? ==> s' == s)
      && (s'.status == Running && Translate(m.reqArray).Some? ==>
            && HeadCompleted(s, s', p) && d.requests[0].data.Some?
            && s'.published == s.published + [Publication(
                 ToClient(d.requests[0].data.value.sender), d.requests[0].data.value.broker,
                 GetResponse(d.clientId, d.name, Translate(m.reqArray).value))])
  {
    hide Inv, OnMessage, OnGetResp, Translate, HeadCompleted;
    HandlerByNumber(s, p, m);
    GetResponseIsAtomic(s, p, m.reqArray);
  }

  /** The number 6: the same, but the reply goes to all listeners. */
  lemma SetResponseMessage(s: State, p: EventNode, m: IotMsg)
    requires Inv(s) && s.status == Running && IsIot(s, p) && Numbered(m, 6)
    ensures var s', d := OnMessage(s, p, m), IotOf(s, p);
      && (s'.status == Halted ==> s' == Halt(s))
      && (s'.status == Running && Translate(m.reqArray).None? ==> s' == s)
      && (s'.status == Running && Translate(m.reqArray).Some? ==>
            && HeadCompleted(s, s', p)
            && Announces(s, s', SetResponse(d.clientId, d.name, Translate(m.reqArray).value)))
  {
    hide Inv, OnMessage, OnSetResp, Translate, HeadCompleted;
    HandlerByNumber(s, p, m);
    SetResponseIsAtomic(s, p, m.reqArray);
  }

  /** The number 7: a well-formed notification is passed on to all listeners, and no queue changes. Any other number, or
      none, changes nothing. */
  lemma OtherMessage(s: State, p: EventNode, m: IotMsg)
    requires IsIot(s, p)
    requires !Numbered(m, 1) && !Numbered(m, 2) && !Numbered(m, 4) && !Numbered(m, 6)
    ensures var s', d := OnMessage(s, p, m), IotOf(s, p);
      && s' == s.(published := s'.published)
      && (if Numbered(m, 7) && Translate(m.reqArray).Some?
          then Announces(s, s', NotifBroadcast(d.clientId, d.name, Translate(m.reqArray).value))
          else s'.published == s.published)
  {
    hide Translate;
  }

  // ----- connections and hello timers

  /** A connection: a free node without a queue, known by its descriptor, and its timer, each pointing to the other, are
      listed in front; nothing else changes but the table of descriptors. */
  lemma AcceptEffect(s: State, i: Input)
    requires i.Accepted? && i.node != i.timer
    ensures var s' := OnAccept(s, i.node, i.timer, i.fd, i.timerFd, i.junk);
      && s'.order == [i.timer, i.node] + s.order
      && s'.nodes == s.nodes[
           i.node := NodeData(i.fd, false, Iot(
             IotData(i.fd, 3, Free, i.junk, [], 0, [], Some(i.timer), History([], [], [], 0, 0))))][
           i.timer := NodeData(i.timerFd, false, Timer(Some(i.node)))]
      && s' == s.(order := s'.order, nodes := s'.nodes, eventCount := s.eventCount + 2,
                  fdSet := s.fdSet + {i.fd, i.timerFd}, maxFd := s'.maxFd)
  {
    assert [i.timer] + ([i.node] + s.order) == [i.timer, i.node] + s.order;
  }

  /** The end of a connection: the node and its timer, and nothing else, are marked for collection, the node is free,
      and it is announced that it goes. */
  lemma CloseEffect(s: State, p: EventNode)
    requires Inv(s) && IsIot(s, p)
    ensures var s', d := OnClosed(s, p), IotOf(s, p);
      && d.timer.Some? && IsTimer(s, d.timer.value)
      && s' == s.(published := s'.published, nodes :=
           s.nodes[d.timer.value := s.nodes[d.timer.value].(marked := true)]
           [p := NodeData(s.nodes[p].fd, true, Iot(d.(workState := Free)))])
      && Announces(s, s', NodeGoingDown(d.name))
  {
    assert PairedAt(s.nodes, p);
    hide Inv;
    assert OnClosed(s, p).nodes == s.nodes[IotOf(s, p).timer.value := s.nodes[IotOf(s, p).timer.value].(marked := true)]
      [p := NodeData(s.nodes[p].fd, true, Iot(IotOf(s, p).(workState := Free)))];
  }

  /** A firing of a hello timer: while the countdown is above zero it goes down by one and one HELLO request goes to the
      back of the queue of the timer's own node; at zero the node and the timer are marked, the queue is left as it is,
      and it is announced that the node goes. */
  lemma FiringEffect(s: State, t: EventNode)
    requires Inv(s) && IsTimer(s, t) && s.nodes[t].data.owner.Some?
    ensures IsIot(s, s.nodes[t].data.owner.value)
    ensures var s', p := OnTimer(s, t), s.nodes[t].data.owner.value;
      var d := IotOf(s, p);
      && IsIot(s', p) && IotOf(s', p).name == d.name && IotOf(s', p).workState == d.workState
      && (forall q :: q in s.nodes && q != p && q != t ==> q in s'.nodes && s'.nodes[q] == s.nodes[q])
      && (d.helloCount > 0 ==>
            && s'.published == s.published && s'.nodes[t] == s.nodes[t] && s'.nodes[p].marked == s.nodes[p].marked
            && IotOf(s', p).helloCount == d.helloCount - 1
            && IotOf(s', p).requests == d.requests + [Request(HelloRequest, RequestPending, Timespec(0, 0), None)])
      && (d.helloCount == 0 ==>
            && Announces(s, s', NodeGoingDown(d.name)) && s'.nodes[p].marked && t in s'.nodes && s'.nodes[t].marked
            && IotOf(s', p).requests == d.requests && s'.count == s.count && s'.armed == s.armed)
  {
    TimerPointerIsLive(s, t);
    hide Inv;
  }

  // ----- which of these a step is

  /** What is offered to the entry at the front of the pass is handed to the handler for its kind, and anything else
      that may be offered to it changes nothing but the cursor. */
  lemma StepByOffer(s: State, input: Input)
    requires Inv(s) && s.status == Running && s.todo != []
    ensures var s1, p, s' := s.(todo := s.todo[1..]), s.todo[0], Step(s, Visit(input));
      && p in s.nodes
      && (IsIot(s, p) ==> s' == (if input.NodeClosed? then OnClosed(s1, p)
                                 else if input.NodeMessage? then OnMessage(s1, p, input.msg) else s1))
      && (IsTimer(s, p) ==> s' == if input.TimerExpired? then OnTimer(s1, p) else s1)
      && (s.nodes[p].data == Plain(ListenSocket) ==>
            s' == if input.Accepted? then OnAccept(s1, input.node, input.timer, input.fd, input.timerFd, input.junk)
              else s1)
      && (s.nodes[p].data == Plain(MqttMsgEvent) ==> s' == if input.WorkSignal? then Dispatch(s1) else s1)
      && (s.nodes[p].data == Plain(WorkScanTimerEvent) ==>
            s' == if input.ScanExpired? then Scan(s1, 0, input.clock) else s1)
  {
    AdvanceKeepsInv(s);
    hide Inv, OnClosed, OnMessage, OnTimer, OnAccept, Dispatch, Scan;
  }
}

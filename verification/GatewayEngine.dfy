/** The gateway as the program runs it: event nodes on the heap, globals updated in place, loops over lists.
    Every method is proved equal to its step of GatewaySpec. */
module GatewayEngine {
  import opened Common
  import opened GatewayTypes
  import opened GatewaySpec
  import opened GatewayInvariant
  import opened MqttIntake

  /** What is offered to the entry a pass visits. The descriptors of a new connection are the system's choice. */
  datatype Offer = Connection(junk: string) | Given(input: Input)

  class Gateway {
    const build: Build
    var events: seq<EventNode>     // events_list
    var eventCount: int
    var readFdSet: set<int>
    var maxFd: int
    var cursor: seq<EventNode>     // what list_for_each_entry_safe has still to visit
    var workList: seq<Request>
    var mqttMsgCount: nat
    var scanArmed: bool
    var published: seq<Publication>
    var status: Status

    /** The live event nodes. */
    ghost function Nodes(): map<EventNode, NodeData>
      reads this`events, events
    {
      map n: EventNode | n in events :: n.Data()
    }

    ghost function View(): State
      reads this, events
    {
      State(events, Nodes(), eventCount, readFdSet, maxFd, cursor, workList, mqttMsgCount, scanArmed, published, status,
        build)
    }

    constructor (listenFd: int, pipeFd: int, scanFd: int, build: Build)
      requires 0 <= listenFd && 0 <= pipeFd && 0 <= scanFd && listenFd != pipeFd
        && pipeFd != scanFd && listenFd != scanFd
      ensures |events| == 3 && fresh(events)
      ensures var b := Startup(events[2], events[1], events[0], listenFd, pipeFd, scanFd, build);
        GoodStart(b) && View() == Boot(b)
    {
      this.build := build;
      events, eventCount, readFdSet, maxFd := [], 0, {}, 0;
      cursor, workList, mqttMsgCount, scanArmed, published, status := [], [], 0, false, [], Running;
      new;
      assert View() == Empty(build);
      var listen := AddEvent(listenFd, ListenSocket, "");
      var pipe := AddEvent(pipeFd, MqttMsgEvent, "");
      var scan := AddEvent(scanFd, WorkScanTimerEvent, "");
    }

    // ----- event.c

    method AddEvent(fd: int, eventType: EventType, junk: string) returns (n: EventNode)
      modifies this
      ensures fresh(n) && n.eventType == eventType && n.eventFd == fd
      ensures eventType == IotEvent ==> n.Data() == NodeData(fd, false, Iot(NewIot(fd, junk)))
      ensures eventType == TimerEvent ==> n.Data() == NodeData(fd, false, Timer(None))
      ensures events == [n] + old(events)
      ensures View() == GatewaySpec.AddEvent(old(View()), n, fd, n.Data().data)
    {
      n := new EventNode(fd, eventType, junk);
      eventCount := eventCount + 1;
      events := [n] + events;
      readFdSet := readFdSet + {fd};
      if maxFd <= fd {
        maxFd := fd + 1;
      }
      assert Nodes() == old(Nodes())[n := n.Data()];
    }

    method DelNodeCaps(n: EventNode)
      modifies n
      ensures n.caps == [] && n.requests == old(n.requests)
    {
      while n.caps != []
        invariant n.requests == old(n.requests)
        decreases |n.caps|
      {
        n.caps := n.caps[1..];
      }
    }

    method DelNodeRequests(n: EventNode)
      modifies this`mqttMsgCount, this`scanArmed, n
      ensures n.requests == []
      ensures (mqttMsgCount, scanArmed) == Drain(old(mqttMsgCount), old(scanArmed), |old(n.requests)|)
    {
      while n.requests != []
        invariant Drain(mqttMsgCount, scanArmed, |n.requests|) ==
          Drain(old(mqttMsgCount), old(scanArmed), |old(n.requests)|)
        decreases |n.requests|
      {
        DeleteRequest(n);
      }
    }

    /** compute_max_fd */
    method RecomputeMaxFd()
      modifies this`maxFd
      ensures View() == old(View()).(maxFd := ComputeMaxFd(old(View()).order, old(View()).nodes, 0))
    {
      ghost var nodes := Nodes();
      maxFd := 0;
      var i := 0;
      assert Nodes() == nodes && events[0..] == events;
      while i < |events|
        invariant i <= |events| && Nodes() == nodes
        invariant ComputeMaxFd(events[i..], nodes, maxFd) == ComputeMaxFd(events, nodes, 0)
      {
        var iter := events[i];
        assert events[i..][0] == iter && events[i..][1..] == events[i + 1..];
        if iter.eventFd >= maxFd {
          maxFd := iter.eventFd + 1;
        }
        i := i + 1;
      }
    }

    /** An IoT node loses its capabilities and its requests. */
    method TearDown(n: EventNode)
      modifies this`mqttMsgCount, this`scanArmed, n
      ensures (mqttMsgCount, scanArmed) == Drain(old(mqttMsgCount), old(scanArmed), QueueLength(old(n.Data().data)))
      ensures n !in events ==> View() == old(View()).(count := mqttMsgCount, armed := scanArmed)
    {
      NothingToDrain(mqttMsgCount, scanArmed);
      hide Drain;
      if n.eventType == IotEvent {
        DelNodeCaps(n);
        DelNodeRequests(n);
      }
    }

    /** list_del, event_count, FD_CLR. */
    method Unlist(n: EventNode)
      requires n in events && Distinct(events)
      modifies this`events, this`eventCount, this`readFdSet
      ensures events == Without(old(events), n) && n !in events
      ensures View() == old(View()).(order := events, nodes := old(Nodes()) - {n}, eventCount := old(eventCount) - 1,
                                     fdSet := old(readFdSet) - {n.eventFd})
    {
      WithoutShape(events, n);
      events := Without(events, n);
      eventCount := eventCount - 1;
      readFdSet := readFdSet - {n.eventFd};
      assert forall m :: m in events <==> m in old(events) && m != n;
      hide Without, Distinct;
      assert Nodes() == old(Nodes()) - {n};
    }

    method DelEvent(n: EventNode)
      requires n in events && Distinct(events)
      modifies this, n
      ensures View() == GatewaySpec.DelEvent(old(View()), n)
      ensures events == Without(old(events), n)
    {
      hide *;
      ListedData(this, n);
      DelEventInSteps(View(), n);
      Unlist(n);
      TearDown(n);
      RecomputeMaxFd();
    }

    method GcEventsList()
      requires Distinct(events)
      modifies this, events
      ensures View() == Gc(old(View()), old(events))
      ensures forall j :: 0 <= j < |events| ==> events[j] in old(events)
    {
      var rest := events;
      ghost var goal := Gc(View(), events);
      hide GatewaySpec.DelEvent;
      while rest != []
        invariant Distinct(rest) && Distinct(events)
        invariant forall m :: m in rest ==> m in events
        invariant forall m :: m in events ==> m in old(events)
        invariant Gc(View(), rest) == goal
        decreases |rest|
      {
        var iter := rest[0];
        assert iter in rest && iter !in rest[1..];
        assert View().nodes[iter] == iter.Data();
        if iter.delMark {
          WithoutShape(events, iter);
          WithoutIsSubset(events, iter, old(events));
          DelEvent(iter);
        }
        rest := rest[1..];
      }
    }

    // ----- queues

    /** ENQUEUE_IOT_REQUEST */
    method EnqueueIotRequest(n: EventNode, r: Request)
      requires n in events && n.eventType == IotEvent
      modifies this`mqttMsgCount, this`scanArmed, n
      ensures View() == Enqueue(old(View()), n, r)
    {
      n.requests := n.requests + [r];
      n.hist := n.hist.(enqueued := n.hist.enqueued + [BodyOf(r)]);
      mqttMsgCount := (mqttMsgCount + 1) % 256;
      if mqttMsgCount == 1 {
        scanArmed := true;
      }
      assert Nodes() == old(Nodes())[n := n.Data()];
    }

    /** delete_request on the first request of a node, listed or just unlinked. */
    method DeleteRequest(n: EventNode)
      requires n.requests != []
      modifies this`mqttMsgCount, this`scanArmed, n
      ensures n.requests == old(n.requests)[1..]
      ensures mqttMsgCount == Dec8(old(mqttMsgCount)) && scanArmed == (old(scanArmed) && Dec8(old(mqttMsgCount)) != 0)
      ensures n in events && n.eventType == IotEvent ==> View() == DeleteHead(old(View()), n)
    {
      n.hist := n.hist.(completed := n.hist.completed + [BodyOf(n.requests[0])]);
      n.requests := n.requests[1..];
      mqttMsgCount := (mqttMsgCount + 255) % 256;
      if mqttMsgCount == 0 {
        scanArmed := false;
      }
      assert n in events && n.eventType == IotEvent ==> Nodes() == old(Nodes())[n := n.Data()];
    }

    method SetWorkFree(n: EventNode)
      requires n in events && n.eventType == IotEvent
      modifies n`workState
      ensures View() == SetFree(old(View()), n)
    {
      n.workState := Free;
      assert Nodes() == old(Nodes())[n := n.Data()];
    }

    method ReleaseHead(n: EventNode)
      requires n in events && n.eventType == IotEvent && n.requests != []
      modifies this`mqttMsgCount, this`scanArmed, n
      ensures View() == Release(old(View()), n)
    {
      DeleteRequest(n);
      SetWorkFree(n);
    }

    ghost method NoteFiring(n: EventNode)
      requires n in events && n.eventType == IotEvent
      modifies n`hist
      ensures View() == PutIot(old(View()), n, CountFiring(old(IotOf(View(), n))))
    {
      n.hist := n.hist.(fires := n.hist.fires + 1);
      assert Nodes() == old(Nodes())[n := n.Data()];
    }

    // ----- gw_iotnode_interface.c

    /** The loop over REQ_ARRAY: the first bad item ends it, with nothing translated. */
    method TranslateReqArray(items: seq<RespItem>) returns (r: Option<seq<OutItem>>)
      ensures r == TranslateItems(items)
    {
      var jarray: seq<OutItem> := [];
      var i := 0;
      assert items[0..] == items && forall os: seq<OutItem> :: [] + os == os;
      while i < |items|
        invariant i <= |items|
        invariant TranslateItems(items) == Prefixed(jarray, TranslateItems(items[i..]))
      {
        var item := items[i];
        assert items[i..][0] == item && items[i..][1..] == items[i + 1..];
        if !item.capId.Value? || !item.value.Value? || item.uname.WrongType? || item.timestamp.WrongType? {
          return None;
        }
        var uname := if item.uname.Value? then Some(item.uname.v) else None;
        var timestamp := if item.timestamp.Value? then item.timestamp.v else 0;
        var o := OutItem(item.capId.v, item.value.v, uname, timestamp);
        ghost var tail := TranslateItems(items[i + 1..]);
        assert tail.Some? ==> jarray + ([o] + tail.value) == (jarray + [o]) + tail.value;
        jarray := jarray + [o];
        i := i + 1;
      }
      assert jarray + [] == jarray;
      r := Some(jarray);
    }

    method ParseAndFillNodeCaps(n: EventNode, items: seq<CapItem>)
      requires n in events && n.eventType == IotEvent
      modifies n
      ensures View() == PutIot(old(View()), n, AddCaps(old(IotOf(View(), n)), items))
    {
      ghost var goal := AddCaps(n.Data().data.iot, items);
      var i := 0;
      while i < |items| && GoodCap(items[i])
        invariant i <= |items|
        invariant AddCaps(n.Data().data.iot, items[i..]) == goal
        invariant n.delMark == old(n.delMark)
        invariant forall m :: m in events && m != n ==> m.Data() == old(m.Data())
        decreases |items| - i
      {
        assert items[i..][1..] == items[i + 1..];
        n.caps := [Capability(ToInt32(items[i].capType.v), items[i].capId.v)] + n.caps;
        n.capsNum := (n.capsNum + 1) % 256;
        i := i + 1;
      }
      assert Nodes() == old(Nodes())[n := n.Data()];
    }

    method PublishBoth(msg: MqttMsg)
      modifies this`published
      ensures View() == Publish(old(View()), BroadcastBoth(msg))
    {
      published := published + [Publication(Broadcast, RemoteClient, msg)];
      published := published + [Publication(Broadcast, LocalClient, msg)];
      assert Nodes() == old(Nodes());
    }

    method ResetHelloCount(n: EventNode)
      requires n in events && n.eventType == IotEvent
      modifies n
      ensures n.Data().data.iot == Greeted(old(n.Data().data.iot))
      ensures View() == PutIot(old(View()), n, n.Data().data.iot)
    {
      n.helloCount := HelloCountDefault;
      n.hist := n.hist.(fires := 0, greeted := Hellos(n.hist.enqueued));
      assert Nodes() == old(Nodes())[n := n.Data()];
    }

    method OnHelloMessage(n: EventNode)
      requires n in events && n.eventType == IotEvent && status == Running
      modifies this, n
      ensures View() == OnHello(old(View()), n) && events == old(events)
    {
      assert IotOf(View(), n) == n.Data().data.iot;
      ResetHelloCount(n);
      hide Release;
      if n.requests == [] {
        if build.asserts {
          Exit();
        }
        return;
      }
      if build.asserts
        && !(n.requests[0].reqType == HelloRequest && n.requests[0].status == RequestSent && n.workState == Busy) {
        Exit();
        return;
      }
      ReleaseHead(n);
    }

    /** A failed ASSERT_DEBUG. */
    method Exit()
      modifies this`status
      ensures View() == Halt(old(View()))
    {
      status := Halted;
      assert Nodes() == old(Nodes());
    }

    method SetClientName(n: EventNode, name: string)
      requires n in events && n.eventType == IotEvent
      modifies n`clientName
      ensures View() == PutIot(old(View()), n, old(IotOf(View(), n)).(name := name))
    {
      n.clientName := name;
      assert Nodes() == old(Nodes())[n := n.Data()];
    }

    method OnCapsMessage(n: EventNode, name: Field<string>, caps: Field<seq<CapItem>>)
      requires n in events && n.eventType == IotEvent
      modifies this`published, n
      ensures View() == OnCaps(old(View()), n, name, caps)
    {
      if name.Value? {
        SetClientName(n, name.v);
      }
      if caps.Value? {
        ParseAndFillNodeCaps(n, caps.v);
      }
      assert IotOf(View(), n) == n.Data().data.iot;
      hide AddCaps, SetFree;
      PublishBoth(NodeComingUp(n.clientName, n.caps));
      SetWorkFree(n);
    }

    /** The asserts of a response; what is left of them is `go`. */
    method CheckResponse(n: EventNode, t: RequestType) returns (go: bool)
      requires n in events && n.eventType == IotEvent && status == Running
      requires n.workState == Busy ==> n.requests != []
      modifies this`status
      ensures go <==> ResponseGuard(old(View()), old(IotOf(View(), n)), t).None?
      ensures View() ==
        old(View()).(status := if go then Running else ResponseGuard(old(View()), old(IotOf(View(), n)), t).value)
    {
      go := true;
      if build.asserts {
        if n.workState != Busy || n.requests[0].status != RequestSent || n.requests[0].reqType != t {
          status := Halted;
          go := false;
        }
      }
      assert Nodes() == old(Nodes());
    }

    method OnGetResponse(n: EventNode, arr: Field<seq<RespItem>>)
      requires n in events && n.eventType == IotEvent && status == Running
      requires n.workState == Busy ==> n.requests != []
      modifies this, n
      ensures View() == OnGetResp(old(View()), n, arr) && events == old(events)
    {
      var go := CheckResponse(n, GetRequest);
      if !go || !arr.Value? {
        return;
      }
      var items := TranslateReqArray(arr.v);
      if items.None? {
        return;
      }
      if n.requests == [] || n.requests[0].data.None? {
        status := Undefined;
        return;
      }
      var to := n.requests[0].data.value;
      published := published
        + [Publication(ToClient(to.sender), to.broker, GetResponse(n.clientId, n.clientName, items.value))];
      assert Nodes() == old(Nodes());
      ReleaseHead(n);
    }

    method OnSetResponseOrNotif(n: EventNode, arr: Field<seq<RespItem>>, isSet: bool)
      requires n in events && n.eventType == IotEvent && status == Running
      requires n.workState == Busy ==> n.requests != []
      modifies this, n
      ensures View() == (if isSet then OnSetResp(old(View()), n, arr) else OnNotif(old(View()), n, arr))
        && events == old(events)
    {
      if isSet {
        var go := CheckResponse(n, SetRequest);
        if !go {
          return;
        }
      }
      if !arr.Value? {
        return;
      }
      var items := TranslateReqArray(arr.v);
      if items.None? {
        return;
      }
      PublishBoth(
        if isSet then SetResponse(n.clientId, n.clientName, items.value)
          else NotifBroadcast(n.clientId, n.clientName, items.value));
      if isSet {
        if n.requests == [] {
          status := Undefined;
        } else {
          ReleaseHead(n);
        }
      }
    }

    /** process_iot_msg */
    method ProcessIotMsg(n: EventNode, m: IotMsg)
      requires n in events && n.eventType == IotEvent && status == Running
      requires n.workState == Busy ==> n.requests != []
      modifies this, n
      ensures View() == OnMessage(old(View()), n, m) && events == old(events)
    {
      if !m.Object? {
        return;
      }
      match ParseMsgType(m.msgType)
      case HelloMsg => OnHelloMessage(n);
      case CapsMsg => OnCapsMessage(n, m.name, m.caps);
      case GetRespMsg => OnGetResponse(n, m.reqArray);
      case SetRespMsg => OnSetResponseOrNotif(n, m.reqArray, true);
      case NotifMsg => OnSetResponseOrNotif(n, m.reqArray, false);
      case UnknownMsg =>
    }

    /** The message sendNodeMessage builds, parameter by parameter. */
    method BuildNodeMessage(r: Request) returns (msg: NodeMsg)
      requires r.reqType == HelloRequest || r.data.Some?
      requires r.reqType == HelloRequest ==> r.data.None?
      ensures msg == WireOf(BodyOf(r))
    {
      if r.reqType == HelloRequest {
        return SendHello;
      }
      var params, isSet := r.data.value.params, r.reqType == SetRequest;
      var jarray: seq<WireItem> := [];
      var i := 0;
      while i < |params|
        invariant i <= |params| && |jarray| == i
        invariant forall k :: 0 <= k < i ==> jarray[k] == WireItem(params[k].id, if isSet then params[k].args else None)
      {
        jarray := jarray + [WireItem(params[i].id, if isSet then params[i].args else None)];
        i := i + 1;
      }
      assert jarray == if isSet then WireSet(params) else WireGet(params);
      msg := if isSet then SendSet(r.data.value.sender, jarray) else SendGet(jarray);
    }

    method SendNodeMessage(n: EventNode, now: Reading)
      requires n in events && n.eventType == IotEvent && status == Running
      requires n.workState == Free && n.requests != [] && Sound(BodyOf(n.requests[0]))
      modifies this`status, n
      ensures View() == Send(old(View()), n, now)
    {
      hide SendLoop.AfterWhole, SendLoop.Endless, WireOf;
      var req := n.requests[0];
      if build.asserts && req.status != RequestPending {
        status := Halted;
        assert Nodes() == old(Nodes());
        return;
      }
      var msg := BuildNodeMessage(req);
      var size := build.textSize(msg);
      var l, calls := SendLoop.WriteText(size, now.eintr, build.signedChar, 1);
      SendLoop.OneCallDecides(size, now.eintr, build.signedChar, calls);
      if !l.over {
        // after one call that does not end the loop none will
        status := Spinning;
        assert Nodes() == old(Nodes());
        return;
      }
      n.hist := n.hist.(written := n.hist.written + [msg]);
      n.workState := Busy;
      n.requests := [req.(status := RequestSent, timestamp := now.time)] + n.requests[1..];
      assert Nodes() == old(Nodes())[n := n.Data()];
    }

    /** try_do_some_work. The head that the timeout branch reads is there by the invariant. */
    method TryDoSomeWork(clock: Clock)
      requires Inv(View()) && status == Running
      modifies this`mqttMsgCount, this`scanArmed, this`status, events
      ensures View() == Scan(old(View()), 0, clock)
    {
      ghost var goal := Scan(View(), 0, clock);
      hide Inv, ScanOne;
      var i := 0;
      while i < |events| && status == Running
        invariant i <= |events|
        invariant Inv(View())
        invariant Scan(View(), i, clock) == goal
        decreases |events| - i
      {
        var iter := events[i];
        ScanEntry(iter, clock(i));
        i := i + 1;
      }
    }

    method ScanEntry(iter: EventNode, now: Reading)
      requires iter in events && Inv(View()) && status == Running
      modifies this`mqttMsgCount, this`scanArmed, this`status, iter
      ensures View() == ScanOne(old(View()), iter, now) && Inv(View())
    {
      ScanOneKeepsInv(View(), iter, now);
      if iter.eventType != IotEvent {
        return;
      }
      assert NodeOk(build.asserts, iter.delMark, IotOf(View(), iter));
      hide Inv, NodesOk;
      if iter.workState == Busy {
        var req := iter.requests[0];
        var diff := 1_000_000_000 * (now.time.sec - req.timestamp.sec) + (now.time.nsec - req.timestamp.nsec);
        if diff >= 20 * 1_000_000_000 {
          ReleaseHead(iter);
        }
        return;
      }
      if iter.requests == [] {
        return;
      }
      SendNodeMessage(iter, now);
    }

    // ----- main.c

    method MarkForDeletion(n: EventNode)
      requires n in events
      modifies n`delMark
      ensures View() == Mark(old(View()), n)
    {
      n.delMark := true;
      assert Nodes() == old(Nodes())[n := n.Data()];
    }

    method SetNodePtr(t: EventNode, p: EventNode)
      requires t in events && t.eventType == TimerEvent
      modifies t`nodePtr
      ensures View() == old(View()).(nodes := old(View()).nodes[t := old(t.Data()).(data := Timer(Some(p)))])
    {
      t.nodePtr := p;
      assert Nodes() == old(Nodes())[t := t.Data()];
    }

    method SetTimerPtr(p: EventNode, t: EventNode)
      requires p in events && p.eventType == IotEvent
      modifies p`timerPtr
      ensures View() == PutIot(old(View()), p, old(IotOf(View(), p)).(timer := Some(t)))
    {
      p.timerPtr := t;
      assert Nodes() == old(Nodes())[p := p.Data()];
    }

    method Accept(junk: string) returns (node: EventNode, timer: EventNode, ghost fd: int, ghost timerFd: int)
      requires Inv(View()) && status == Running
      modifies this
      ensures fresh(node) && fresh(timer) && events == [timer] + ([node] + old(events))
      ensures Fits(old(View()), Visit(Accepted(node, timer, fd, timerFd, junk)))
      ensures View() == OnAccept(old(View()), node, timer, fd, timerFd, junk)
    {
      hide *;
      ghost var s := View();
      UnusedDescriptors(s);
      EventsAreNodes(this);
      var clientFd: nat :| clientFd !in readFdSet;
      var timer_fd: nat :| timer_fd !in readFdSet && timer_fd != clientFd;
      fd, timerFd := clientFd, timer_fd;
      node := AddEvent(clientFd, IotEvent, junk);
      timer := AddEvent(timer_fd, TimerEvent, "");
      AcceptInSteps(s, node, timer, fd, timerFd, junk);
      SetNodePtr(timer, node);
      SetTimerPtr(node, timer);
    }

    method OnDisconnect(iter: EventNode)
      requires Inv(View()) && iter in events && iter.eventType == IotEvent
      modifies this, events
      ensures View() == OnClosed(old(View()), iter) && events == old(events)
    {
      assert PairedAt(Nodes(), iter);
      assert iter.timerPtr != null && iter.timerPtr in events && IotOf(View(), iter) == iter.Data().data.iot;
      hide Inv, SetFree;
      MarkForDeletion(iter);
      MarkForDeletion(iter.timerPtr);
      PublishBoth(NodeGoingDown(iter.clientName));
      SetWorkFree(iter);
    }

    /** work_state is written through the IoT view of the timer's union: its node pointer is gone. */
    method OverwriteTimerUnion(t: EventNode)
      requires t in events && t.eventType == TimerEvent
      modifies t`nodePtr
      ensures View() == SpoilOwner(old(View()), t)
    {
      t.nodePtr := null;
      assert Nodes() == old(Nodes())[t := t.Data()];
    }

    /** A hello timer fires. Its node pointer is followed; the invariant says that it can be. */
    method OnHelloTimer(iter: EventNode)
      requires Inv(View()) && iter in events && iter.eventType == TimerEvent && iter.nodePtr != null
      modifies this, events
      ensures View() == OnTimer(old(View()), iter) && events == old(events)
    {
      hide *;
      FiringFacts(this, iter);
      var node := iter.nodePtr;
      if node.helloCount == 0 {
        GiveUp(iter, node);
      } else {
        Ping(node);
      }
    }

    method GiveUp(iter: EventNode, node: EventNode)
      requires iter in events && iter.eventType == TimerEvent && node in events && node.eventType == IotEvent
      modifies this`published, iter, node
      ensures var s1 := Publish(Mark(Mark(old(View()), iter), node),
        BroadcastBoth(NodeGoingDown(old(node.clientName))));
        View() == SpoilOwner(PutIot(s1, node, CountFiring(IotOf(s1, node))), iter)
    {
      MarkForDeletion(iter);
      MarkForDeletion(node);
      PublishBoth(NodeGoingDown(node.clientName));
      NoteFiring(node);
      OverwriteTimerUnion(iter);
    }

    method Ping(node: EventNode)
      requires node in events && node.eventType == IotEvent && node.helloCount > 0
      modifies this`mqttMsgCount, this`scanArmed, node
      ensures var s1 := Enqueue(old(View()), node, HelloOf());
        View() == PutIot(s1, node, CountFiring(IotOf(s1, node)).(helloCount := IotOf(s1, node).helloCount - 1))
    {
      assert IotOf(View(), node).helloCount == node.helloCount;
      EnqueueIotRequest(node, Request(HelloRequest, RequestPending, Timespec(0, 0), None));
      assert IotOf(View(), node).helloCount == node.helloCount;
      hide Enqueue, CountFiring;
      CountDown(node);
    }

    method CountDown(node: EventNode)
      requires node in events && node.eventType == IotEvent && node.helloCount > 0
      modifies node
      ensures View() == PutIot(old(View()), node,
        CountFiring(old(IotOf(View(), node))).(helloCount := old(IotOf(View(), node)).helloCount - 1))
    {
      node.helloCount := node.helloCount - 1;
      node.hist := node.hist.(fires := node.hist.fires + 1);
      assert Nodes() == old(Nodes())[node := node.Data()];
    }

    /** The first IoT entry with the name asked for. */
    method SearchNode(name: string) returns (found: EventNode?)
      ensures FirstNamed(events, Nodes(), name) == if found == null then None else Some(found)
      ensures found != null ==> found in events && found.eventType == IotEvent
      ensures found == null <==>
        forall k :: 0 <= k < |events| ==> !(events[k].eventType == IotEvent && events[k].clientName == name)
      ensures found != null ==>
        exists k ::
          && 0 <= k < |events| && events[k] == found && found.clientName == name
          && forall j :: 0 <= j < k ==> !(events[j].eventType == IotEvent && events[j].clientName == name)
    {
      var i := 0;
      while i < |events|
        invariant i <= |events|
        invariant forall k :: 0 <= k < i ==> !(events[k].eventType == IotEvent && events[k].clientName == name)
        invariant FirstNamed(events[i..], Nodes(), name) == FirstNamed(events, Nodes(), name)
      {
        var searchNode := events[i];
        assert events[i..][0] == searchNode && events[i..][1..] == events[i + 1..];
        if searchNode.eventType == IotEvent && searchNode.clientName == name {
          return searchNode;
        }
        i := i + 1;
      }
      found := null;
    }

    /** The dispatch loops, under the work_list mutex. `nodeFound` is set and never cleared. */
    method DispatchWork()
      requires Inv(View())
      modifies this`workList, this`mqttMsgCount, this`scanArmed, this`published, events
      ensures View() == Dispatch(old(View()))
    {
      ghost var goal := Dispatch(View());
      var nodeFound := false;
      var k: nat := 0;
      while k < |workList|
        invariant k <= |workList|
        invariant Inv(View())
        invariant DispatchFrom(View(), k, nodeFound, false) == goal
        decreases |workList| - k
      {
        k, nodeFound := DispatchOne(k, nodeFound);
      }
    }

    /** list_del on the work list. */
    method Unlink(k: nat)
      requires k < |workList|
      modifies this`workList
      ensures View() == Taken(old(View()), k) && |workList| == |old(workList)| - 1
    {
      workList := workList[..k] + workList[k + 1..];
      assert Nodes() == old(Nodes());
    }

    method ReplyNodeNotFound(r: Request)
      requires r.data.Some?
      modifies this`published
      ensures View() == Publish(old(View()), [ErrorReply(r)])
    {
      published := published
        + [Publication(ToClient(r.data.value.sender), r.data.value.broker, NodeNotFound(r.data.value.nodeName))];
      assert Nodes() == old(Nodes());
    }

    method DispatchOne(k: nat, nodeFound: bool) returns (k': nat, nodeFound': bool)
      requires Inv(View()) && k < |workList|
      modifies this`workList, this`mqttMsgCount, this`scanArmed, this`published, events
      ensures k' <= |workList| && |workList| - k' == |old(workList)| - k - 1 && Inv(View())
      ensures DispatchFrom(old(View()), k, nodeFound, false) == DispatchFrom(View(), k', nodeFound', false)
    {
      hide *;
      ghost var s := View();
      var workNode := workList[k];
      DispatchFacts(this, k);
      DispatchUnfolds(s, k, nodeFound, false);
      var searchNode := SearchNode(workNode.data.value.nodeName);
      if searchNode != null {
        Unlink(k);
        EnqueueKeepsInv(View(), searchNode, workNode);
        EnqueueIsLonger(View(), searchNode, workNode);
        EnqueueIotRequest(searchNode, workNode);
        return k, true;
      }
      if !nodeFound {
        Unlink(k);
        PublishKeepsInv(View(), [ErrorReply(workNode)]);
        ReplyNodeNotFound(workNode);
        return k, false;
      }
      return k + 1, true;
    }

    /** process_mqtt_msg on the gateway's own topic; the list is touched under the mutex. */
    method ProcessMqttMsg(m: MqttIn, broker: Broker)
      modifies this`workList
      ensures View() == match Intake(m, broker) case None => old(View()) case Some(r) => OnArrive(old(View()), r)
    {
      assert Nodes() == old(Nodes());
      if !m.msgType.Value? || !m.sender.Value? || !m.nodeName.Value? || m.nodeId.WrongType? {
        return;
      }
      var msgType := m.msgType.v % 256;
      if (msgType != MsgGet && msgType != MsgSet) || !m.items.Value? {
        return;
      }
      var params: seq<Param> := [];
      var i := 0;
      while i < |m.items.v|
        invariant i <= |m.items.v|
        invariant AddParams(params, m.items.v[i..], msgType == MsgSet) == AddParams([], m.items.v, msgType == MsgSet)
      {
        assert m.items.v[i..][0] == m.items.v[i] && m.items.v[i..][1..] == m.items.v[i + 1..];
        params := [Param(m.items.v[i].id, if msgType == MsgSet then Some(m.items.v[i].value) else None)] + params;
        i := i + 1;
      }
      var data := Some(MqttRequest(m.sender.v, m.nodeName.v, params, broker));
      if msgType == MsgGet {
        workList := [Request(GetRequest, RequestPending, Timespec(0, 0), data)] + workList;
      } else {
        workList := workList + [Request(SetRequest, RequestPending, Timespec(0, 0), data)];
      }
      assert Nodes() == old(Nodes());
    }

    /** The top of the event loop: garbage collection, select, and the start of a pass. */
    method BeginPass()
      requires Inv(View()) && status == Running && cursor == []
      modifies this, events
      ensures View() == Step(old(View()), LoopTop) && Inv(View())
      ensures forall j :: 0 <= j < |events| ==> events[j] in old(events)
    {
      LoopTopIsGc(View());
      assert View().order == events && Distinct(events);
      hide Inv, Gc, Step, View, Distinct;
      GcEventsList();
      StartPass();
    }

    /** list_for_each_entry_safe over the whole list. */
    method StartPass()
      modifies this`cursor
      ensures View() == old(View()).(todo := old(View()).order)
    {
      cursor := events;
    }

    /** The body of the event loop for the next entry of the pass. The step taken is reported. */
    method VisitNext(offer: Offer) returns (ghost e: Label)
      requires Inv(View()) && status == Running && cursor != []
      requires offer.Given? ==> !offer.input.Accepted?
      modifies this, events
      ensures e.Visit? && Fits(old(View()), e) && View() == Step(old(View()), e) && Inv(View())
      ensures forall j :: 0 <= j < |events| ==> events[j] in old(events) || fresh(events[j])
      ensures cursor == old(cursor)[1..]
    {
      AdvanceKeepsInv(View());
      var iter := cursor[0];
      TakeFirst();
      assert View().nodes[iter] == iter.Data();
      e := HandleEntry(iter, offer);
      VisitAdvances(old(View()), e);
      hide Inv, OnVisit;
      StepKeepsInv(old(View()), e);
    }

    method TakeFirst()
      requires cursor != []
      modifies this`cursor
      ensures View() == old(View()).(todo := old(View()).todo[1..])
    {
      cursor := cursor[1..];
      assert Nodes() == old(Nodes());
    }

    method HandleEntry(iter: EventNode, offer: Offer) returns (ghost e: Label)
      requires Inv(View()) && status == Running && iter in events
      requires iter.eventType == TimerEvent ==> iter.nodePtr != null
      requires offer.Given? ==> !offer.input.Accepted?
      modifies this, events
      ensures e.Visit? && Fits(old(View()), e) && View() == OnVisit(old(View()), iter, e.input)
      ensures forall j :: 0 <= j < |events| ==> events[j] in old(events) || fresh(events[j])
    {
      assert View().nodes[iter] == iter.Data();
      assert iter.eventType == IotEvent ==> NodeOk(build.asserts, iter.delMark, IotOf(View(), iter));
      e := Visit(if offer.Given? then offer.input else NotReady);
      hide Inv, OnMessage, OnClosed, OnTimer, OnAccept, Dispatch, Scan;
      match iter.eventType
      case IotEvent =>
        if offer.Given? && offer.input.NodeClosed? {
          OnDisconnect(iter);
        } else if offer.Given? && offer.input.NodeMessage? {
          ProcessIotMsg(iter, offer.input.msg);
        }
      case TimerEvent =>
        if offer.Given? && offer.input.TimerExpired? {
          OnHelloTimer(iter);
        }
      case ListenSocket =>
        if offer.Connection? {
          var node, timer, fd, timerFd := Accept(offer.junk);
          e := Visit(Accepted(node, timer, fd, timerFd, offer.junk));
        }
      case MqttMsgEvent =>
        if offer.Given? && offer.input.WorkSignal? {
          DispatchWork();
        }
      case WorkScanTimerEvent =>
        if offer.Given? && offer.input.ScanExpired? {
          TryDoSomeWork(offer.input.clock);
        }
    }

    /** MQTT threads deliver some messages between two visits. */
    method TakeArrivals(ms: seq<(MqttIn, Broker)>, ghost s: State, ghost before: seq<Label>)
      returns (ghost es: seq<Label>)
      requires Inv(View()) && AllFit(s, before) && View() == Run(s, before) && status == Running
      modifies this`workList
      ensures Inv(View()) && AllFit(s, es) && View() == Run(s, es)
    {
      hide Inv, View, Run, AllFit, Step, Intake;
      es := before;
      var i := 0;
      while i < |ms|
        invariant i <= |ms|
        invariant Inv(View()) && AllFit(s, es) && View() == Run(s, es)
      {
        var (m, broker) := ms[i];
        ghost var s1 := View();
        EventsAreNodes(this);
        ProcessMqttMsg(m, broker);
        if Intake(m, broker).Some? {
          ghost var e := Arrive(Intake(m, broker).value);
          IntakeFits(s1, m, broker);
          ArrivalIsStep(s1, Intake(m, broker).value);
          StepKeepsInv(s1, e);
          ExtendRun(s, es, e);
          es := es + [e];
        }
        i := i + 1;
      }
    }

    /** One turn of the event loop: the pass over the entries, each with what was offered to it, and with the
        messages the MQTT threads deliver before it is visited. The labels of the steps taken are reported. */
    method RunPass(offers: seq<Offer>, arrivals: seq<seq<(MqttIn, Broker)>>) returns (ghost es: seq<Label>)
      requires Inv(View()) && status == Running && cursor == []
      requires forall i :: 0 <= i < |offers| && offers[i].Given? ==> !offers[i].input.Accepted?
      modifies this, events
      ensures AllFit(old(View()), es) && View() == Run(old(View()), es) && Inv(View())
      ensures status == Running ==> cursor == []
    {
      ghost var s := View();
      hide Inv, Step, View;
      BeginPass();
      ExtendRun(s, [], LoopTop);
      es := [] + [LoopTop];
      hide Run, AllFit, Fits;
      var i := 0;
      while status == Running && cursor != []
        invariant Inv(View()) && AllFit(s, es) && View() == Run(s, es)
        invariant forall j :: 0 <= j < |events| ==> events[j] in old(events) || fresh(events[j])
        decreases |cursor|
      {
        if i < |arrivals| {
          es := TakeArrivals(arrivals[i], s, es);
        }
        ghost var e := VisitNext(if i < |offers| then offers[i] else Given(NotReady));
        ExtendRun(s, es, e);
        es := es + [e];
        i := i + 1;
      }
    }
  }

  // ----- facts the methods use

  lemma ArrivalIsStep(s: State, r: Request)
    requires s.status == Running
    ensures Step(s, Arrive(r)) == OnArrive(s, r)
  {
  }

  lemma ListedData(g: Gateway, n: EventNode)
    requires n in g.events
    ensures var s := g.View();
      && n in s.nodes && s.nodes[n] == n.Data() && s.nodes[n].fd == n.eventFd && s.nodes == g.Nodes()
      && s.order == g.events && s.eventCount == g.eventCount && s.fdSet == g.readFdSet
      && s.count == g.mqttMsgCount && s.armed == g.scanArmed
  {
  }

  /** Out of the list, then the queue, then max_fd. */
  lemma DelEventInSteps(s: State, n: EventNode)
    requires n in s.nodes
    ensures var order, nodes := Without(s.order, n), s.nodes - {n};
      var (c, a) := Drain(s.count, s.armed, QueueLength(s.nodes[n].data));
      var s1 := s.(order := order, nodes := nodes, eventCount := s.eventCount - 1, fdSet := s.fdSet - {s.nodes[n].fd});
      GatewaySpec.DelEvent(s, n) == s1.(count := c, armed := a).(maxFd := ComputeMaxFd(order, nodes, 0))
  {
  }

  lemma EventsAreNodes(g: Gateway)
    ensures forall n :: n in g.View().nodes ==> n in g.events
    ensures g.View().fdSet == g.readFdSet && g.View().maxFd == g.maxFd && g.View().status == g.status
  {
  }

  /** add_event, add_event, and then the two pointers. */
  lemma AcceptInSteps(s: State, node: EventNode, timer: EventNode, fd: int, timerFd: int, junk: string)
    requires node != timer
    ensures (node !in s.nodes && timer !in s.nodes && 0 <= fd && 0 <= timerFd
             && fd != timerFd && fd !in s.fdSet && timerFd !in s.fdSet) ==>
      Fits(s, Visit(Accepted(node, timer, fd, timerFd, junk)))
    ensures var s1 := GatewaySpec.AddEvent(s, node, fd, Iot(NewIot(fd, junk)));
      var s2 := GatewaySpec.AddEvent(s1, timer, timerFd, Timer(None));
      var s3 := s2.(nodes := s2.nodes[timer := NodeData(timerFd, false, Timer(Some(node)))]);
      && IsIot(s3, node) && IotOf(s3, node) == NewIot(fd, junk)
      && PutIot(s3, node, NewIot(fd, junk).(timer := Some(timer))) == OnAccept(s, node, timer, fd, timerFd, junk)
  {
    var s1 := GatewaySpec.AddEvent(s, node, fd, Iot(NewIot(fd, junk)));
    var s2 := GatewaySpec.AddEvent(s1, timer, timerFd, Timer(None));
    var s3 := s2.(nodes := s2.nodes[timer := NodeData(timerFd, false, Timer(Some(node)))]);
    assert PutIot(s3, node, NewIot(fd, junk).(timer := Some(timer))).nodes ==
      OnAccept(s, node, timer, fd, timerFd, junk).nodes;
  }

  lemma WithoutIsSubset(s: seq<EventNode>, x: EventNode, all: seq<EventNode>)
    requires forall m :: m in s ==> m in all
    ensures forall m :: m in Without(s, x) ==> m in all
  {
    if s != [] {
      assert s[0] in s;
      WithoutIsSubset(s[1..], x, all);
    }
  }

  lemma LoopTopIsGc(s: State)
    requires Inv(s) && s.status == Running && s.todo == []
    ensures Step(s, LoopTop) == Gc(s, s.order).(todo := Gc(s, s.order).order)
    ensures Inv(Step(s, LoopTop))
  {
    LoopTopKeepsInv(s);
  }

  lemma VisitKeepsTodo(s: State, p: EventNode, i: Input)
    ensures OnVisit(s, p, i).todo == s.todo
  {
    hide OnMessage, DispatchFrom, Scan, Total;
    DispatchKeepsRest(s, 0, false, false);
    if i.ScanExpired? {
      ScanKeepsRest(s, 0, i.clock);
    }
    if IsIot(s, p) && i.NodeMessage? {
      MessageKeepsRest(s, p, i.msg);
    }
  }

  /** What the invariant and the node pointer say of a firing timer. */
  lemma FiringFacts(g: Gateway, t: EventNode)
    requires Inv(g.View()) && t in g.events && t.eventType == TimerEvent && t.nodePtr != null
    ensures var s, p := g.View(), t.nodePtr;
      && IsTimer(s, t) && s.nodes[t].data.owner == Some(p) && IsIot(s, p)
      && p in g.events && p.eventType == IotEvent && IotOf(s, p) == p.Data().data.iot
      && IotOf(s, p).helloCount == p.helloCount && IotOf(s, p).name == p.clientName
    ensures var s, p := g.View(), t.nodePtr;
      if p.helloCount == 0 then
        var s1 := Publish(Mark(Mark(s, t), p), BroadcastBoth(NodeGoingDown(p.clientName)));
        OnTimer(s, t) == SpoilOwner(PutIot(s1, p, CountFiring(IotOf(s1, p))), t)
      else
        var s1 := Enqueue(s, p, HelloOf());
        OnTimer(s, t) == PutIot(s1, p, CountFiring(IotOf(s1, p)).(helloCount := IotOf(s1, p).helloCount - 1))
  {
    hide Inv;
    TimerPointerIsLive(g.View(), t);
    OnTimerCases(g.View(), t, t.nodePtr);
  }

  lemma OnTimerCases(s: State, t: EventNode, p: EventNode)
    requires IsTimer(s, t) && s.nodes[t].data.owner == Some(p) && IsIot(s, p)
    ensures
      if IotOf(s, p).helloCount == 0 then
        var s1 := Publish(Mark(Mark(s, t), p), BroadcastBoth(NodeGoingDown(IotOf(s, p).name)));
        OnTimer(s, t) == SpoilOwner(PutIot(s1, p, CountFiring(IotOf(s1, p))), t)
      else
        var s1 := Enqueue(s, p, HelloOf());
        OnTimer(s, t) == PutIot(s1, p, CountFiring(IotOf(s1, p)).(helloCount := IotOf(s1, p).helloCount - 1))
  {
  }

  lemma VisitAdvances(s: State, e: Label)
    requires s.status == Running && e.Visit? && s.todo != []
    ensures Step(s, e).todo == s.todo[1..]
  {
    VisitKeepsTodo(s.(todo := s.todo[1..]), s.todo[0], e.input);
    hide OnVisit;
  }

  lemma NothingToDrain(count: nat, armed: bool)
    ensures Drain(count, armed, 0) == (count, armed)
  {
  }

  function Prefixed<T>(a: seq<T>, rest: Option<seq<T>>): Option<seq<T>> {
    if rest.None? then None else Some(a + rest.value)
  }

  /** The request dispatched next, and the state without it. */
  lemma DispatchFacts(g: Gateway, k: nat)
    requires Inv(g.View()) && k < |g.workList|
    ensures var s, r := g.View(), g.workList[k];
      && s.work == g.workList && r.status == RequestPending && Sound(BodyOf(r))
      && r.data.Some? && !r.reqType.HelloRequest?
      && MatchOf(s, r) == FirstNamed(g.events, g.Nodes(), r.data.value.nodeName)
      && Inv(Taken(s, k)) && forall p :: IsIot(s, p) ==> IsIot(Taken(s, k), p)
  {
    TakenKeepsInv(g.View(), k);
    hide Inv;
  }

  /** The system always has descriptors to give: those from max_fd on are unused. */
  lemma UnusedDescriptors(s: State)
    requires Inv(s)
    ensures 0 <= s.maxFd && s.maxFd !in s.fdSet && s.maxFd + 1 !in s.fdSet
  {
    if s.order != [] {
      assert Fds(s.order, s.nodes)[0] in Fds(s.order, s.nodes);
    }
  }
}

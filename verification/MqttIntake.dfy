/** The producer half: how an MQTT GET or SET becomes a request on work_list, and how the order of
    requests and of their parameters comes about. */
module MqttIntake {
  import opened Common
  import opened GatewayTypes
  import opened GatewaySpec

  datatype InItem = InItem(id: string, value: string)

  /** A message on the gateway's own topic, after JSON parsing. */
  datatype MqttIn = MqttIn(
    msgType: Field<int>, sender: Field<string>, nodeName: Field<string>, nodeId: Field<int>, items: Field<seq<InItem>>)

  const MsgGet := 1
  const MsgSet := 3

  /** list_add puts every parameter in front of the ones before it. A GET has no arguments. */
  function AddParams(params: seq<Param>, items: seq<InItem>, withArgs: bool): seq<Param>
    decreases |items|
  {
    if items == [] then params
    else AddParams([Param(items[0].id, if withArgs then Some(items[0].value) else None)] + params, items[1..], withArgs)
  }

  /** The request process_mqtt_msg makes, None where it gives the message up. */
  function Intake(m: MqttIn, broker: Broker): Option<Request> {
    if !m.msgType.Value? || !m.sender.Value? || !m.nodeName.Value? || m.nodeId.WrongType? then None
    else
      var t := m.msgType.v % 256;
      if (t == MsgGet || t == MsgSet) && m.items.Value? then
        Some(Request(
          if t == MsgGet then GetRequest else SetRequest, RequestPending, Timespec(0, 0),
          Some(MqttRequest(m.sender.v, m.nodeName.v, AddParams([], m.items.v, t == MsgSet), broker))))
      else None
  }

  /** The message is a GET (1) or a SET (3), its number stored in a uint8_t, and has all that a request needs. */
  predicate Requests(m: MqttIn, number: int) {
    && m.msgType.Value? && m.msgType.v % 256 == number
    && m.sender.Value? && m.nodeName.Value? && !m.nodeId.WrongType? && m.items.Value?
  }

  /** A message becomes a request exactly when it is a GET or a SET with all that belongs to it. The request is of that
      kind, pending, of the sender and for the node that the message names, and by the broker it came by. */
  lemma IntakeMeans(m: MqttIn, broker: Broker)
    ensures Intake(m, broker).Some? <==> Requests(m, 1) || Requests(m, 3)
    ensures Intake(m, broker).Some? ==>
      var r := Intake(m, broker).value;
      && (r.reqType == GetRequest <==> Requests(m, 1)) && (r.reqType == SetRequest <==> Requests(m, 3))
      && r.status == RequestPending && r.data.Some? && r.data.value.broker == broker
      && m.sender == Value(r.data.value.sender) && m.nodeName == Value(r.data.value.nodeName)
      && |r.data.value.params| == |m.items.v|
  {
    if Intake(m, broker).Some? {
      ParamsAreReversed([], m.items.v, Intake(m, broker).value.reqType == SetRequest);
      ReverseLength(ItemsOf(m.items.v, Intake(m, broker).value.reqType == SetRequest));
    }
  }

  lemma {:induction false} ReverseLength<T>(s: seq<T>)
    ensures |Reverse(s)| == |s|
  {
    if s != [] {
      ReverseLength(s[1..]);
    }
  }

  /** What arrives is what the runs of the gateway expect to arrive. */
  lemma IntakeFits(s: State, m: MqttIn, broker: Broker)
    requires Intake(m, broker).Some?
    ensures Fits(s, Arrive(Intake(m, broker).value))
  {
  }

  // ----- order of parameters

  function ItemsOf(items: seq<InItem>, withArgs: bool): seq<WireItem> {
    seq(|items|, i requires 0 <= i < |items| => WireItem(items[i].id, if withArgs then Some(items[i].value) else None))
  }

  lemma {:induction false} ParamsAreReversed(params: seq<Param>, items: seq<InItem>, withArgs: bool)
    ensures WireSet(AddParams(params, items, withArgs)) == Reverse(ItemsOf(items, withArgs)) + WireSet(params)
    decreases |items|
  {
    if items != [] {
      var p := Param(items[0].id, if withArgs then Some(items[0].value) else None);
      var w := ItemsOf(items, withArgs);
      ParamsAreReversed([p] + params, items[1..], withArgs);
      assert w[0] == WireItem(p.id, p.args) && w[1..] == ItemsOf(items[1..], withArgs);
      assert WireSet([p] + params) == [w[0]] + WireSet(params);
      assert Reverse(w[1..]) + ([w[0]] + WireSet(params)) == (Reverse(w[1..]) + [w[0]]) + WireSet(params);
    }
  }

  lemma {:induction false} GetHasNoArgs(params: seq<Param>, items: seq<InItem>)
    requires forall i :: 0 <= i < |params| ==> params[i].args == None
    ensures forall i :: 0 <= i < |AddParams(params, items, false)| ==> AddParams(params, items, false)[i].args == None
    decreases |items|
  {
    if items != [] {
      GetHasNoArgs([Param(items[0].id, None)] + params, items[1..]);
    }
  }

  /** End to end: the node is sent the items of the MQTT message in exactly the reverse order. */
  lemma ItemsReachTheNodeReversed(m: MqttIn, broker: Broker)
    requires Intake(m, broker).Some?
    ensures var r := Intake(m, broker).value;
      WireOf(BodyOf(r)) ==
        if r.reqType.GetRequest? then SendGet(Reverse(ItemsOf(m.items.v, false)))
        else SendSet(m.sender.v, Reverse(ItemsOf(m.items.v, true)))
  {
    var r := Intake(m, broker).value;
    var params := r.data.value.params;
    ParamsAreReversed([], m.items.v, r.reqType.SetRequest?);
    assert Reverse(ItemsOf(m.items.v, r.reqType.SetRequest?)) + WireSet([]) ==
      Reverse(ItemsOf(m.items.v, r.reqType.SetRequest?));
    if r.reqType.GetRequest? {
      GetHasNoArgs([], m.items.v);
      assert WireGet(params) == WireSet(params);
    }
  }

  // ----- order of requests

  function Gets(rs: seq<Request>): seq<Request> {
    if rs == [] then [] else (if rs[0].reqType.GetRequest? then [rs[0]] else []) + Gets(rs[1..])
  }

  function Sets(rs: seq<Request>): seq<Request> {
    if rs == [] then [] else (if rs[0].reqType.GetRequest? then [] else [rs[0]]) + Sets(rs[1..])
  }

  function Arrivals(rs: seq<Request>): seq<Label> {
    seq(|rs|, i requires 0 <= i < |rs| => Arrive(rs[i]))
  }

  function ArrivedList(work: seq<Request>, rs: seq<Request>): seq<Request> {
    Reverse(Gets(rs)) + work + Sets(rs)
  }

  lemma OneArrivedFirst(work: seq<Request>, rs: seq<Request>)
    requires rs != []
    ensures ArrivedList(if rs[0].reqType.GetRequest? then [rs[0]] + work else work + [rs[0]], rs[1..]) ==
      ArrivedList(work, rs)
  {
    var r, g, t := [rs[0]], Gets(rs[1..]), Sets(rs[1..]);
    if rs[0].reqType.GetRequest? {
      assert (r + g)[1..] == g;
      FourLists(Reverse(g), r, work, t);
    } else {
      assert [] + g == g;
      FourLists(Reverse(g), work, r, t);
    }
  }

  lemma FourLists<T>(a: seq<T>, b: seq<T>, c: seq<T>, d: seq<T>)
    ensures a + (b + c) + d == (a + b) + c + d == (a + b) + (c + d)
  {
  }

  /** Between two dispatches work_list is the new GETs in reverse order of arrival, what was there, and the new
      SETs in order of arrival; nothing else changes. */
  lemma {:induction false} ArrivalOrder(s: State, rs: seq<Request>)
    requires s.status == Running
    ensures Run(s, Arrivals(rs)) == s.(work := Reverse(Gets(rs)) + s.work + Sets(rs))
    decreases |rs|
  {
    if rs == [] {
      assert Reverse(Gets(rs)) + s.work + Sets(rs) == s.work;
    } else {
      assert Arrivals(rs)[0] == Arrive(rs[0]) && Arrivals(rs)[1..] == Arrivals(rs[1..]);
      OneArrivedFirst(s.work, rs);
      hide Arrivals, Reverse, Gets, Sets;
      ArrivalOrder(Step(s, Arrive(rs[0])), rs[1..]);
    }
  }
}

/** The gateway engine as a deterministic step machine over abstract states. Every function here is the
    specification of one operation of the engine; the methods of GatewayEngine are proved equal to them. */
module GatewaySpec {
  import opened Common
  import opened GatewayTypes
  import SendLoop

  /** Halted: an ASSERT_DEBUG failed in a LOG_ENABLE build. Undefined: the C code followed a pointer
      that designates no live object of the type it expects. Spinning: the main thread writes one message
      for ever. All three are final. */
  datatype Status = Running | Halted | Undefined | Spinning

  /** What is fixed when the program is compiled: LOG_ENABLE, whether char is signed, and how long the text of a
      message is. */
  datatype Build = Build(asserts: bool, signedChar: bool, textSize: NodeMsg -> SendLoop.TextSize)

  datatype State = State(
    order: seq<EventNode>,            // events_list, front first
    nodes: map<EventNode, NodeData>,  // the live event nodes
    eventCount: int,
    fdSet: set<int>,
    maxFd: int,
    todo: seq<EventNode>,             // entries the current pass over events_list has still to visit
    work: seq<Request>,               // work_list
    count: nat,                       // mqtt_msg_count, a uint8_t
    armed: bool,                      // the work scan timer
    published: seq<Publication>,
    status: Status,
    build: Build)

  const HelloCountDefault: nat := 3
  const TimeoutNanos: int := 20 * 1_000_000_000

  function Inc8(c: nat): nat { (c + 1) % 256 }

  function Dec8(c: nat): nat { (c + 255) % 256 }

  function Halt(s: State): State { s.(status := Halted) }

  function Undef(s: State): State { s.(status := Undefined) }

  predicate IsIot(s: State, p: EventNode) {
    p in s.nodes && s.nodes[p].data.Iot?
  }

  predicate IsTimer(s: State, p: EventNode) {
    p in s.nodes && s.nodes[p].data.Timer?
  }

  function IotOf(s: State, p: EventNode): IotData
    requires IsIot(s, p)
  {
    s.nodes[p].data.iot
  }

  function PutIot(s: State, p: EventNode, d: IotData): State
    requires IsIot(s, p)
  {
    s.(nodes := s.nodes[p := s.nodes[p].(data := Iot(d))])
  }

  function Mark(s: State, p: EventNode): State
    requires p in s.nodes
  {
    s.(nodes := s.nodes[p := s.nodes[p].(marked := true)])
  }

  function Publish(s: State, pubs: seq<Publication>): State {
    s.(published := s.published + pubs)
  }

  /** A broadcast goes to the remote broker, then to the local one. */
  function BroadcastBoth(msg: MqttMsg): seq<Publication> {
    [Publication(Broadcast, RemoteClient, msg), Publication(Broadcast, LocalClient, msg)]
  }

  // ----- request queues

  /** ENQUEUE_IOT_REQUEST */
  function Enqueue(s: State, p: EventNode, r: Request): State
    requires IsIot(s, p)
  {
    var d := IotOf(s, p);
    var h := d.hist.(enqueued := d.hist.enqueued + [BodyOf(r)]);
    PutIot(s, p, d.(requests := d.requests + [r], hist := h))
      .(count := Inc8(s.count), armed := s.armed || Inc8(s.count) == 1)
  }

  function DropHead(d: IotData): IotData
    requires d.requests != []
  {
    d.(requests := d.requests[1..], hist := d.hist.(completed := d.hist.completed + [BodyOf(d.requests[0])]))
  }

  /** delete_request on the first request of a node. */
  function DeleteHead(s: State, p: EventNode): State
    requires IsIot(s, p) && IotOf(s, p).requests != []
  {
    PutIot(s, p, DropHead(IotOf(s, p))).(count := Dec8(s.count), armed := s.armed && Dec8(s.count) != 0)
  }

  function SetFree(s: State, p: EventNode): State
    requires IsIot(s, p)
  {
    PutIot(s, p, IotOf(s, p).(workState := Free))
  }

  /** The first request is finished, answered or given up: drop it and free the node. */
  function Release(s: State, p: EventNode): State
    requires IsIot(s, p) && IotOf(s, p).requests != []
  {
    SetFree(DeleteHead(s, p), p)
  }

  // ----- event list

  /** add_event */
  function AddEvent(s: State, p: EventNode, fd: int, data: EventData): State {
    s.(order := [p] + s.order,
       nodes := s.nodes[p := NodeData(fd, false, data)],
       eventCount := s.eventCount + 1,
       fdSet := s.fdSet + {fd},
       maxFd := if s.maxFd <= fd then fd + 1 else s.maxFd)
  }

  function NewIot(fd: int, junk: string): IotData {
    IotData(fd, HelloCountDefault, Free, junk, [], 0, [], None, FreshHistory)
  }

  /** compute_max_fd from a starting value, over the listed nodes. */
  function ComputeMaxFd(order: seq<EventNode>, nodes: map<EventNode, NodeData>, a: int): int {
    if order == [] then a
    else if order[0] in nodes && nodes[order[0]].fd >= a then ComputeMaxFd(order[1..], nodes, nodes[order[0]].fd + 1)
    else ComputeMaxFd(order[1..], nodes, a)
  }

  /** Counter and timer after k calls of delete_request. */
  function Drain(count: nat, armed: bool, k: nat): (nat, bool)
    decreases k
  {
    if k == 0 then (count, armed) else Drain(Dec8(count), armed && Dec8(count) != 0, k - 1)
  }

  function QueueLength(data: EventData): nat {
    if data.Iot? then |data.iot.requests| else 0
  }

  /** del_event: unlink, forget the descriptor, tear the request queue down, free, recompute max_fd. */
  function DelEvent(s: State, p: EventNode): State
    requires p in s.nodes
  {
    var n := s.nodes[p];
    var order := Without(s.order, p);
    var nodes := s.nodes - {p};
    var (c, a) := Drain(s.count, s.armed, QueueLength(n.data));
    s.(order := order, nodes := nodes, eventCount := s.eventCount - 1, fdSet := s.fdSet - {n.fd},
       maxFd := ComputeMaxFd(order, nodes, 0), count := c, armed := a)
  }

  /** gc_events_list over a snapshot of the list. */
  function Gc(s: State, ps: seq<EventNode>): State
    decreases |ps|
  {
    if ps == [] then s
    else Gc(if ps[0] in s.nodes && s.nodes[ps[0]].marked then DelEvent(s, ps[0]) else s, ps[1..])
  }

  // ----- messages from a node

  /** parse_msg_type; the type number is truncated to a uint8_t. */
  function ParseMsgType(f: Field<int>): IotMsgType {
    match f
    case Value(v) =>
      (match v % 256
       case 1 => CapsMsg
       case 2 => HelloMsg
       case 4 => GetRespMsg
       case 6 => SetRespMsg
       case 7 => NotifMsg
       case _ => UnknownMsg)
    case _ => UnknownMsg
  }

  /** One REQ_ARRAY item; None when a field is missing or of the wrong JSON type. */
  function TranslateItem(item: RespItem): Option<OutItem> {
    if !item.capId.Value? || !item.value.Value? || item.uname.WrongType? || item.timestamp.WrongType? then None
    else Some(OutItem(
      item.capId.v,
      item.value.v,
      if item.uname.Value? then Some(item.uname.v) else None,
      if item.timestamp.Value? then item.timestamp.v else 0))
  }

  function TranslateItems(items: seq<RespItem>): Option<seq<OutItem>> {
    if items == [] then Some([])
    else match TranslateItem(items[0])
      case None => None
      case Some(o) =>
        match TranslateItems(items[1..])
        case None => None
        case Some(os) => Some([o] + os)
  }

  function Translate(f: Field<seq<RespItem>>): Option<seq<OutItem>> {
    if f.Value? then TranslateItems(f.v) else None
  }

  predicate GoodCap(c: CapItem) {
    c.capType.Value? && 0 <= ToInt32(c.capType.v) <= 6 && c.capId.Value?
  }

  /** parse_and_fill_node_caps: each capability is put at the front, up to the first bad item. */
  function AddCaps(d: IotData, items: seq<CapItem>): IotData
    decreases |items|
  {
    if items == [] || !GoodCap(items[0]) then d
    else AddCaps(
      d.(caps := [Capability(ToInt32(items[0].capType.v), items[0].capId.v)] + d.caps, capsNum := Inc8(d.capsNum)),
      items[1..])
  }

  /** The countdown starts again. */
  function Greeted(d: IotData): IotData {
    d.(helloCount := HelloCountDefault, hist := d.hist.(fires := 0, greeted := Hellos(d.hist.enqueued)))
  }

  function OnHello(s: State, p: EventNode): State
    requires IsIot(s, p)
  {
    var d := IotOf(s, p);
    var s1 := PutIot(s, p, Greeted(d));
    if d.requests == [] then if s.build.asserts then Halt(s1) else s1
    else if s.build.asserts
      && !(d.requests[0].reqType.HelloRequest? && d.requests[0].status.RequestSent? && d.workState.Busy?)
    then Halt(s1)
    else Release(s1, p)
  }

  function OnCaps(s: State, p: EventNode, name: Field<string>, caps: Field<seq<CapItem>>): State
    requires IsIot(s, p)
  {
    var s1 := if name.Value? then PutIot(s, p, IotOf(s, p).(name := name.v)) else s;
    var s2 := if caps.Value? then PutIot(s1, p, AddCaps(IotOf(s1, p), caps.v)) else s1;
    SetFree(Publish(s2, BroadcastBoth(NodeComingUp(IotOf(s2, p).name, IotOf(s2, p).caps))), p)
  }

  /** The asserts at the head of a GET or SET response. Some(status) when they end the process. */
  function ResponseGuard(s: State, d: IotData, t: RequestType): Option<Status> {
    if !s.build.asserts then None
    else if d.workState != Busy then Some(Halted)
    else if d.requests == [] then Some(Undefined)
    else if d.requests[0].status != RequestSent || d.requests[0].reqType != t then Some(Halted)
    else None
  }

  function OnGetResp(s: State, p: EventNode, arr: Field<seq<RespItem>>): State
    requires IsIot(s, p)
  {
    var d := IotOf(s, p);
    match ResponseGuard(s, d, GetRequest)
    case Some(st) => s.(status := st)
    case None =>
      match Translate(arr)
      case None => s
      case Some(items) =>
        if d.requests == [] || d.requests[0].data.None? then Undef(s)
        else
          var to := d.requests[0].data.value;
          Release(Publish(s, [Publication(ToClient(to.sender), to.broker, GetResponse(d.clientId, d.name, items))]), p)
  }

  function OnSetResp(s: State, p: EventNode, arr: Field<seq<RespItem>>): State
    requires IsIot(s, p)
  {
    var d := IotOf(s, p);
    match ResponseGuard(s, d, SetRequest)
    case Some(st) => s.(status := st)
    case None =>
      match Translate(arr)
      case None => s
      case Some(items) =>
        var s1 := Publish(s, BroadcastBoth(SetResponse(d.clientId, d.name, items)));
        if d.requests == [] then Undef(s1) else Release(s1, p)
  }

  function OnNotif(s: State, p: EventNode, arr: Field<seq<RespItem>>): State
    requires IsIot(s, p)
  {
    match Translate(arr)
    case None => s
    case Some(items) => Publish(s, BroadcastBoth(NotifBroadcast(IotOf(s, p).clientId, IotOf(s, p).name, items)))
  }

  /** process_iot_msg */
  function OnMessage(s: State, p: EventNode, m: IotMsg): State
    requires IsIot(s, p)
  {
    if !m.Object? then s
    else match ParseMsgType(m.msgType)
      case HelloMsg => OnHello(s, p)
      case CapsMsg => OnCaps(s, p, m.name, m.caps)
      case GetRespMsg => OnGetResp(s, p, m.reqArray)
      case SetRespMsg => OnSetResp(s, p, m.reqArray)
      case NotifMsg => OnNotif(s, p, m.reqArray)
      case UnknownMsg => s
  }

  // ----- messages to a node

  function WireGet(params: seq<Param>): seq<WireItem> {
    seq(|params|, i requires 0 <= i < |params| => WireItem(params[i].id, None))
  }

  function WireSet(params: seq<Param>): seq<WireItem> {
    seq(|params|, i requires 0 <= i < |params| => WireItem(params[i].id, params[i].args))
  }

  /** The message sendNodeMessage writes for a request. */
  function WireOf(b: Body): NodeMsg {
    if b.reqType.HelloRequest? || b.data.None? then SendHello
    else if b.reqType.GetRequest? then SendGet(WireGet(b.data.value.params))
    else SendSet(b.data.value.sender, WireSet(b.data.value.params))
  }

  /** The node after its head has been written to it. */
  function SendHead(d: IotData, now: Timespec): IotData
    requires d.requests != []
  {
    d.(workState := Busy,
       requests := [d.requests[0].(status := RequestSent, timestamp := now)] + d.requests[1..],
       hist := d.hist.(written := d.hist.written + [WireOf(BodyOf(d.requests[0]))]))
  }

  /** sendNodeMessage; its other asserts hold where try_do_some_work calls it. */
  function Send(s: State, p: EventNode, now: Reading): State
    requires IsIot(s, p) && IotOf(s, p).requests != []
  {
    var d := IotOf(s, p);
    var r := d.requests[0];
    if s.build.asserts && r.status != RequestPending then Halt(s)
    else if !r.reqType.HelloRequest? && r.data.None? then Undef(s)
    else if EndlessAt(s.build, r, now) then s.(status := Spinning)
    else PutIot(s, p, SendHead(d, now.time))
  }

  /** The loop that writes the message of this request to the socket does not end. */
  predicate EndlessAt(build: Build, r: Request, now: Reading) {
    SendLoop.Endless(build.textSize(WireOf(BodyOf(r))), now.eintr, build.signedChar)
  }

  /** The time test of try_do_some_work. */
  predicate TimedOut(since: Timespec, now: Timespec) {
    1_000_000_000 * (now.sec - since.sec) + (now.nsec - since.nsec) >= TimeoutNanos
  }

  /** One entry of the scan of try_do_some_work. */
  function ScanOne(s: State, p: EventNode, now: Reading): State {
    if p !in s.nodes then Undef(s)
    else if !IsIot(s, p) then s
    else
      var d := IotOf(s, p);
      if d.workState.Busy? then
        if d.requests == [] then Undef(s)
        else if TimedOut(d.requests[0].timestamp, now.time) then Release(s, p)
        else s
      else if d.requests == [] then s
      else Send(s, p, now)
  }

  /** What the scan finds at an entry: the time, and whether errno is still EINTR from an earlier call. */
  datatype Reading = Reading(time: Timespec, eintr: bool)

  /** The readings of a scan, by position in the list. */
  type Clock = nat -> Reading

  /** try_do_some_work, from the i-th entry on. */
  function Scan(s: State, i: nat, clock: Clock): State
    decreases |s.order| - i
  {
    if s.status != Running || i >= |s.order| then s
    else Scan(ScanOne(s, s.order[i], clock(i)), i + 1, clock)
  }

  // ----- dispatch of work_list

  predicate Named(nodes: map<EventNode, NodeData>, p: EventNode, name: string) {
    p in nodes && nodes[p].data.Iot? && nodes[p].data.iot.name == name
  }

  /** The first IoT entry of the list with the given name. */
  function FirstNamed(order: seq<EventNode>, nodes: map<EventNode, NodeData>, name: string): (p: Option<EventNode>)
    ensures p.Some? ==> p.value in order && Named(nodes, p.value, name)
  {
    if order == [] then None
    else if Named(nodes, order[0], name) then Some(order[0])
    else FirstNamed(order[1..], nodes, name)
  }

  function MatchOf(s: State, r: Request): (p: Option<EventNode>)
    ensures p.Some? ==> IsIot(s, p.value)
  {
    if r.data.None? then None else FirstNamed(s.order, s.nodes, r.data.value.nodeName)
  }

  function ErrorReply(r: Request): Publication
    requires r.data.Some?
  {
    Publication(ToClient(r.data.value.sender), r.data.value.broker, NodeNotFound(r.data.value.nodeName))
  }

  /** The dispatch loop at index k of work_list. `clear` is false in the program, whose found flag is
      never cleared; true gives the variant that clears it for every request. */
  function DispatchFrom(s: State, k: nat, found: bool, clear: bool): State
    requires k <= |s.work|
    decreases |s.work| - k
  {
    if k == |s.work| then s
    else
      var r := s.work[k];
      var rest := s.(work := s.work[..k] + s.work[k + 1..]);
      if r.data.None? then Undef(s)
      else match MatchOf(s, r)
        case Some(p) => DispatchFrom(Enqueue(rest, p, r), k, !clear, clear)
        case None =>
          if found then DispatchFrom(s, k + 1, found && !clear, clear)
          else DispatchFrom(Publish(rest, [ErrorReply(r)]), k, false, clear)
  }

  function Dispatch(s: State): State {
    DispatchFrom(s, 0, false, false)
  }

  // ----- the remaining handlers of the event loop

  /** A new connection: its node and its hello timer are added and tied together. */
  function OnAccept(s: State, node: EventNode, timer: EventNode, fd: int, timerFd: int, junk: string): State {
    var s1 := AddEvent(s, node, fd, Iot(NewIot(fd, junk).(timer := Some(timer))));
    AddEvent(s1, timer, timerFd, Timer(Some(node)))
  }

  /** read() returned <= 0 on a node's socket. */
  function OnClosed(s: State, p: EventNode): State
    requires IsIot(s, p)
  {
    var d := IotOf(s, p);
    if d.timer.None? || d.timer.value !in s.nodes then Undef(s)
    else SetFree(Publish(Mark(Mark(s, p), d.timer.value), BroadcastBoth(NodeGoingDown(d.name))), p)
  }

  /** The write of work_state through the wrong view of a timer's union destroys its node pointer. */
  function SpoilOwner(s: State, t: EventNode): State
    requires IsTimer(s, t)
  {
    s.(nodes := s.nodes[t := s.nodes[t].(data := Timer(None))])
  }

  function CountFiring(d: IotData): IotData {
    d.(hist := d.hist.(fires := d.hist.fires + 1))
  }

  function HelloOf(): Request {
    Request(HelloRequest, RequestPending, Timespec(0, 0), None)
  }

  /** A hello timer expired. */
  function OnTimer(s: State, t: EventNode): State
    requires IsTimer(s, t)
  {
    var o := s.nodes[t].data.owner;
    if o.None? || !IsIot(s, o.value) then Undef(s)
    else
      var p := o.value;
      var d := IotOf(s, p);
      if d.helloCount == 0 then
        var s1 := Publish(Mark(Mark(s, t), p), BroadcastBoth(NodeGoingDown(d.name)));
        SpoilOwner(PutIot(s1, p, CountFiring(d)), t)
      else
        var s1 := Enqueue(s, p, HelloOf());
        PutIot(s1, p, CountFiring(IotOf(s1, p)).(helloCount := IotOf(s1, p).helloCount - 1))
  }

  // ----- steps and runs

  /** What the outside offers when an entry is visited. */
  datatype Input =
    | NotReady
    | Accepted(node: EventNode, timer: EventNode, fd: int, timerFd: int, junk: string)
    | NodeClosed
    | NodeMessage(msg: IotMsg)
    | TimerExpired
    | WorkSignal
    | ScanExpired(clock: Clock)
    | ReadFailed

  /** LoopTop: gc, select, and the start of a pass. Visit: the next entry of the pass.
      Arrive: an MQTT thread adds a GET at the front or a SET at the back of work_list. */
  datatype Label = LoopTop | Visit(input: Input) | Arrive(request: Request)

  function OnVisit(s: State, p: EventNode, input: Input): State {
    if p !in s.nodes then Undef(s)
    else match s.nodes[p].data
      case Iot(_) =>
        (match input
         case NodeClosed => OnClosed(s, p)
         case NodeMessage(m) => OnMessage(s, p, m)
         case _ => s)
      case Timer(_) => if input.TimerExpired? then OnTimer(s, p) else s
      case Plain(ListenSocket) =>
        if input.Accepted? then OnAccept(s, input.node, input.timer, input.fd, input.timerFd, input.junk) else s
      case Plain(MqttMsgEvent) => if input.WorkSignal? then Dispatch(s) else s
      case Plain(WorkScanTimerEvent) => if input.ScanExpired? then Scan(s, 0, input.clock) else s
      case _ => s
  }

  function OnArrive(s: State, r: Request): State {
    s.(work := if r.reqType.GetRequest? then [r] + s.work else s.work + [r])
  }

  function OnLoopTop(s: State): State {
    var s1 := Gc(s, s.order);
    s1.(todo := s1.order)
  }

  function Step(s: State, e: Label): State {
    if s.status != Running then s
    else match e
      case LoopTop => if s.todo == [] then OnLoopTop(s) else s
      case Visit(input) => if s.todo == [] then s else OnVisit(s.(todo := s.todo[1..]), s.todo[0], input)
      case Arrive(r) => OnArrive(s, r)
  }

  function Run(s: State, es: seq<Label>): State
    decreases |es|
  {
    if es == [] then s else Run(Step(s, es[0]), es[1..])
  }

  /** What the environment guarantees: fresh memory and unused descriptors on accept, pending GET and
      SET requests from the MQTT threads. Message contents and clocks are arbitrary. */
  ghost predicate Fits(s: State, e: Label) {
    match e
    case LoopTop => true
    case Visit(Accepted(node, timer, fd, timerFd, _)) =>
      && node !in s.nodes && timer !in s.nodes && node != timer
      && 0 <= fd && 0 <= timerFd && fd != timerFd
      && fd !in s.fdSet && timerFd !in s.fdSet
    case Visit(_) => true
    case Arrive(r) => Sound(BodyOf(r)) && !r.reqType.HelloRequest? && r.status == RequestPending
  }

  ghost predicate AllFit(s: State, es: seq<Label>)
    decreases |es|
  {
    es != [] ==> Fits(s, es[0]) && AllFit(Step(s, es[0]), es[1..])
  }

  /** The entries the program lists before its loop, the descriptors the system gave it, and the build. */
  datatype Startup = Startup(
    listen: EventNode, pipe: EventNode, scan: EventNode,
    listenFd: int, pipeFd: int, scanFd: int,
    build: Build)

  ghost predicate GoodStart(b: Startup) {
    && b.listen != b.pipe && b.pipe != b.scan && b.listen != b.scan
    && 0 <= b.listenFd && 0 <= b.pipeFd && 0 <= b.scanFd
    && b.listenFd != b.pipeFd && b.pipeFd != b.scanFd && b.listenFd != b.scanFd
  }

  function Empty(build: Build): State {
    State([], map[], 0, {}, 0, [], [], 0, false, [], Running, build)
  }

  /** The state at the first loop top: the listening socket, the signal pipe and the scan timer are listed. */
  function Boot(b: Startup): State {
    var s1 := AddEvent(Empty(b.build), b.listen, b.listenFd, Plain(ListenSocket));
    var s2 := AddEvent(s1, b.pipe, b.pipeFd, Plain(MqttMsgEvent));
    AddEvent(s2, b.scan, b.scanFd, Plain(WorkScanTimerEvent))
  }
}

/** Records of the gateway: requests, messages and the event-list node. */
module GatewayTypes {
  import opened Common

  // ----- requests

  datatype RequestType = GetRequest | SetRequest | HelloRequest
  datatype RequestStatus = RequestSent | RequestPending
  datatype WorkState = Busy | Free
  datatype Broker = LocalClient | RemoteClient

  datatype Timespec = Timespec(sec: int, nsec: int)

  datatype Param = Param(id: string, args: Option<string>)

  datatype MqttRequest = MqttRequest(sender: string, nodeName: string, params: seq<Param>, broker: Broker)

  datatype Request = Request(reqType: RequestType, status: RequestStatus, timestamp: Timespec,
    data: Option<MqttRequest>)

  /** What of a request never changes once it has been made. */
  datatype Body = Body(reqType: RequestType, data: Option<MqttRequest>)

  function BodyOf(r: Request): Body {
    Body(r.reqType, r.data)
  }

  function Bodies(q: seq<Request>): seq<Body> {
    seq(|q|, i requires 0 <= i < |q| => BodyOf(q[i]))
  }

  /** GET and SET carry request data, HELLO carries none. */
  predicate Sound(b: Body) {
    b.reqType.HelloRequest? <==> b.data.None?
  }

  // ----- messages from a node, after JSON parsing

  datatype Field<T> = Missing | WrongType | Value(v: T)

  datatype CapItem = CapItem(capType: Field<int>, capId: Field<string>)
  datatype RespItem = RespItem(capId: Field<string>, value: Field<string>, uname: Field<string>, timestamp: Field<int>)

  datatype IotMsg =
    | NotJson
    | NotObject
    | Object(msgType: Field<int>, name: Field<string>, caps: Field<seq<CapItem>>, reqArray: Field<seq<RespItem>>)

  datatype IotMsgType = CapsMsg | HelloMsg | GetRespMsg | SetRespMsg | NotifMsg | UnknownMsg

  // ----- messages to a node

  datatype WireItem = WireItem(capId: string, value: Option<string>)

  datatype NodeMsg =
    | SendHello
    | SendGet(items: seq<WireItem>)
    | SendSet(sender: string, items: seq<WireItem>)

  // ----- messages to the brokers

  datatype Capability = Capability(capType: int, capId: string)
  datatype OutItem = OutItem(id: string, value: string, uname: Option<string>, timestamp: int)

  datatype MqttMsg =
    | NodeComingUp(nodeName: string, caps: seq<Capability>)
    | NodeGoingDown(nodeName: string)
    | GetResponse(nodeId: int, nodeName: string, items: seq<OutItem>)
    | SetResponse(nodeId: int, nodeName: string, items: seq<OutItem>)
    | NotifBroadcast(nodeId: int, nodeName: string, items: seq<OutItem>)
    | NodeNotFound(nodeName: string)

  datatype Topic = Broadcast | ToClient(name: string)

  datatype Publication = Publication(topic: Topic, broker: Broker, msg: MqttMsg)

  // ----- event-list nodes

  datatype EventType = ListenSocket | IotEvent | TimerEvent | MqttMsgEvent | WorkScanTimerEvent

  /** The HELLO requests among some. */
  function Hellos(bs: seq<Body>): nat {
    if bs == [] then 0 else Hellos(bs[..|bs| - 1]) + if bs[|bs| - 1].reqType.HelloRequest? then 1 else 0
  }

  /** History variables of one IoT node: what was put into its queue, what left it at the front,
      what was written to its socket, the timer firings since it connected or last said HELLO, and how many
      HELLO requests had been put into its queue by then. */
  datatype History = History(enqueued: seq<Body>, completed: seq<Body>, written: seq<NodeMsg>, fires: nat, greeted: nat)

  const FreshHistory := History([], [], [], 0, 0)

  datatype IotData = IotData(
    clientId: int,
    helloCount: nat,
    workState: WorkState,
    name: string,
    caps: seq<Capability>,
    capsNum: nat,
    requests: seq<Request>,
    timer: Option<EventNode>,
    hist: History)

  datatype EventData = Plain(eventType: EventType) | Iot(iot: IotData) | Timer(owner: Option<EventNode>)

  datatype NodeData = NodeData(fd: int, marked: bool, data: EventData)

  /** struct event_list_node. The union of the two per-type records is kept as separate fields;
      a pointer that must not be followed is null. */
  class EventNode {
    const eventFd: int
    const eventType: EventType
    var delMark: bool
    // iot_data
    var clientId: int
    var helloCount: nat
    var workState: WorkState
    var clientName: string
    var caps: seq<Capability>
    var capsNum: nat
    var requests: seq<Request>
    var timerPtr: EventNode?
    // timer_data
    var nodePtr: EventNode?
    ghost var hist: History

    /** The abstract value of the node. */
    ghost function Data(): NodeData
      reads this
    {
      NodeData(eventFd, delMark,
        match eventType
        case IotEvent =>
          Iot(IotData(clientId, helloCount, workState, clientName, caps, capsNum, requests, Ptr(timerPtr), hist))
        case TimerEvent => Timer(Ptr(nodePtr))
        case t => Plain(t))
    }

    static function Ptr(p: EventNode?): Option<EventNode> {
      if p == null then None else Some(p)
    }

    constructor (fd: int, eventType: EventType, junk: string)
      ensures eventFd == fd && this.eventType == eventType && !delMark
      ensures clientId == fd && helloCount == 3 && workState == Free && clientName == junk
      ensures caps == [] && capsNum == 0 && requests == [] && hist == FreshHistory
      ensures timerPtr == null && nodePtr == null
    {
      eventFd, this.eventType, delMark := fd, eventType, false;
      clientId, helloCount, workState, clientName := fd, 3, Free, junk;
      caps, capsNum, requests, hist := [], 0, [], FreshHistory;
      timerPtr, nodePtr := null, null;
    }
  }
}

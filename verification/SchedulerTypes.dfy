/** Records of the scheduler: tasks, subscriptions and the messages they react to. */
module SchedulerTypes {
  import opened Common
  import opened GatewayTypes

  const SwitchOffTimer := 0
  const Once := 0
  const MsgSetResp := 4
  const MsgNotifBroadcast := 7

  /** History variables of a task: its creation number, the times of the matching ON events since creation or
      the last deactivation, and how often it was activated and fired. */
  datatype TaskHistory = TaskHistory(serial: nat, ons: seq<int>, activations: nat, fires: nat)

  datatype TaskData = TaskData(
    id: int,
    active: bool,
    kind: int,
    persist: int,
    nodeName: string,
    capName: string,
    sender: string,
    interval: nat,
    deadline: int,
    sub: Option<Subscription>,
    hist: TaskHistory)

  /** struct task_s */
  class Task {
    const kind: int
    const persist: int
    const nodeName: string
    const capName: string
    const sender: string
    const interval: nat
    var id: int
    var active: bool
    var deadline: int
    var subscription: Subscription?
    ghost var hist: TaskHistory

    ghost function Data(): TaskData
      reads this
    {
      TaskData(id, active, kind, persist, nodeName, capName, sender, interval, deadline,
               if subscription == null then None else Some(subscription), hist)
    }

    constructor (kind: int, persist: int, nodeName: string, capName: string, sender: string, interval: nat,
      ghost serial: nat)
      ensures this.kind == kind && this.persist == persist && this.interval == interval
      ensures this.nodeName == nodeName && this.capName == capName && this.sender == sender
      ensures !active && id == 0 && deadline == 0 && subscription == null && hist == TaskHistory(serial, [], 0, 0)
    {
      this.kind, this.persist, this.interval := kind, persist, interval;
      this.nodeName, this.capName, this.sender := nodeName, capName, sender;
      id, active, deadline, subscription, hist := 0, false, 0, null, TaskHistory(serial, [], 0, 0);
    }
  }

  /** struct event_subscription_s with its switch-on event; the action is to activate the task it belongs to. */
  class Subscription {
    const nodeName: string
    const capName: string
    const target: Task

    constructor (nodeName: string, capName: string, target: Task)
      ensures this.nodeName == nodeName && this.capName == capName && this.target == target
    {
      this.nodeName, this.capName, this.target := nodeName, capName, target;
    }
  }

  /** An OFF request sent for a task, with the deadline it was due at and the time it was sent. */
  datatype OffRequest = OffRequest(serial: nat, once: bool, nodeName: string, capName: string, sender: string,
    deadline: int, at: int)

  // ----- messages, after JSON parsing

  datatype SetTimer = SetTimer(
    sender: Field<string>, nodeName: Field<string>, capName: Field<string>, gateway: Field<string>,
    persist: Field<int>, kind: Field<int>, time: Field<int>)

  datatype SwitchItem = SwitchItem(id: string, value: string)

  datatype SwitchMsg = SwitchMsg(msgType: Field<int>, nodeName: Field<string>, items: Field<seq<SwitchItem>>)
}

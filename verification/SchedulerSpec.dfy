/** The scheduler engine as a deterministic step machine over abstract states. */
module SchedulerSpec {
  import opened Common
  import opened GatewayTypes
  import opened SchedulerTypes

  datatype State = State(
    tasks: seq<Task>,              // task_list, front first
    data: map<Task, TaskData>,     // the live tasks
    subs: seq<Subscription>,       // event_subsc_list
    taskCount: nat,                // task_count, a uint32_t
    created: nat,                  // how many tasks were ever appended
    sent: seq<OffRequest>,
    dangling: bool,                // task_list or a subscription has led to a freed task
    freedReads: nat,               // how often delete_task has read task->id after free(task)
    doubleFrees: nat)              // how often free was called on a task that had been freed

  /** The readings of time(), one for each entry of the list walked. */
  type Clock = nat -> int

  function Put(s: State, t: Task, d: TaskData): State {
    s.(data := s.data[t := d])
  }

  // ----- the automaton of one task

  /** activateSwitchOffTimer: a second ON does not move the deadline. */
  function Activate(d: TaskData, now: int): TaskData {
    if d.active then d.(hist := d.hist.(ons := d.hist.ons + [now]))
    else d.(active := true, deadline := now + d.interval,
            hist := d.hist.(ons := d.hist.ons + [now], activations := d.hist.activations + 1))
  }

  /** Whether the tick fires the task. */
  predicate Due(d: TaskData, now: int) {
    d.kind == SwitchOffTimer && d.active && now >= d.deadline
  }

  /** deActivateSwitchOffTimer, after the request has been sent. */
  function Fired(d: TaskData): TaskData {
    d.(active := false, hist := d.hist.(ons := [], fires := d.hist.fires + 1))
  }

  function OffFor(d: TaskData, now: int): OffRequest {
    OffRequest(d.hist.serial, d.persist == Once, d.nodeName, d.capName, d.sender, d.deadline, now)
  }

  // ----- creation and deletion

  /** What a timer set request asks for, None where it is given up. */
  function Wanted(m: SetTimer): Option<(int, int, string, string, string, nat)> {
    if !m.sender.Value? || !m.nodeName.Value? || !m.capName.Value? || !m.gateway.Value? || !m.kind.Value? then None
    else
      var kind := ToInt32(m.kind.v);
      var persist := if m.persist.Value? then ToInt32(m.persist.v) else 0;
      if kind != SwitchOffTimer then Some((kind, persist, m.nodeName.v, m.capName.v, m.sender.v, 0))
      else if !m.time.Value? || m.time.v % 0x1_0000_0000 == 0 then None
      else Some((kind, persist, m.nodeName.v, m.capName.v, m.sender.v, m.time.v % 0x1_0000_0000))
  }

  /** A block of the heap, and how often free was called on it. */
  datatype Block = Block(frees: nat)

  /** free */
  function Release(b: Block): Block { Block(b.frees + 1) }

  /** The calls of free that found the block freed already. */
  function Excess(b: Block): nat {
    if b.frees <= 1 then 0 else b.frees - 1
  }

  /** What the tests on a timer set request do to the task allocated for it. The first test on reqSenderName frees the
      task and goes on; every other failing test frees it and leaves. */
  function Given(m: SetTimer): Block {
    var task := Block(0);
    var task1 := if m.sender.Missing? then Release(task) else task;
    if !m.sender.Value? then Release(task1)
    else if !m.nodeName.Value? then Release(task1)
    else if !m.capName.Value? then Release(task1)
    else if !m.gateway.Value? then Release(task1)
    else if !m.kind.Value? then Release(task1)
    else if ToInt32(m.kind.v) != SwitchOffTimer then task1
    else if !m.time.Value? then Release(task1)
    else if m.time.v % 0x1_0000_0000 == 0 then Release(task1)
    else task1
  }

  /** A new task at the back of task_list and, for a switch-off timer, its subscription at the back of
      event_subsc_list. */
  function Create(s: State, t: Task, sub: Option<Subscription>, w: (int, int, string, string, string, nat)): State {
    var count := (s.taskCount + 1) % 0x1_0000_0000;
    var d := TaskData(ToInt32(count), false, w.0, w.1, w.2, w.3, w.4, w.5, 0, sub, TaskHistory(s.created, [], 0, 0));
    Put(s, t, d).(
      tasks := s.tasks + [t],
      subs := if sub.Some? then s.subs + [sub.value] else s.subs,
      taskCount := count,
      created := s.created + 1)
  }

  /** list_del and delete_task. The name of the file to remove is made from the id of the task just freed. */
  function Remove(s: State, t: Task): State
    requires t in s.data
  {
    s.(tasks := Without(s.tasks, t),
       data := s.data - {t},
       subs := if s.data[t].sub.Some? then Without(s.subs, s.data[t].sub.value) else s.subs,
       freedReads := s.freedReads + 1)
  }

  /** The loop of perform_timer_delete as it is written: the deletion stands outside the test. */
  function DeleteLoop(s: State, ts: seq<Task>): State
    decreases |ts|
  {
    if ts == [] then s
    else DeleteLoop(if ts[0] in s.data then Remove(s, ts[0]) else s, ts[1..])
  }

  /** The loop as its comment describes it: only the match is deleted. */
  function DeleteMatchLoop(s: State, ts: seq<Task>, id: int): State
    decreases |ts|
  {
    if ts == [] then s
    else DeleteMatchLoop(if ts[0] in s.data && s.data[ts[0]].id == id then Remove(s, ts[0]) else s, ts[1..], id)
  }

  // ----- broadcasts

  predicate MatchesType(m: SwitchMsg, t: int) {
    m.msgType.Value? && m.msgType.v % 256 == t
  }

  predicate MatchesItem(items: seq<SwitchItem>, capName: string) {
    items != [] && ((items[0].id == capName && items[0].value == "ON") || MatchesItem(items[1..], capName))
  }

  /** The test of process_subscriptions for one switch-on event. */
  predicate Matches(m: SwitchMsg, nodeName: string, capName: string) {
    && (MatchesType(m, MsgSetResp) || MatchesType(m, MsgNotifBroadcast))
    && m.nodeName == Value(nodeName)
    && m.items.Value? && MatchesItem(m.items.v, capName)
  }

  /** process_subscriptions: the action of every matching subscription, through its back pointer. */
  function Notify(s: State, i: nat, m: SwitchMsg, clock: Clock): State
    decreases |s.subs| - i
  {
    if i >= |s.subs| then s
    else
      var sub := s.subs[i];
      if !Matches(m, sub.nodeName, sub.capName) then Notify(s, i + 1, m, clock)
      else if sub.target !in s.data then Notify(s.(dangling := true), i + 1, m, clock)
      else Notify(Put(s, sub.target, Activate(s.data[sub.target], clock(i))), i + 1, m, clock)
  }

  // ----- the tick

  function TickOne(s: State, t: Task, now: int): State {
    if t !in s.data then s.(dangling := true)
    else if !Due(s.data[t], now) then s
    else
      var s1 := s.(sent := s.sent + [OffFor(s.data[t], now)]);
      if s.data[t].persist == Once then Remove(s1, t) else Put(s1, t, Fired(s.data[t]))
  }

  /** The tick loop over what is left of the snapshot; i entries have been visited. */
  function Tick(s: State, ts: seq<Task>, i: nat, clock: Clock): State
    decreases |ts|
  {
    if ts == [] then s else Tick(TickOne(s, ts[0], clock(i)), ts[1..], i + 1, clock)
  }

  // ----- runs

  datatype Label =
    | SetRequest(task: Task, sub: Subscription, m: SetTimer)
    | DeleteRequest(id: Field<int>)
    | Broadcast(msg: SwitchMsg, broadcastClock: Clock)
    | Second(tickClock: Clock)

  function Step(s: State, e: Label): State {
    match e
    case SetRequest(t, sub, m) =>
      (match Wanted(m)
       case None => s.(doubleFrees := s.doubleFrees + Excess(Given(m)))
       case Some(w) => Create(s, t, if w.0 == SwitchOffTimer then Some(sub) else None, w))
    case DeleteRequest(id) => if id.Value? then DeleteLoop(s, s.tasks) else s
    case Broadcast(m, clock) => Notify(s, 0, m, clock)
    case Second(clock) => Tick(s, s.tasks, 0, clock)
  }

  function Run(s: State, es: seq<Label>): State
    decreases |es|
  {
    if es == [] then s else Run(Step(s, es[0]), es[1..])
  }

  /** A set request gets fresh memory for the task and for a subscription made for it. */
  ghost predicate Fits(s: State, e: Label) {
    e.SetRequest? && Wanted(e.m).Some? ==>
      && e.task !in s.data && e.sub !in s.subs && e.sub.target == e.task
      && e.sub.nodeName == Wanted(e.m).value.2 && e.sub.capName == Wanted(e.m).value.3
  }

  ghost predicate AllFit(s: State, es: seq<Label>)
    decreases |es|
  {
    es != [] ==> Fits(s, es[0]) && AllFit(Step(s, es[0]), es[1..])
  }

  const Initial: State := State([], map[], [], 0, 0, [], false, 0, 0)
}

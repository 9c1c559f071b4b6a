/** The scheduler as the program runs it: tasks and subscriptions on the heap, two global lists updated in place.
    Every method is proved equal to its step of SchedulerSpec. */
module SchedulerEngine {
  import opened Common
  import opened GatewayTypes
  import opened SchedulerTypes
  import opened SchedulerSpec
  import opened SchedulerInvariant
  import opened SchedulerRuns

  class Scheduler {
    var taskList: seq<Task>
    var eventSubscList: seq<Subscription>
    var taskCount: nat
    ghost var created: nat
    ghost var sent: seq<OffRequest>     // the OFF requests published so far
    ghost var freedReads: nat           // how often a freed task has been read
    ghost var doubleFrees: nat          // how often a task has been freed twice

    ghost function Tasks(): map<Task, TaskData>
      reads this`taskList, taskList
    {
      map t: Task | t in taskList :: t.Data()
    }

    ghost function View(): State
      reads this, taskList
    {
      State(taskList, Tasks(), eventSubscList, taskCount, created, sent, false, freedReads, doubleFrees)
    }

    constructor ()
      ensures View() == Initial
    {
      taskList, eventSubscList, taskCount, created, sent, freedReads, doubleFrees := [], [], 0, 0, [], 0, 0;
    }

    // ----- timer set requests

    /** subscribeEvent for the switch-on event of a task that is not listed yet. */
    method SubscribeEvent(task: Task) returns (sub: Subscription)
      requires task !in taskList
      modifies this`eventSubscList, task`subscription
      ensures fresh(sub) && sub.target == task && sub.nodeName == task.nodeName && sub.capName == task.capName
      ensures View() == old(View()).(subs := old(eventSubscList) + [sub]) && task.subscription == sub
    {
      sub := new Subscription(task.nodeName, task.capName, task);
      eventSubscList := eventSubscList + [sub];
      task.subscription := sub;
      assert Tasks() == old(Tasks());
    }

    method AppendTaskToTaskList(task: Task)
      requires task !in taskList
      modifies this`taskList, this`taskCount, this`created, task`id
      ensures var count := (old(taskCount) + 1) % 0x1_0000_0000;
        View() == Put(old(View()), task, old(task.Data()).(id := ToInt32(count)))
          .(tasks := old(taskList) + [task], taskCount := count, created := old(created) + 1)
    {
      taskList := taskList + [task];
      taskCount := (taskCount + 1) % 0x1_0000_0000;
      task.id := ToInt32(taskCount);
      created := created + 1;
      assert Tasks() == old(Tasks())[task := task.Data()];
    }

    /** calloc of a task and, for a switch-off timer, its subscription; then it is listed. */
    method AddTask(kind: int, persist: int, nodeName: string, capName: string, sender: string, interval: nat)
      returns (task: Task, sub: Subscription)
      modifies this
      ensures fresh(task) && fresh(sub) && sub.target == task && sub.nodeName == nodeName && sub.capName == capName
      ensures View() == Create(old(View()), task, if kind == SwitchOffTimer then Some(sub) else None,
                               (kind, persist, nodeName, capName, sender, interval))
    {
      hide *;
      task := new Task(kind, persist, nodeName, capName, sender, interval, created);
      ViewFields(this);
      if kind == SwitchOffTimer {
        sub := SubscribeEvent(task);
      } else {
        sub := new Subscription(nodeName, capName, task);
      }
      CreateInSteps(old(View()), task, if kind == SwitchOffTimer then Some(sub) else None,
                    (kind, persist, nodeName, capName, sender, interval));
      NewTaskData(task);
      AppendTaskToTaskList(task);
    }

    method OnSetRequest(m: SetTimer) returns (ghost e: Label)
      requires Inv(View())
      modifies this
      ensures Fits(old(View()), e) && View() == Step(old(View()), e) && Inv(View())
    {
      ghost var s := View();
      hide Inv;
      var task, sub := Vacant();
      e := Label.SetRequest(task, sub, m);
      ghost var block := Block(0);
      if m.sender.Missing? {
        block := Release(block);
      }
      if !m.sender.Value? || !m.nodeName.Value? || !m.capName.Value? || !m.gateway.Value? || !m.kind.Value? {
        GiveUp(Release(block));
        StepKeepsInv(s, e);
        return;
      }
      var kind := ToInt32(m.kind.v);
      var persist := if m.persist.Value? then ToInt32(m.persist.v) else 0;
      var interval := 0;
      if kind == SwitchOffTimer {
        if !m.time.Value? {
          GiveUp(Release(block));
          return;
        }
        interval := m.time.v % 0x1_0000_0000;
        if interval == 0 {
          GiveUp(Release(block));
          return;
        }
      }
      ghost var w := (kind, persist, m.nodeName.v, m.capName.v, m.sender.v, interval);
      task, sub := AddTask(kind, persist, m.nodeName.v, m.capName.v, m.sender.v, interval);
      e := Label.SetRequest(task, sub, m);
      FreshFits(s, e, w);
      StepKeepsInv(s, e);
      hide Create;
    }

    /** The request is given up with its task freed. */
    ghost method GiveUp(block: Block)
      modifies this`doubleFrees
      ensures View() == old(View()).(doubleFrees := old(doubleFrees) + Excess(block))
    {
      doubleFrees := doubleFrees + Excess(block);
    }

    /** The task allocated before the message is read, with a subscription for it; both are dropped again. */
    method Vacant() returns (task: Task, sub: Subscription)
      ensures fresh(task) && fresh(sub)
    {
      task := new Task(0, 0, "", "", "", 0, 0);
      sub := new Subscription("", "", task);
    }

    // ----- deletion

    /** list_del on task_list. */
    method UnlistTask(t: Task)
      requires t in taskList && Distinct(taskList)
      modifies this`taskList
      ensures View() == old(View()).(tasks := Without(old(taskList), t), data := old(Tasks()) - {t})
    {
      WithoutShape(taskList, t);
      taskList := Without(taskList, t);
      assert forall u :: u in taskList <==> u in old(taskList) && u != t;
      hide Without, Distinct;
      assert Tasks() == old(Tasks()) - {t};
    }

    /** list_del and delete_task, which reads the id of the task it has just freed. */
    method RemoveTask(t: Task)
      requires t in taskList && Distinct(taskList)
      modifies this`taskList, this`eventSubscList, this`freedReads
      ensures View() == Remove(old(View()), t)
    {
      hide Remove, Without, Distinct;
      ViewFields(this);
      RemoveInSteps(View(), t);
      UnlistTask(t);
      if t.subscription != null {
        var sub: Subscription := t.subscription;
        eventSubscList := Without(eventSubscList, sub);
      }
      freedReads := freedReads + 1;
    }

    /** perform_timer_delete: every task of the list is deleted, matching or not. */
    method PerformTimerDelete(id: Field<int>)
      requires Inv(View())
      modifies this
      ensures View() == Step(old(View()), DeleteRequest(id)) && Inv(View())
    {
      if !id.Value? {
        return;
      }
      ghost var goal := DeleteLoop(View(), taskList);
      var rest := taskList;
      while rest != []
        invariant Inv(View()) && rest == taskList
        invariant DeleteLoop(View(), rest) == goal
        decreases |rest|
      {
        var t := rest[0];
        DeleteLoopCons(View());
        ListIsDistinct(View());
        hide Inv, Remove, Distinct;
        RemoveTask(t);
        rest := rest[1..];
      }
    }

    // ----- broadcasts

    /** activateSwitchOffTimer */
    method ActivateSwitchOffTimer(t: Task, now: int)
      requires t in taskList
      modifies t
      ensures View() == Put(old(View()), t, Activate(old(t.Data()), now))
    {
      t.hist := t.hist.(ons := t.hist.ons + [now]);
      if !t.active {
        t.active := true;
        t.deadline := now + t.interval;
        t.hist := t.hist.(activations := t.hist.activations + 1);
      }
      assert Tasks() == old(Tasks())[t := t.Data()];
    }

    /** matchCapIdValue */
    method MatchCapIdValue(items: seq<SwitchItem>, capId: string) returns (ret: bool)
      ensures ret <==> MatchesItem(items, capId)
      ensures ret <==> exists k :: 0 <= k < |items| && items[k] == SwitchItem(capId, "ON")
    {
      ret := false;
      var i := 0;
      while i < |items|
        invariant i <= |items| && MatchesItem(items[i..], capId) == MatchesItem(items, capId)
        invariant forall k :: 0 <= k < i ==> items[k] != SwitchItem(capId, "ON")
      {
        assert items[i..][0] == items[i] && items[i..][1..] == items[i + 1..];
        if items[i].id == capId && items[i].value == "ON" {
          return true;
        }
        i := i + 1;
      }
    }

    /** process_subscriptions: each action_data pointer is followed; by the invariant its task is alive. */
    method ProcessSubscriptions(m: SwitchMsg, clock: Clock)
      requires Inv(View())
      modifies taskList
      ensures View() == Step(old(View()), Label.Broadcast(m, clock)) && Inv(View())
    {
      ghost var s := View();
      StepIsLoop(s, m, clock);
      hide Inv, Notify, Step;
      var i := 0;
      while i < |eventSubscList|
        invariant i <= |eventSubscList| && Inv(View())
        invariant Notify(View(), i, m, clock) == Notify(s, 0, m, clock)
      {
        ProcessOne(i, m, clock);
        i := i + 1;
      }
      NotifyNil(View(), i, m, clock);
    }

    /** The test for one subscription. */
    method EventMatches(m: SwitchMsg, sub: Subscription) returns (hit: bool)
      ensures hit <==> Matches(m, sub.nodeName, sub.capName)
      ensures hit <==> SwitchesOn(m, sub.nodeName, sub.capName)
    {
      MatchesMeans(m, sub.nodeName, sub.capName);
      hide SwitchesOn;
      if !MatchesType(m, MsgSetResp) && !MatchesType(m, MsgNotifBroadcast) {
        return false;
      }
      if m.nodeName != Value(sub.nodeName) || !m.items.Value? {
        return false;
      }
      hit := MatchCapIdValue(m.items.v, sub.capName);
    }

    method ProcessOne(i: nat, m: SwitchMsg, clock: Clock)
      requires Inv(View()) && i < |eventSubscList|
      modifies taskList
      ensures Inv(View()) && Notify(old(View()), i, m, clock) == Notify(View(), i + 1, m, clock)
    {
      hide *;
      ghost var s := View();
      var sub := eventSubscList[i];
      ViewFields(this);
      ProcessStep(s, i, m, clock);
      TargetIsListed(this, sub);
      var hit := EventMatches(m, sub);
      if hit {
        ActivateSwitchOffTimer(sub.target, clock(i));
      }
    }

    // ----- the tick

    /** The loop over task_list, once a second. */
    method TickTasks(clock: Clock)
      requires Inv(View())
      modifies this, taskList
      ensures View() == Step(old(View()), Second(clock)) && Inv(View())
    {
      ghost var s := View();
      StepIsLoop(s, SwitchMsg(Missing, Missing, Missing), clock);
      ListIsDistinct(s);
      hide Inv, Tick, TickOne, Step, Distinct;
      var rest, i := taskList, 0;
      while rest != []
        invariant Inv(View()) && Distinct(rest)
        invariant forall j :: 0 <= j < |rest| ==> rest[j] in taskList && rest[j] in old(taskList)
        invariant Tick(View(), rest, i, clock) == Tick(s, s.tasks, 0, clock)
        decreases |rest|
      {
        var t := rest[0];
        DistinctTail(rest);
        TickCons(View(), rest, i, clock);
        TickTask(t, clock(i), rest[1..]);
        rest, i := rest[1..], i + 1;
      }
      TickNil(View(), [], i, clock);
    }

    method TickTask(t: Task, now: int, ghost others: seq<Task>)
      requires Inv(View()) && t in taskList
      requires forall j :: 0 <= j < |others| ==> others[j] in taskList && others[j] != t
      modifies this, t
      ensures View() == TickOne(old(View()), t, now) && Inv(View())
      ensures forall j :: 0 <= j < |others| ==> others[j] in taskList
    {
      ghost var s := View();
      assert s.data[t] == t.Data();
      TickOneKeepsInv(s, t, now);
      ListIsDistinct(s);
      StillListed(s, TickOne(s, t, now), t, others);
      hide Inv, Remove, Distinct;
      if t.kind != SwitchOffTimer || !t.active || now < t.deadline {
        return;
      }
      SendOff(t, now);
      if t.persist == Once {
        RemoveTask(t);
      } else {
        DeActivateSwitchOffTimer(t);
      }
    }

    /** sendMqttSetRequest, called through cmd with the task as its argument. */
    ghost method SendOff(t: Task, now: int)
      requires t in taskList
      modifies this`sent
      ensures View() == old(View()).(sent := old(sent) + [OffFor(t.Data(), now)])
    {
      var once := t.persist == Once;
      sent := sent + [OffRequest(t.hist.serial, once, t.nodeName, t.capName, t.sender, t.deadline, now)];
    }

    method DeActivateSwitchOffTimer(t: Task)
      requires t in taskList
      modifies t
      ensures View() == Put(old(View()), t, Fired(old(t.Data())))
    {
      t.active := false;
      t.hist := t.hist.(ons := [], fires := t.hist.fires + 1);
      assert Tasks() == old(Tasks())[t := t.Data()];
    }
  }

  // ----- facts the methods use

  lemma FreshFits(s: State, e: Label, w: (int, int, string, string, string, nat))
    requires e.SetRequest? && Wanted(e.m) == Some(w) && e.task !in s.data && e.sub !in s.subs
    requires e.sub.target == e.task && e.sub.nodeName == w.2 && e.sub.capName == w.3
    ensures Fits(s, e)
  {
  }

  lemma StepIsLoop(s: State, m: SwitchMsg, clock: Clock)
    ensures Step(s, Label.Broadcast(m, clock)) == Notify(s, 0, m, clock)
    ensures Step(s, Second(clock)) == Tick(s, s.tasks, 0, clock)
  {
  }

  lemma ProcessStep(s: State, i: nat, m: SwitchMsg, clock: Clock)
    requires Inv(s) && i < |s.subs|
    ensures s.subs[i].target in s.data
    ensures var s1 := if Matches(m, s.subs[i].nodeName, s.subs[i].capName)
        then Put(s, s.subs[i].target, Activate(s.data[s.subs[i].target], clock(i))) else s;
      Inv(s1) && Notify(s, i, m, clock) == Notify(s1, i + 1, m, clock)
  {
    NotifyOne(s, s.subs[i], clock(i));
    hide Inv, Activate;
  }

  lemma NewTaskData(t: Task)
    requires !t.active && t.id == 0 && t.deadline == 0
    ensures t.Data() == TaskData(0, false, t.kind, t.persist, t.nodeName, t.capName, t.sender, t.interval, 0,
                                 if t.subscription == null then None else Some(t.subscription), t.hist)
  {
  }

  lemma ViewFields(g: Scheduler)
    ensures var s := g.View();
      && s.tasks == g.taskList && s.subs == g.eventSubscList && s.taskCount == g.taskCount && s.created == g.created
      && s.data == g.Tasks() && s.freedReads == g.freedReads
      && forall t :: t in g.taskList ==>
           t in s.data && s.data[t].sub == if t.subscription == null then None else Some(t.subscription)
  {
  }

  lemma RemoveInSteps(s: State, t: Task)
    requires t in s.data
    ensures var s1 := s.(tasks := Without(s.tasks, t), data := s.data - {t});
      && Remove(s, t) ==
         (if s.data[t].sub.Some? then s1.(subs := Without(s1.subs, s.data[t].sub.value))
           else s1).(freedReads := s.freedReads + 1)
  {
  }

  /** A live target is a listed task, and its fields are its data. */
  lemma TargetIsListed(g: Scheduler, sub: Subscription)
    requires sub.target in g.View().data
    ensures sub.target in g.taskList && g.View().data[sub.target] == sub.target.Data()
  {
  }

  /** Filling in the task, subscribing it and listing it. */
  lemma CreateInSteps(s: State, t: Task, sub: Option<Subscription>, w: (int, int, string, string, string, nat))
    ensures var count := (s.taskCount + 1) % 0x1_0000_0000;
      var d := TaskData(0, false, w.0, w.1, w.2, w.3, w.4, w.5, 0, sub, TaskHistory(s.created, [], 0, 0));
      var subs := if sub.Some? then s.subs + [sub.value] else s.subs;
      Put(s.(subs := subs), t, d.(id := ToInt32(count))).(tasks := s.tasks + [t], taskCount := count,
        created := s.created + 1)
        == Create(s, t, sub, w)
  {
  }

  lemma DistinctTail(ts: seq<Task>)
    requires ts != [] && Distinct(ts)
    ensures Distinct(ts[1..]) && forall j :: 0 <= j < |ts[1..]| ==> ts[1..][j] == ts[j + 1] && ts[j + 1] != ts[0]
  {
  }

  lemma ListIsDistinct(s: State)
    requires Inv(s)
    ensures Distinct(s.tasks)
  {
  }

  lemma StillListed(s: State, s': State, t: Task, others: seq<Task>)
    requires Inv(s) && Inv(s')
    requires forall u :: u in s.data && u != t ==> u in s'.data
    requires forall j :: 0 <= j < |others| ==> others[j] in s.tasks && others[j] != t
    ensures forall j :: 0 <= j < |others| ==> others[j] in s'.tasks
  {
  }
}

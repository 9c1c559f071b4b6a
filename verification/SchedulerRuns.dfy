/** The promises of the scheduler over whole runs, from its empty start on. */
module SchedulerRuns {
  import opened Common
  import opened GatewayTypes
  import opened SchedulerTypes
  import opened SchedulerSpec
  import opened SchedulerInvariant

  lemma StepKeepsInv(s: State, e: Label)
    requires Inv(s) && Fits(s, e)
    ensures Inv(Step(s, e))
  {
    hide Inv, Notify, Tick, Create, Wanted, DeleteLoop, Survivors, Offs;
    match e
    case SetRequest(_, _, _) => CreateKeepsInv(s, e);
    case DeleteRequest(id) =>
      if id.Value? {
        DeleteRequestDeletesAll(s, id);
      }
    case Broadcast(m, clock) => NotifyIsPointwise(s, 0, m, clock);
    case Second(clock) =>
      assert [] + s.tasks == s.tasks;
      TickIsPointwise(s, [], s.tasks, 0, clock);
  }

  lemma {:induction false} RunKeepsInv(s: State, es: seq<Label>)
    requires Inv(s) && AllFit(s, es)
    ensures Inv(Run(s, es))
    decreases |es|
  {
    hide Inv, Step;
    if es != [] {
      StepKeepsInv(s, es[0]);
      RunKeepsInv(Step(s, es[0]), es[1..]);
    }
  }

  lemma ReachedInv(es: seq<Label>)
    requires AllFit(Initial, es)
    ensures Inv(Run(Initial, es))
  {
    assert Inv(Initial);
    RunKeepsInv(Initial, es);
  }

  /** event_subsc_list is, in order, the subscriptions of the switch-off tasks of task_list; each points back to
      its own live task, and neither list ever leads to a freed one. */
  lemma ListsInLockstep(es: seq<Label>)
    requires AllFit(Initial, es)
    ensures var s := Run(Initial, es);
      && s.subs == SubsOf(s.tasks, s.data) && Distinct(s.subs) && !s.dangling
      && (forall j :: 0 <= j < |s.subs| ==> (
            && s.subs[j].target in s.tasks && s.subs[j].target in s.data
            && s.data[s.subs[j].target].sub == Some(s.subs[j])))
  {
    ReachedInv(es);
    var s := Run(Initial, es);
    hide Run, AllFit;
    SubsDistinct(s.tasks, s.data);
    SubsTargets(s.tasks, s.data);
    assert forall j :: 0 <= j < |s.subs| ==> s.subs[j] in s.subs;
  }

  // ----- reads of freed tasks

  /** A ONCE task that the tick fires. */
  ghost predicate OnceDue(s: State, clock: Clock, k: nat) {
    && k < |s.tasks| && s.tasks[k] in s.data
    && Expired(s.data[s.tasks[k]], clock(k)) && s.data[s.tasks[k]].persist == 0
  }

  /** A step that deletes something: a delete request, whatever its id, or the firing of a ONCE task. */
  ghost predicate Deletes(s: State, e: Label) {
    || (e.DeleteRequest? && e.id.Value? && s.tasks != [])
    || (e.Second? && exists k: nat :: OnceDue(s, e.tickClock, k))
  }

  /** Some task of the list does not survive its own step. */
  ghost predicate SomeGone(ts: seq<Task>, data: map<Task, TaskData>, i: nat, clock: Clock) {
    exists j :: 0 <= j < |ts| && ts[j] in data && !Survives(data[ts[j]], clock(i + j))
  }

  lemma {:induction false} SurvivorsLength(ts: seq<Task>, data: map<Task, TaskData>, i: nat, clock: Clock)
    requires forall j :: 0 <= j < |ts| ==> ts[j] in data
    ensures |Survivors(ts, data, i, clock)| <= |ts|
    ensures |Survivors(ts, data, i, clock)| < |ts| <==> SomeGone(ts, data, i, clock)
  {
    hide Survives;
    if ts != [] {
      SurvivorsLength(ts[1..], data, i + 1, clock);
      if j :| 0 <= j < |ts| && ts[j] in data && !Survives(data[ts[j]], clock(i + j)) {
        assert j > 0 ==> ts[1..][j - 1] == ts[j] && !Survives(data[ts[1..][j - 1]], clock(i + 1 + (j - 1)));
      }
      if j :| 0 <= j < |ts[1..]| && ts[1..][j] in data && !Survives(data[ts[1..][j]], clock(i + 1 + j)) {
        assert ts[j + 1] == ts[1..][j] && !Survives(data[ts[j + 1]], clock(i + (j + 1)));
      }
    }
  }

  /** In every reachable state the ids read after free are as many as the tasks deleted so far, and a step reads one
      exactly when it deletes: at a delete request with an integer id on a non-empty list, and at a tick at which
      some ONCE task is due. */
  lemma FreedTasksAreReadIff(es: seq<Label>, e: Label)
    requires AllFit(Initial, es) && Fits(Run(Initial, es), e)
    ensures var s, s' := Run(Initial, es), Step(Run(Initial, es), e);
      && s.freedReads == s.created - |s.tasks|
      && s'.freedReads >= s.freedReads
      && (s'.freedReads > s.freedReads <==> Deletes(s, e))
  {
    ReachedInv(es);
    var s := Run(Initial, es);
    hide Run, AllFit;
    StepReads(s, e);
  }

  lemma StepReads(s: State, e: Label)
    requires Inv(s) && Fits(s, e)
    ensures var s' := Step(s, e);
      && s.freedReads == s.created - |s.tasks|
      && s'.freedReads >= s.freedReads
      && (s'.freedReads > s.freedReads <==> Deletes(s, e))
  {
    StepKeepsInv(s, e);
    match e
    case SetRequest(_, _, _) =>
    case DeleteRequest(id) =>
      if id.Value? {
        DeleteRequestDeletesAll(s, id);
        DeleteLoopCreated(s, s.tasks);
      }
    case Broadcast(m, clock) =>
      NotifyIsPointwise(s, 0, m, clock);
    case Second(clock) =>
      TickReads(s, clock);
  }

  lemma DeleteLoopCreated(s: State, ts: seq<Task>)
    ensures DeleteLoop(s, ts).created == s.created && DeleteLoop(s, ts).doubleFrees == s.doubleFrees
    decreases |ts|
  {
  }

  lemma TickReads(s: State, clock: Clock)
    requires Inv(s)
    ensures var s' := Tick(s, s.tasks, 0, clock);
      s'.created == s.created && |s'.tasks| <= |s.tasks|
        && (|s'.tasks| < |s.tasks| <==> exists k: nat :: OnceDue(s, clock, k))
  {
    hide *;
    WholeList(s.tasks);
    ListedAreLive(s, [], s.tasks);
    TickIsPointwise(s, [], s.tasks, 0, clock);
    WholeList(Survivors(s.tasks, s.data, 0, clock));
    SurvivorsLength(s.tasks, s.data, 0, clock);
    OnceDueMeansDeath(s, clock);
  }

  lemma OnceDueMeansDeath(s: State, clock: Clock)
    requires forall t :: t in s.tasks ==> t in s.data
    ensures (exists k: nat :: OnceDue(s, clock, k)) <==> SomeGone(s.tasks, s.data, 0, clock)
  {
    hide Expired;
    if k: nat :| OnceDue(s, clock, k) {
      assert !Survives(s.data[s.tasks[k]], clock(0 + k));
    }
    if j :| 0 <= j < |s.tasks| && s.tasks[j] in s.data && !Survives(s.data[s.tasks[j]], clock(0 + j)) {
      assert OnceDue(s, clock, j);
    }
  }

  /** One such run: a timer is set and then deleted. */
  lemma FreedTaskIsRead(t: Task, sub: Subscription)
    requires sub.target == t && sub.nodeName == "lamp" && sub.capName == "switch"
    ensures var m := SetTimer(Value("app"), Value("lamp"), Value("switch"), Value("gw"), Value(Once),
      Value(SwitchOffTimer), Value(60));
      var es := [Label.SetRequest(t, sub, m), DeleteRequest(Value(1))];
      AllFit(Initial, es) && Run(Initial, es).freedReads == 1
  {
    var m := SetTimer(Value("app"), Value("lamp"), Value("switch"), Value("gw"), Value(Once), Value(SwitchOffTimer),
      Value(60));
    var create, delete := Label.SetRequest(t, sub, m), DeleteRequest(Value(1));
    assert [create, delete][1..] == [delete] && [delete][1..] == [];
    var s := Step(Initial, create);
    assert s.tasks == [t] && s.data.Keys == {t};
    assert DeleteLoop(s, [t]) == DeleteLoop(Remove(s, t), [t][1..]);
    assert Run(Step(s, delete), []) == Step(s, delete);
  }

  /** The task of a set request is freed not at all if the request is granted, twice if it has no reqSenderName, and
      once if it is given up for any other reason. */
  lemma TaskIsFreed(m: SetTimer)
    ensures Given(m).frees == if Wanted(m).Some? then 0 else if m.sender.Missing? then 2 else 1
  {
  }

  /** A step frees a task that was freed exactly when it is a set request without reqSenderName. */
  lemma DoubleFreeIff(s: State, e: Label)
    requires Inv(s)
    ensures Step(s, e).doubleFrees == s.doubleFrees + if e.SetRequest? && e.m.sender.Missing? then 1 else 0
  {
    match e
    case SetRequest(_, _, m) => TaskIsFreed(m);
    case DeleteRequest(_) => DeleteLoopCreated(s, s.tasks);
    case Broadcast(m, clock) => NotifyFreesNothing(s, 0, m, clock);
    case Second(clock) => TickFreesOnce(s, s.tasks, 0, clock);
  }

  lemma NotifyFreesNothing(s: State, i: nat, m: SwitchMsg, clock: Clock)
    ensures Notify(s, i, m, clock).doubleFrees == s.doubleFrees
    decreases |s.subs| - i
  {
    hide Matches;
  }

  lemma TickFreesOnce(s: State, ts: seq<Task>, i: nat, clock: Clock)
    ensures Tick(s, ts, i, clock).doubleFrees == s.doubleFrees
    decreases |ts|
  {
  }

  // ----- the promises

  /** An active task is due its interval after the first matching ON since its creation or last firing; it has been
      activated once more than it has fired, an inactive one as often. */
  lemma DeadlinesOnRuns(es: seq<Label>, t: Task)
    requires AllFit(Initial, es) && t in Run(Initial, es).data
    ensures var d := Run(Initial, es).data[t];
      && (d.active <==> d.hist.ons != [])
      && (d.active ==> d.deadline == d.hist.ons[0] + d.interval)
      && d.hist.fires <= d.hist.activations <= d.hist.fires + 1
      && CountFor(Run(Initial, es).sent, d.hist.serial) == d.hist.fires
  {
    ReachedInv(es);
    hide Run, AllFit;
    assert TaskOk(Run(Initial, es).data[t]);
  }

  /** No OFF request is sent before its deadline, and a ONCE task sends at most one: from then on it is in neither
      list. */
  lemma FiringOnRuns(es: seq<Label>, k: nat)
    requires AllFit(Initial, es) && k < |Run(Initial, es).sent|
    ensures var s := Run(Initial, es);
      && s.sent[k].deadline <= s.sent[k].at
      && (s.sent[k].once ==> (
            && CountFor(s.sent, s.sent[k].serial) == 1
            && (forall t :: t in s.tasks ==> t in s.data && s.data[t].hist.serial != s.sent[k].serial)
            && (forall sub :: sub in s.subs ==>
                 sub.target in s.data && s.data[sub.target].hist.serial != s.sent[k].serial)))
  {
    ReachedInv(es);
    var s := Run(Initial, es);
    hide Run, AllFit;
    SubsTargets(s.tasks, s.data);
  }

  lemma Wraps(v: nat)
    ensures v < 0x1_0000_0000 ==> v % 0x1_0000_0000 == v
    ensures v == 0x1_0000_0000 ==> v % 0x1_0000_0000 == 0
    ensures v < 0x8000_0000 ==> ToInt32(v) == v
    ensures 0x8000_0000 <= v < 0x1_0000_0000 ==> ToInt32(v) == v - 0x1_0000_0000
  {
  }

  /** Ids count up from 1, turn negative at 2^31 and reach 0 with the 2^32nd task. */
  lemma IdValue(serial: nat)
    requires serial < 0x1_0000_0000
    ensures IdOf(serial) ==
      if serial + 1 < 0x8000_0000 then serial + 1 else if serial + 1 < 0x1_0000_0000 then serial + 1 - 0x1_0000_0000
        else 0
  {
    Wraps(serial + 1);
    Wraps(0);
    hide ToInt32;
  }

  /** While fewer than 2^31 tasks were ever made, ids grow strictly along the list and are at most task_count. */
  lemma IdsIncrease(es: seq<Label>)
    requires AllFit(Initial, es) && Run(Initial, es).created <= 0x7FFF_FFFF
    ensures var s := Run(Initial, es);
      && (forall t :: t in s.tasks ==> t in s.data && 1 <= s.data[t].id <= s.taskCount)
      && (forall i, j :: 0 <= i < j < |s.tasks| ==> s.data[s.tasks[i]].id < s.data[s.tasks[j]].id)
  {
    ReachedInv(es);
    var s := Run(Initial, es);
    hide *;
    forall t | t in s.tasks
      ensures t in s.data && 1 <= s.data[t].id <= s.taskCount
    {
      IdIsSerial(s, t);
    }
    forall i, j | 0 <= i < j < |s.tasks|
      ensures s.data[s.tasks[i]].id < s.data[s.tasks[j]].id
    {
      IdIsSerial(s, s.tasks[i]);
      IdIsSerial(s, s.tasks[j]);
      SerialsGrow(s, i, j);
    }
  }

  lemma IdIsSerial(s: State, t: Task)
    requires Inv(s) && s.created <= 0x7FFF_FFFF && t in s.tasks
    ensures t in s.data && s.data[t].id == s.data[t].hist.serial + 1 <= s.taskCount
  {
    IdValue(s.data[t].hist.serial);
    Wraps(s.created);
  }

  lemma SerialsGrow(s: State, i: nat, j: nat)
    requires Inv(s) && i < j < |s.tasks|
    ensures s.tasks[i] in s.data && s.tasks[j] in s.data
    ensures s.data[s.tasks[i]].hist.serial < s.data[s.tasks[j]].hist.serial
  {
    assert s.tasks[i] in s.tasks && s.tasks[j] in s.tasks;
  }

  /** No id is used twice among live tasks until the 32-bit counter has gone round once. */
  lemma IdsAreDistinct(es: seq<Label>, t: Task, u: Task)
    requires AllFit(Initial, es) && Run(Initial, es).created <= 0x1_0000_0000
    requires t in Run(Initial, es).data && u in Run(Initial, es).data && t != u
    ensures Run(Initial, es).data[t].id != Run(Initial, es).data[u].id
  {
    ReachedInv(es);
    hide Run, AllFit;
    var s := Run(Initial, es);
    SerialsAreUnique(s, t, u);
    IdValue(s.data[t].hist.serial);
    IdValue(s.data[u].hist.serial);
    hide Inv, IdOf;
  }

  /** An inactive task runs from now on, for its interval; one that runs already keeps its deadline. Otherwise only the
      histories change. */
  ghost predicate SwitchedOn(d: TaskData, d': TaskData, now: int) {
    d' == d.(active := true, deadline := if d.active then d.deadline else now + d.interval,
             hist := d.hist.(ons := d.hist.ons + [now], activations := d.hist.activations + if d.active then 0 else 1))
  }

  /** A broadcast, walked through the subscriptions and their back pointers, activates exactly the switch-off tasks
      whose node and capability it switches on, and touches nothing else. */
  lemma BroadcastReachesTasks(es: seq<Label>, m: SwitchMsg, clock: Clock, t: Task)
    requires AllFit(Initial, es) && t in Run(Initial, es).data
    ensures var s, s' := Run(Initial, es), Step(Run(Initial, es), Label.Broadcast(m, clock));
      && s' == s.(data := s'.data) && s'.data.Keys == s.data.Keys && t in s'.data
      && (s'.data[t] != s.data[t] <==> s.data[t].kind == 0 && SwitchesOn(m, s.data[t].nodeName, s.data[t].capName))
      && (s'.data[t] != s.data[t] ==>
            exists j :: 0 <= j < |s.subs| && s.subs[j].target == t && SwitchedOn(s.data[t], s'.data[t], clock(j)))
  {
    ReachedInv(es);
    var s := Run(Initial, es);
    hide Run, AllFit, Inv, Matches, SwitchesOn, Notify;
    BroadcastEffect(s, m, clock, t);
    MatchesMeans(m, s.data[t].nodeName, s.data[t].capName);
    forall now: int
      ensures SwitchedOn(s.data[t], Activate(s.data[t], now), now) && Activate(s.data[t], now) != s.data[t]
    {
      assert |Activate(s.data[t], now).hist.ons| > |s.data[t].hist.ons|;
    }
    hide SwitchedOn, Activate;
  }

  lemma {:induction false} SubIsListed(ts: seq<Task>, data: map<Task, TaskData>, t: Task)
    requires t in ts && t in data && data[t].sub.Some?
    ensures data[t].sub.value in SubsOf(ts, data)
  {
    if ts[0] != t {
      SubIsListed(ts[1..], data, t);
    }
  }

  lemma BroadcastEffect(s: State, m: SwitchMsg, clock: Clock, t: Task)
    requires Inv(s) && t in s.data
    ensures var s' := Notify(s, 0, m, clock);
      && s' == s.(data := s'.data) && s'.data.Keys == s.data.Keys && t in s'.data
      && (if s.data[t].kind == SwitchOffTimer && Matches(m, s.data[t].nodeName, s.data[t].capName)
          then exists j :: 0 <= j < |s.subs| && s.subs[j].target == t && s'.data[t] == Activate(s.data[t], clock(j))
          else s'.data[t] == s.data[t])
  {
    NotifyIsPointwise(s, 0, m, clock);
    DistinctTargets(s);
    assert Subscribed(t, s.data[t]) && t in s.tasks;
    var s' := Notify(s, 0, m, clock);
    if s.data[t].kind == SwitchOffTimer {
      SubIsListed(s.tasks, s.data, t);
      var j :| 0 <= j < |s.subs| && s.subs[j] == s.data[t].sub.value;
      hide Inv, Matches, Activate, Notify;
      assert s'.data[t] == NotifiedTask(s.subs[j], s.data[t], m, clock(j));
    } else {
      hide Inv, Matches, Activate, Notify;
      assert forall j :: 0 <= j < |s.subs| ==> s.subs[j].target != t;
    }
  }

  /** Every second: the in-place loop over task_list, deleting while it iterates, leaves the tasks that survive their
      own step, in order, in their new states, and sends the OFF requests in the order of the list. */
  lemma SecondStepsEveryTask(es: seq<Label>, clock: Clock)
    requires AllFit(Initial, es)
    ensures var s, s' := Run(Initial, es), Step(Run(Initial, es), Second(clock));
      && s'.tasks == Survivors(s.tasks, s.data, 0, clock)
      && s'.sent == s.sent + Offs(s.tasks, s.data, 0, clock)
      && s'.subs == SubsOf(s'.tasks, s'.data)
      && (forall j :: 0 <= j < |s.tasks| && s.tasks[j] in s'.data ==>
            s.tasks[j] in s.data && s'.data[s.tasks[j]] == TickData(s.data[s.tasks[j]], clock(j)))
  {
    ReachedInv(es);
    TickEffect(Run(Initial, es), clock);
    hide Run, AllFit, Inv;
  }

  lemma TickEffect(s: State, clock: Clock)
    requires Inv(s)
    ensures var s' := Tick(s, s.tasks, 0, clock);
      && s'.tasks == Survivors(s.tasks, s.data, 0, clock)
      && s'.sent == s.sent + Offs(s.tasks, s.data, 0, clock)
      && s'.subs == SubsOf(s'.tasks, s'.data)
      && (forall j :: 0 <= j < |s.tasks| && s.tasks[j] in s'.data ==>
            s.tasks[j] in s.data && s'.data[s.tasks[j]] == TickData(s.data[s.tasks[j]], clock(j)))
  {
    hide *;
    WholeList(s.tasks);
    TickIsPointwise(s, [], s.tasks, 0, clock);
    var s' := Tick(s, s.tasks, 0, clock);
    WholeList(Survivors(s.tasks, s.data, 0, clock));
    FromTheStart(s, s', clock);
  }

  lemma WholeList(ts: seq<Task>)
    ensures [] + ts == ts
  {
  }

  lemma FromTheStart(s: State, s': State, clock: Clock)
    requires TickedFrom(s, s', s.tasks, 0, clock) && Inv(s')
    ensures s'.subs == SubsOf(s'.tasks, s'.data)
    ensures forall j :: 0 <= j < |s.tasks| && s.tasks[j] in s'.data ==>
      s.tasks[j] in s.data && s'.data[s.tasks[j]] == TickData(s.data[s.tasks[j]], clock(j))
  {
    hide TickData;
  }
}

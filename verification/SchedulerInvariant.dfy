/** What every reachable state of the scheduler satisfies, and what its in-place loops amount to. */
module SchedulerInvariant {
  import opened Common
  import opened GatewayTypes
  import opened SchedulerTypes
  import opened SchedulerSpec

  // ----- lockstep of the two lists

  /** The subscriptions of the given tasks, in the order of the tasks. */
  ghost function SubsOf(ts: seq<Task>, data: map<Task, TaskData>): seq<Subscription> {
    if ts == [] then []
    else (if ts[0] in data && data[ts[0]].sub.Some? then [data[ts[0]].sub.value] else []) + SubsOf(ts[1..], data)
  }

  /** A switch-off timer, and only it, has a subscription: to its own node and capability, pointing back to it. */
  ghost predicate Subscribed(t: Task, d: TaskData) {
    && (d.kind == SwitchOffTimer <==> d.sub.Some?)
    && (d.sub.Some? ==>
         d.sub.value.target == t && d.sub.value.nodeName == d.nodeName && d.sub.value.capName == d.capName)
  }

  ghost predicate Lockstep(s: State) {
    && Distinct(s.tasks)
    && (forall t :: t in s.data ==> t in s.tasks) && (forall t :: t in s.tasks ==> t in s.data)
    && (forall t :: t in s.data ==> Subscribed(t, s.data[t]))
    && s.subs == SubsOf(s.tasks, s.data)
    && !s.dangling
  }

  // ----- the automaton

  /** The deadline is the first ON since creation or the last firing plus the interval; activations and firings
      alternate; a ONCE task that is still listed has not fired. */
  ghost predicate TaskOk(d: TaskData) {
    && (d.active <==> d.hist.ons != [])
    && (d.active ==> d.kind == SwitchOffTimer && d.deadline == d.hist.ons[0] + d.interval)
    && d.hist.activations == d.hist.fires + (if d.active then 1 else 0)
    && (d.persist == Once ==> d.hist.fires == 0)
  }

  ghost predicate TasksOk(s: State) {
    forall t :: t in s.data ==> TaskOk(s.data[t])
  }

  // ----- ids

  function IdOf(serial: nat): int {
    ToInt32((serial + 1) % 0x1_0000_0000)
  }

  ghost predicate IdsOk(s: State) {
    && s.taskCount == s.created % 0x1_0000_0000
    && (forall t :: t in s.data ==> s.data[t].hist.serial < s.created && s.data[t].id == IdOf(s.data[t].hist.serial))
    && (forall i, j :: 0 <= i < j < |s.tasks| && s.tasks[i] in s.data && s.tasks[j] in s.data ==>
          s.data[s.tasks[i]].hist.serial < s.data[s.tasks[j]].hist.serial)
  }

  // ----- the log of OFF requests

  ghost function CountFor(sent: seq<OffRequest>, serial: nat): nat {
    if sent == [] then 0
    else CountFor(sent[..|sent| - 1], serial) + if sent[|sent| - 1].serial == serial then 1 else 0
  }

  /** No request is sent before its deadline; a live task has been fired as often as the log says; a ONCE task is
      in the log at most once, and then it is gone. */
  ghost predicate LogOk(s: State) {
    && (forall k :: 0 <= k < |s.sent| ==> s.sent[k].deadline <= s.sent[k].at && s.sent[k].serial < s.created)
    && (forall t :: t in s.data ==> CountFor(s.sent, s.data[t].hist.serial) == s.data[t].hist.fires)
    && (forall k :: 0 <= k < |s.sent| && s.sent[k].once ==> CountFor(s.sent, s.sent[k].serial) == 1)
    && (forall k, t :: 0 <= k < |s.sent| && s.sent[k].once && t in s.data ==> s.data[t].hist.serial != s.sent[k].serial)
  }

  /** Every task that was made is still listed, or its id has been read after it was freed. */
  ghost predicate ReadsOk(s: State) {
    s.freedReads + |s.tasks| == s.created
  }

  ghost predicate Inv(s: State) {
    Lockstep(s) && TasksOk(s) && IdsOk(s) && LogOk(s) && ReadsOk(s)
  }

  // ----- lists under change

  lemma {:induction false} SubsUnchanged(ts: seq<Task>, data: map<Task, TaskData>, data': map<Task, TaskData>)
    requires forall t :: t in ts ==> (t in data <==> t in data') && (t in data ==> data[t].sub == data'[t].sub)
    ensures SubsOf(ts, data) == SubsOf(ts, data')
  {
    if ts != [] {
      SubsUnchanged(ts[1..], data, data');
    }
  }

  lemma {:induction false} SubsSnoc(ts: seq<Task>, data: map<Task, TaskData>, t: Task)
    requires t in data
    ensures SubsOf(ts + [t], data) == SubsOf(ts, data) + if data[t].sub.Some? then [data[t].sub.value] else []
  {
    if ts == [] {
      assert [] + [t] == [t];
    } else {
      assert (ts + [t])[1..] == ts[1..] + [t];
      SubsSnoc(ts[1..], data, t);
    }
  }

  ghost predicate AllSubscribed(data: map<Task, TaskData>) {
    forall t :: t in data ==> Subscribed(t, data[t])
  }

  lemma {:induction false} SubsTargets(ts: seq<Task>, data: map<Task, TaskData>)
    requires AllSubscribed(data)
    ensures forall sub :: sub in SubsOf(ts, data) ==>
      sub.target in ts && sub.target in data && data[sub.target].sub == Some(sub)
  {
    if ts != [] {
      SubsTargets(ts[1..], data);
    }
  }

  /** Taking a task out of task_list takes exactly its subscription out of event_subsc_list. */
  lemma {:induction false} SubsWithout(ts: seq<Task>, data: map<Task, TaskData>, t: Task)
    requires AllSubscribed(data) && Distinct(ts) && t in ts && t in data
    ensures SubsOf(Without(ts, t), data - {t}) ==
      if data[t].sub.Some? then Without(SubsOf(ts, data), data[t].sub.value) else SubsOf(ts, data)
  {
    var rest := ts[1..];
    SubsTargets(rest, data);
    if ts[0] == t {
      WithoutAbsent(rest, t);
      SubsUnchanged(rest, data, data - {t});
      if data[t].sub.Some? {
        assert data[t].sub.value !in SubsOf(rest, data);
        WithoutAbsent(SubsOf(rest, data), data[t].sub.value);
        assert SubsOf(ts, data)[1..] == SubsOf(rest, data);
      }
    } else {
      SubsWithout(rest, data, t);
      assert ([ts[0]] + Without(rest, t))[1..] == Without(rest, t);
      if ts[0] in data && data[ts[0]].sub.Some? {
        assert data[ts[0]].sub.value.target == ts[0];
        assert SubsOf(ts, data)[0] == data[ts[0]].sub.value && SubsOf(ts, data)[1..] == SubsOf(rest, data);
      } else {
        assert SubsOf(ts, data) == SubsOf(rest, data);
      }
    }
  }

  lemma {:induction false} SubsDistinct(ts: seq<Task>, data: map<Task, TaskData>)
    requires AllSubscribed(data) && Distinct(ts)
    ensures Distinct(SubsOf(ts, data))
  {
    if ts != [] {
      SubsTargets(ts[1..], data);
      SubsDistinct(ts[1..], data);
      assert ts[0] !in ts[1..];
    }
  }

  // ----- creation

  lemma CreateKeepsLockstep(s: State, t: Task, sub: Option<Subscription>, w: (int, int, string, string, string, nat))
    requires Lockstep(s) && t !in s.data
    requires w.0 == SwitchOffTimer <==> sub.Some?
    requires sub.Some? ==> sub.value.target == t && sub.value.nodeName == w.2 && sub.value.capName == w.3
    ensures Lockstep(Create(s, t, sub, w))
  {
    var s' := Create(s, t, sub, w);
    SubsUnchanged(s.tasks, s.data, s'.data);
    SubsSnoc(s.tasks, s'.data, t);
  }

  lemma IdOfNext(created: nat)
    ensures ToInt32((created % 0x1_0000_0000 + 1) % 0x1_0000_0000) == IdOf(created)
    ensures (created % 0x1_0000_0000 + 1) % 0x1_0000_0000 == (created + 1) % 0x1_0000_0000
  {
  }

  lemma CreateKeepsIds(s: State, t: Task, sub: Option<Subscription>, w: (int, int, string, string, string, nat))
    requires Lockstep(s) && IdsOk(s) && t !in s.data
    ensures IdsOk(Create(s, t, sub, w))
  {
    var s' := Create(s, t, sub, w);
    IdOfNext(s.created);
    forall i, j | 0 <= i < j < |s'.tasks|
      ensures s'.data[s'.tasks[i]].hist.serial < s'.data[s'.tasks[j]].hist.serial
    {
      assert s'.tasks[i] == s.tasks[i];
      if j < |s.tasks| {
        assert s'.tasks[j] == s.tasks[j];
      }
    }
  }

  lemma {:induction false} NotYetCounted(sent: seq<OffRequest>, serial: nat)
    requires forall k :: 0 <= k < |sent| ==> sent[k].serial < serial
    ensures CountFor(sent, serial) == 0
  {
    if sent != [] {
      NotYetCounted(sent[..|sent| - 1], serial);
    }
  }

  lemma CreateKeepsLog(s: State, t: Task, sub: Option<Subscription>, w: (int, int, string, string, string, nat))
    requires LogOk(s) && TasksOk(s) && ReadsOk(s)
    ensures LogOk(Create(s, t, sub, w)) && TasksOk(Create(s, t, sub, w)) && ReadsOk(Create(s, t, sub, w))
  {
    NotYetCounted(s.sent, s.created);
  }

  lemma CreateKeepsInv(s: State, e: Label)
    requires Inv(s) && Fits(s, e) && e.SetRequest?
    ensures Inv(Step(s, e))
  {
    hide Inv, Wanted, Create;
    if Wanted(e.m).Some? {
      var w := Wanted(e.m).value;
      CreateOneKeepsInv(s, e.task, if w.0 == SwitchOffTimer then Some(e.sub) else None, w);
    } else {
      FreesKeepInv(s, s.doubleFrees + Excess(Given(e.m)));
    }
  }

  lemma FreesKeepInv(s: State, n: nat)
    requires Inv(s)
    ensures Inv(s.(doubleFrees := n))
  {
  }

  lemma CreateOneKeepsInv(s: State, t: Task, sub: Option<Subscription>, w: (int, int, string, string, string, nat))
    requires Inv(s) && t !in s.data && (w.0 == SwitchOffTimer <==> sub.Some?)
    requires sub.Some? ==> sub.value.target == t && sub.value.nodeName == w.2 && sub.value.capName == w.3
    ensures Inv(Create(s, t, sub, w))
  {
    hide Lockstep, IdsOk, LogOk, TasksOk, ReadsOk, Create;
    CreateKeepsLockstep(s, t, sub, w);
    CreateKeepsIds(s, t, sub, w);
    CreateKeepsLog(s, t, sub, w);
  }

  // ----- deletion

  lemma RemoveKeepsInv(s: State, t: Task)
    requires Inv(s) && t in s.data
    ensures Inv(Remove(s, t))
    ensures forall u :: u in s.data && u != t ==> u in Remove(s, t).data && Remove(s, t).data[u] == s.data[u]
  {
    var ts' := Without(s.tasks, t);
    UnlinkListed(s.tasks, s.data, t, ts');
    WithoutShape(s.tasks, t);
    SubsWithout(s.tasks, s.data, t);
    RemoveKeepsOrder(s, t);
  }

  lemma {:induction false} WithoutOrdered(ts: seq<Task>, data: map<Task, TaskData>, t: Task)
    requires forall u :: u in ts ==> u in data
    requires forall i, j :: 0 <= i < j < |ts| ==> data[ts[i]].hist.serial < data[ts[j]].hist.serial
    ensures forall u :: u in Without(ts, t) ==> u in ts
    ensures forall i, j :: 0 <= i < j < |Without(ts, t)| ==>
      data[Without(ts, t)[i]].hist.serial < data[Without(ts, t)[j]].hist.serial
  {
    if ts != [] {
      WithoutOrdered(ts[1..], data, t);
      var w, w' := Without(ts[1..], t), Without(ts, t);
      assert w' == if ts[0] == t then w else [ts[0]] + w;
      hide Without;
      if ts[0] != t {
        forall i, j | 0 <= i < j < |w'|
          ensures data[w'[i]].hist.serial < data[w'[j]].hist.serial
        {
          assert w'[j] == w[j - 1] && w[j - 1] in ts[1..];
          if i > 0 {
            assert w'[i] == w[i - 1];
          } else {
            var k :| 0 <= k < |ts[1..]| && ts[1..][k] == w[j - 1];
            assert ts[k + 1] == w[j - 1];
          }
        }
      }
    }
  }

  lemma RemoveKeepsOrder(s: State, t: Task)
    requires Lockstep(s) && IdsOk(s) && t in s.data
    ensures IdsOk(Remove(s, t))
  {
    WithoutOrdered(s.tasks, s.data, t);
  }

  lemma DeleteLoopCons(s: State)
    requires Inv(s) && s.tasks != []
    ensures s.tasks[0] in s.data && Inv(Remove(s, s.tasks[0])) && Remove(s, s.tasks[0]).tasks == s.tasks[1..]
    ensures DeleteLoop(s, s.tasks) == DeleteLoop(Remove(s, s.tasks[0]), s.tasks[1..])
  {
    hide *;
    HeadOfList(s);
    RemoveKeepsInv(s, s.tasks[0]);
    DeleteLoopUnfolds(s, s.tasks);
    RemoveTasks(s, s.tasks[0]);
  }

  lemma HeadOfList(s: State)
    requires Inv(s) && s.tasks != []
    ensures s.tasks[0] in s.data && Without(s.tasks, s.tasks[0]) == s.tasks[1..]
  {
    WithoutAbsent(s.tasks[1..], s.tasks[0]);
  }

  lemma DeleteLoopUnfolds(s: State, ts: seq<Task>)
    ensures ts == [] ==> DeleteLoop(s, ts) == s
    ensures ts != [] && ts[0] in s.data ==> DeleteLoop(s, ts) == DeleteLoop(Remove(s, ts[0]), ts[1..])
  {
  }

  lemma {:induction false} DeleteLoopEmpties(s: State)
    requires Inv(s)
    ensures Inv(DeleteLoop(s, s.tasks)) && DeleteLoop(s, s.tasks).tasks == []
    decreases |s.tasks|
  {
    hide *;
    if s.tasks == [] {
      DeleteLoopUnfolds(s, []);
    } else {
      DeleteLoopCons(s);
      DeleteLoopEmpties(Remove(s, s.tasks[0]));
    }
  }

  /** The deletion loop as written empties both lists, whatever id was asked for. */
  lemma DeleteRequestDeletesAll(s: State, id: Field<int>)
    requires Inv(s) && id.Value?
    ensures var s' := Step(s, DeleteRequest(id)); Inv(s') && s'.tasks == [] && s'.subs == [] && s'.data == map[]
  {
    DeleteLoopEmpties(s);
    var s' := DeleteLoop(s, s.tasks);
    assert s'.data.Keys == {};
  }

  /** The tasks with another id, in order. */
  ghost function Others(ts: seq<Task>, data: map<Task, TaskData>, id: int): seq<Task> {
    if ts == [] then []
    else (if ts[0] in data && data[ts[0]].id == id then [] else [ts[0]]) + Others(ts[1..], data, id)
  }

  lemma {:induction false} OthersUnchanged(ts: seq<Task>, data: map<Task, TaskData>, data': map<Task, TaskData>,
    id: int)
    requires forall t :: t in ts ==> t in data && t in data' && data[t] == data'[t]
    ensures Others(ts, data, id) == Others(ts, data', id)
  {
    if ts != [] {
      OthersUnchanged(ts[1..], data, data', id);
    }
  }

  /** One match in the middle of the list. */
  lemma RemoveOneMatch(s: State, pre: seq<Task>, ts: seq<Task>, id: int)
    requires Inv(s) && s.tasks == pre + ts && ts != []
    ensures ts[0] in s.data && Inv(Remove(s, ts[0])) && Remove(s, ts[0]).tasks == pre + ts[1..]
    ensures Others(ts[1..], Remove(s, ts[0]).data, id) == Others(ts[1..], s.data, id)
  {
    assert s.tasks[|pre|] == ts[0];
    assert forall u :: u in ts ==> u in s.tasks;
    RemoveKeepsInv(s, ts[0]);
    RemoveMiddle(pre, ts);
    RemoveTasks(s, ts[0]);
    OthersUnchanged(ts[1..], s.data, Remove(s, ts[0]).data, id);
  }

  lemma GuardedUnfolds(s: State, ts: seq<Task>, id: int)
    requires ts != [] ==> ts[0] in s.data
    ensures ts == [] ==> DeleteMatchLoop(s, ts, id) == s && Others(ts, s.data, id) == []
    ensures ts != [] && s.data[ts[0]].id == id ==>
      DeleteMatchLoop(s, ts, id) == DeleteMatchLoop(Remove(s, ts[0]), ts[1..], id)
        && Others(ts, s.data, id) == Others(ts[1..], s.data, id)
    ensures ts != [] && s.data[ts[0]].id != id ==>
      DeleteMatchLoop(s, ts, id) == DeleteMatchLoop(s, ts[1..], id)
        && Others(ts, s.data, id) == [ts[0]] + Others(ts[1..], s.data, id)
  {
  }

  /** The guarded loop keeps exactly the tasks with another id, in order, and the lists in lockstep. */
  lemma {:induction false} GuardedDeleteIsFilter(s: State, pre: seq<Task>, ts: seq<Task>, id: int)
    requires Inv(s) && s.tasks == pre + ts
    ensures Inv(DeleteMatchLoop(s, ts, id))
    ensures DeleteMatchLoop(s, ts, id).tasks == pre + Others(ts, s.data, id)
    decreases |ts|
  {
    hide *;
    if ts == [] {
      GuardedUnfolds(s, [], id);
      assert pre + [] == pre;
    } else {
      var t := ts[0];
      RemoveOneMatch(s, pre, ts, id);
      GuardedUnfolds(s, ts, id);
      if s.data[t].id == id {
        GuardedDeleteIsFilter(Remove(s, t), pre, ts[1..], id);
      } else {
        assert pre + ts == (pre + [t]) + ts[1..];
        GuardedDeleteIsFilter(s, pre + [t], ts[1..], id);
        ConcatAssociates(pre, [t], Others(ts[1..], s.data, id));
      }
    }
  }

  lemma RemoveTasks(s: State, t: Task)
    requires t in s.data
    ensures Remove(s, t).tasks == Without(s.tasks, t)
  {
  }

  lemma RemoveMiddle(pre: seq<Task>, ts: seq<Task>)
    requires ts != [] && Distinct(pre + ts)
    ensures Without(pre + ts, ts[0]) == pre + ts[1..]
    ensures ts[0] !in ts[1..] && ts[0] !in pre
  {
    var all := pre + ts;
    assert forall i :: 0 <= i < |pre| ==> all[i] == pre[i];
    assert forall j :: 0 <= j < |ts| ==> all[|pre| + j] == ts[j];
    WithoutAppend(pre, ts, ts[0]);
    WithoutAbsent(pre, ts[0]);
    WithoutAbsent(ts[1..], ts[0]);
  }

  /** The deletion as written does what is asked for exactly when every task has the id asked for. */
  lemma DeleteMeetsIntentIff(s: State, id: int)
    requires Inv(s)
    ensures DeleteLoop(s, s.tasks).tasks == DeleteMatchLoop(s, s.tasks, id).tasks <==>
      forall t :: t in s.data ==> s.data[t].id == id
  {
    DeleteRequestDeletesAll(s, Value(id));
    assert [] + s.tasks == s.tasks && forall r: seq<Task> :: [] + r == r;
    GuardedDeleteIsFilter(s, [], s.tasks, id);
    OthersEmptyIff(s.tasks, s.data, id);
  }

  lemma OthersEmptyIff(ts: seq<Task>, data: map<Task, TaskData>, id: int)
    requires forall t :: t in ts ==> t in data
    ensures Others(ts, data, id) == [] <==> forall t :: t in ts ==> data[t].id == id
  {
    if ts != [] {
      OthersEmptyIff(ts[1..], data, id);
      assert ts[0] in ts;
    }
  }

  // ----- an update of one task

  lemma PutKeepsLockstep(s: State, t: Task, d: TaskData, s': State)
    requires Lockstep(s) && t in s.data && s' == Put(s, t, d).(sent := s'.sent)
    requires d == s.data[t].(active := d.active, deadline := d.deadline, hist := d.hist)
    ensures Lockstep(s')
  {
    SubsUnchanged(s.tasks, s.data, s'.data);
    assert Subscribed(t, s.data[t]);
  }

  lemma PutKeepsIds(s: State, t: Task, d: TaskData, s': State)
    requires IdsOk(s) && t in s.data && s' == Put(s, t, d).(sent := s'.sent)
    requires d.id == s.data[t].id && d.hist.serial == s.data[t].hist.serial
    ensures IdsOk(s')
  {
    assert forall u :: u in s.data ==> s'.data[u].hist.serial == s.data[u].hist.serial;
  }

  lemma PutKeepsInv(s: State, t: Task, d: TaskData, s': State)
    requires Inv(s) && t in s.data && TaskOk(d)
    requires s' == Put(s, t, d).(sent := s'.sent)
    requires d == s.data[t].(active := d.active, deadline := d.deadline, hist := d.hist)
    requires d.hist.serial == s.data[t].hist.serial
    requires LogOk(s')
    ensures Inv(s')
  {
    PutKeepsLockstep(s, t, d, s');
    PutKeepsIds(s, t, d, s');
    hide Lockstep, IdsOk, LogOk, TaskOk;
  }

  lemma ActivateKeepsTaskOk(d: TaskData, now: int)
    requires TaskOk(d) && d.kind == SwitchOffTimer
    ensures TaskOk(Activate(d, now))
  {
  }

  // ----- broadcasts

  /** Activating the target of a listed subscription. */
  lemma NotifyOne(s: State, sub: Subscription, now: int)
    requires Inv(s) && sub in s.subs
    ensures sub.target in s.data && s.data[sub.target].sub == Some(sub)
    ensures Inv(Put(s, sub.target, Activate(s.data[sub.target], now)))
  {
    SubsTargets(s.tasks, s.data);
    var t := sub.target;
    assert Subscribed(t, s.data[t]) && TaskOk(s.data[t]);
    ActivateKeepsTaskOk(s.data[t], now);
    var s' := Put(s, t, Activate(s.data[t], now));
    assert LogOk(s');
    PutKeepsInv(s, t, Activate(s.data[t], now), s');
  }

  /** The message is a SET response (4) or a notification (7), its number stored in a uint8_t, of this node, and says of
      this capability that it is on. */
  ghost predicate SwitchesOn(m: SwitchMsg, nodeName: string, capName: string) {
    && m.msgType.Value? && m.msgType.v % 256 in {4, 7}
    && m.nodeName == Value(nodeName)
    && m.items.Value? && exists k :: 0 <= k < |m.items.v| && m.items.v[k] == SwitchItem(capName, "ON")
  }

  lemma {:induction false} ItemIsListed(items: seq<SwitchItem>, capName: string)
    ensures MatchesItem(items, capName) <==> exists k :: 0 <= k < |items| && items[k] == SwitchItem(capName, "ON")
  {
    if items != [] {
      ItemIsListed(items[1..], capName);
      assert forall k :: 0 < k < |items| ==> items[k] == items[1..][k - 1];
      if MatchesItem(items[1..], capName) {
        var k :| 0 <= k < |items[1..]| && items[1..][k] == SwitchItem(capName, "ON");
        assert items[k + 1] == items[1..][k];
      }
    }
  }

  /** The test of process_subscriptions. */
  lemma MatchesMeans(m: SwitchMsg, nodeName: string, capName: string)
    ensures Matches(m, nodeName, capName) <==> SwitchesOn(m, nodeName, capName)
  {
    if m.items.Value? {
      ItemIsListed(m.items.v, capName);
    }
  }

  /** What the event does to the task of the j-th subscription. */
  function NotifiedTask(sub: Subscription, d: TaskData, m: SwitchMsg, now: int): TaskData {
    if Matches(m, sub.nodeName, sub.capName) then Activate(d, now) else d
  }

  /** The subscriptions from i on have had their say. */
  ghost predicate NotifiedFrom(s: State, s': State, i: nat, m: SwitchMsg, clock: Clock) {
    && s'.data.Keys == s.data.Keys
    && (forall j :: i <= j < |s.subs| ==> (
          && s.subs[j].target in s.data
          && s'.data[s.subs[j].target] == NotifiedTask(s.subs[j], s.data[s.subs[j].target], m, clock(j))))
    && (forall t :: t in s.data && (forall j :: i <= j < |s.subs| ==> s.subs[j].target != t) ==>
         s'.data[t] == s.data[t])
  }

  /** The state after the i-th subscription. */
  function Notified(s: State, i: nat, m: SwitchMsg, now: int): State
    requires i < |s.subs| && s.subs[i].target in s.data
  {
    Put(s, s.subs[i].target, NotifiedTask(s.subs[i], s.data[s.subs[i].target], m, now))
  }

  lemma NotifyNil(s: State, i: nat, m: SwitchMsg, clock: Clock)
    requires i >= |s.subs|
    ensures Notify(s, i, m, clock) == s && NotifiedFrom(s, s, i, m, clock)
  {
  }

  lemma NotifyCons(s: State, i: nat, m: SwitchMsg, clock: Clock)
    requires i < |s.subs| && s.subs[i].target in s.data
    ensures Notify(s, i, m, clock) == Notify(Notified(s, i, m, clock(i)), i + 1, m, clock)
    ensures Notified(s, i, m, clock(i)) == s.(data := Notified(s, i, m, clock(i)).data)
    ensures Notified(s, i, m, clock(i)).data ==
      s.data[s.subs[i].target := NotifiedTask(s.subs[i], s.data[s.subs[i].target], m, clock(i))]
  {
    assert s.data[s.subs[i].target := s.data[s.subs[i].target]] == s.data;
  }

  lemma NotifiedKeepsInv(s: State, i: nat, m: SwitchMsg, now: int)
    requires Inv(s) && i < |s.subs|
    ensures s.subs[i].target in s.data && Inv(Notified(s, i, m, now))
  {
    NotifyOne(s, s.subs[i], now);
    assert s.data[s.subs[i].target := s.data[s.subs[i].target]] == s.data;
  }

  lemma {:induction false} NotifyIsPointwise(s: State, i: nat, m: SwitchMsg, clock: Clock)
    requires Inv(s)
    ensures var s' := Notify(s, i, m, clock);
      Inv(s') && s' == s.(data := s'.data) && NotifiedFrom(s, s', i, m, clock)
    decreases |s.subs| - i
  {
    hide *;
    if i >= |s.subs| {
      NotifyNil(s, i, m, clock);
    } else {
      DistinctTargets(s);
      NotifiedKeepsInv(s, i, m, clock(i));
      NotifyCons(s, i, m, clock);
      var s1 := Notified(s, i, m, clock(i));
      NotifyIsPointwise(s1, i + 1, m, clock);
      NotifiedStep(s, s1, Notify(s, i, m, clock), i, m, clock);
    }
  }

  lemma DistinctTargets(s: State)
    requires Inv(s)
    ensures forall i, j :: 0 <= i < j < |s.subs| ==> s.subs[i].target != s.subs[j].target
    ensures forall j :: 0 <= j < |s.subs| ==>
      s.subs[j].target in s.data && s.data[s.subs[j].target].sub == Some(s.subs[j])
  {
    SubsTargets(s.tasks, s.data);
    SubsDistinct(s.tasks, s.data);
    assert forall j :: 0 <= j < |s.subs| ==> s.subs[j] in s.subs;
  }

  lemma NotifiedStep(s: State, s1: State, s': State, i: nat, m: SwitchMsg, clock: Clock)
    requires i < |s.subs| && s1.subs == s.subs && s.subs[i].target in s.data
    requires forall j, k :: 0 <= j < k < |s.subs| ==> s.subs[j].target != s.subs[k].target
    requires forall j :: 0 <= j < |s.subs| ==> s.subs[j].target in s.data
    requires s1.data == s.data[s.subs[i].target := NotifiedTask(s.subs[i], s.data[s.subs[i].target], m, clock(i))]
    requires NotifiedFrom(s1, s', i + 1, m, clock)
    ensures NotifiedFrom(s, s', i, m, clock)
  {
    hide NotifiedTask;
    var t := s.subs[i].target;
    assert s1.data.Keys == s.data.Keys;
    assert forall j :: i < j < |s.subs| ==>
      s.subs[j].target != t && s1.data[s.subs[j].target] == s.data[s.subs[j].target];
  }

  // ----- the tick

  /** A switch-off timer that is running and whose time has come. */
  ghost predicate Expired(d: TaskData, now: int) {
    d.kind == 0 && d.active && d.deadline <= now
  }

  /** It is switched off, and the next ON will start it again. */
  ghost function TickData(d: TaskData, now: int): TaskData {
    if Expired(d, now) then d.(active := false, hist := d.hist.(ons := [], fires := d.hist.fires + 1)) else d
  }

  ghost predicate Survives(d: TaskData, now: int) {
    !(Expired(d, now) && d.persist == 0)
  }

  /** Filtering out the ONCE tasks that fire, the i-th entry of the list first. */
  ghost function Survivors(ts: seq<Task>, data: map<Task, TaskData>, i: nat, clock: Clock): seq<Task> {
    if ts == [] then []
    else
      (if ts[0] in data && Survives(data[ts[0]], clock(i)) then [ts[0]] else [])
      + Survivors(ts[1..], data, i + 1, clock)
  }

  /** The OFF requests of the tasks that fire, in order: to the node, for the capability and in the name that belong to
      the task, with its deadline and the time it was sent. */
  ghost function Offs(ts: seq<Task>, data: map<Task, TaskData>, i: nat, clock: Clock): seq<OffRequest> {
    if ts == [] then []
    else
      (if ts[0] in data && Expired(data[ts[0]], clock(i)) then
         var d := data[ts[0]];
         [OffRequest(d.hist.serial, d.persist == 0, d.nodeName, d.capName, d.sender, d.deadline, clock(i))]
       else [])
      + Offs(ts[1..], data, i + 1, clock)
  }

  lemma {:induction false} ListsUnchanged(ts: seq<Task>, data: map<Task, TaskData>, data': map<Task, TaskData>, i: nat,
    clock: Clock)
    requires forall t :: t in ts ==> t in data && t in data' && data[t] == data'[t]
    ensures Survivors(ts, data, i, clock) == Survivors(ts, data', i, clock)
    ensures Offs(ts, data, i, clock) == Offs(ts, data', i, clock)
  {
    if ts != [] {
      ListsUnchanged(ts[1..], data, data', i + 1, clock);
    }
  }

  lemma CountSnoc(sent: seq<OffRequest>, off: OffRequest, serial: nat)
    ensures CountFor(sent + [off], serial) == CountFor(sent, serial) + if off.serial == serial then 1 else 0
  {
    assert (sent + [off])[..|sent|] == sent;
  }

  lemma SerialsAreUnique(s: State, t: Task, u: Task)
    requires Lockstep(s) && IdsOk(s) && t in s.data && u in s.data && t != u
    ensures s.data[t].hist.serial != s.data[u].hist.serial
  {
    var i :| 0 <= i < |s.tasks| && s.tasks[i] == t;
    var j :| 0 <= j < |s.tasks| && s.tasks[j] == u;
    if i < j {
      assert s.data[s.tasks[i]].hist.serial < s.data[s.tasks[j]].hist.serial;
    } else {
      assert s.data[s.tasks[j]].hist.serial < s.data[s.tasks[i]].hist.serial;
    }
  }

  lemma FiringFacts(s: State, t: Task, now: int)
    requires Inv(s) && t in s.data && Due(s.data[t], now)
    ensures var off, d := OffFor(s.data[t], now), s.data[t];
      && off.deadline <= off.at && off.serial == d.hist.serial < s.created && (off.once <==> d.persist == Once)
      && Fired(d).hist.serial == d.hist.serial && Fired(d).hist.fires == d.hist.fires + 1
      && CountFor(s.sent, d.hist.serial) == d.hist.fires && (d.persist == Once ==> d.hist.fires == 0)
      && TaskOk(d)
  {
    assert TaskOk(s.data[t]);
  }

  /** The log after a task has fired. */
  lemma FiringKeepsLog(s: State, t: Task, now: int, s': State)
    requires Inv(s) && t in s.data && Due(s.data[t], now)
    requires s'.sent == s.sent + [OffFor(s.data[t], now)] && s'.created == s.created
    requires if s.data[t].persist == Once then s'.data == s.data - {t} else s'.data == s.data[t := Fired(s.data[t])]
    ensures LogOk(s')
  {
    hide Due, Fired, OffFor, CountFor, TasksOk, Lockstep, IdsOk, ReadsOk;
    var off := OffFor(s.data[t], now);
    FiringFacts(s, t, now);
    forall u | u in s'.data
      ensures CountFor(s'.sent, s'.data[u].hist.serial) == s'.data[u].hist.fires
    {
      CountSnoc(s.sent, off, s'.data[u].hist.serial);
      if u != t {
        SerialsAreUnique(s, t, u);
      }
    }
    forall k | 0 <= k < |s'.sent| && s'.sent[k].once
      ensures CountFor(s'.sent, s'.sent[k].serial) == 1
    {
      CountSnoc(s.sent, off, s'.sent[k].serial);
      if k < |s.sent| {
        assert s'.sent[k] == s.sent[k];
      }
    }
    forall k, u | 0 <= k < |s'.sent| && s'.sent[k].once && u in s'.data
      ensures s'.data[u].hist.serial != s'.sent[k].serial
    {
      if k < |s.sent| {
        assert s'.sent[k] == s.sent[k];
      } else {
        SerialsAreUnique(s, t, u);
      }
    }
  }

  lemma DueFires(d: TaskData, now: int)
    requires TaskOk(d) && Due(d, now)
    ensures d.persist != Once ==> TaskOk(Fired(d))
    ensures Fired(d) == d.(active := Fired(d).active, deadline := Fired(d).deadline, hist := Fired(d).hist)
    ensures Fired(d).hist.serial == d.hist.serial
  {
  }

  lemma RemovedData(s: State, t: Task)
    requires t in s.data
    ensures Remove(s, t).data == s.data - {t} && Remove(s, t).created == s.created
    ensures forall sent :: Remove(s.(sent := sent), t) == Remove(s, t).(sent := sent)
  {
  }

  lemma TickOneKeepsInv(s: State, t: Task, now: int)
    requires Inv(s) && t in s.data
    ensures Inv(TickOne(s, t, now))
    ensures forall u :: u in s.data && u != t ==>
      u in TickOne(s, t, now).data && TickOne(s, t, now).data[u] == s.data[u]
  {
    hide Inv, Remove, Fired, OffFor, Due;
    if Due(s.data[t], now) {
      var d := s.data[t];
      var s' := TickOne(s, t, now);
      FiringFacts(s, t, now);
      DueFires(d, now);
      RemovedData(s, t);
      FiringKeepsLog(s, t, now, s');
      if d.persist == Once {
        RemoveKeepsInv(s, t);
        SentKeepsRest(Remove(s, t), s');
      } else {
        PutKeepsInv(s, t, Fired(d), s');
      }
    }
  }

  lemma SentKeepsRest(s: State, s': State)
    requires Inv(s) && s' == s.(sent := s'.sent) && LogOk(s')
    ensures Inv(s')
  {
  }

  /** What one entry of the tick does to the two lists and the log, next to what the automaton says. */
  lemma TickOneEffect(s: State, pre: seq<Task>, ts: seq<Task>, now: int)
    requires Inv(s) && ts != [] && s.tasks == pre + ts
    ensures ts[0] in s.data && ts[0] !in ts[1..]
    ensures var s', d := TickOne(s, ts[0], now), s.data[ts[0]];
      && s'.tasks == pre + (if Survives(d, now) then [ts[0]] else []) + ts[1..]
      && s'.sent == s.sent + (if Due(d, now) then [OffFor(d, now)] else [])
      && s'.data == (if Survives(d, now) then s.data[ts[0] := TickData(d, now)] else s.data - {ts[0]})
  {
    assert s.tasks[|pre|] == ts[0];
    assert Distinct(s.tasks) && ts[0] in s.data;
    hide Inv, Distinct;
    RemoveMiddle(pre, ts);
    assert pre + ts == pre + [ts[0]] + ts[1..];
    assert s.data[ts[0] := s.data[ts[0]]] == s.data;
    assert pre + [] + ts[1..] == pre + ts[1..];
    assert s.sent + [] == s.sent;
  }

  /** The entries of ts that are still there have made their own step; all other tasks are as they were. */
  ghost predicate TickedFrom(s: State, s': State, ts: seq<Task>, i: nat, clock: Clock) {
    && (forall j :: 0 <= j < |ts| && ts[j] in s'.data ==>
         ts[j] in s.data && s'.data[ts[j]] == TickData(s.data[ts[j]], clock(i + j)))
    && (forall t :: t in s.data && t !in ts ==> t in s'.data && s'.data[t] == s.data[t])
  }

  lemma TickedStep(s: State, s1: State, s': State, ts: seq<Task>, i: nat, clock: Clock)
    requires ts != [] && ts[0] in s.data && ts[0] !in ts[1..] && (forall t :: t in ts ==> t in s.data)
    requires s1.data ==
      if Survives(s.data[ts[0]], clock(i)) then s.data[ts[0] := TickData(s.data[ts[0]], clock(i))] else s.data - {ts[0]}
    requires TickedFrom(s1, s', ts[1..], i + 1, clock) && (forall t :: t in s'.data ==> t in s1.data)
    ensures TickedFrom(s, s', ts, i, clock)
  {
    hide TickData, Survives;
    forall j | 0 <= j < |ts| && ts[j] in s'.data
      ensures s'.data[ts[j]] == TickData(s.data[ts[j]], clock(i + j))
    {
      if j > 0 {
        assert ts[j] == ts[1..][j - 1] && ts[j] != ts[0];
      }
    }
    forall t | t in s.data && t !in ts
      ensures t in s'.data && s'.data[t] == s.data[t]
    {
      assert t !in ts[1..] && t != ts[0];
    }
  }

  lemma TickNil(s: State, pre: seq<Task>, i: nat, clock: Clock)
    ensures Tick(s, [], i, clock) == s && TickedFrom(s, s, [], i, clock)
    ensures pre + [] == pre && pre + Survivors([], s.data, i, clock) == pre
      && s.sent + Offs([], s.data, i, clock) == s.sent
  {
  }

  lemma TickCons(s: State, ts: seq<Task>, i: nat, clock: Clock)
    requires ts != [] && ts[0] in s.data
    ensures Tick(s, ts, i, clock) == Tick(TickOne(s, ts[0], clock(i)), ts[1..], i + 1, clock)
    ensures Survivors(ts, s.data, i, clock) ==
      (if Survives(s.data[ts[0]], clock(i)) then [ts[0]] else []) + Survivors(ts[1..], s.data, i + 1, clock)
    ensures Offs(ts, s.data, i, clock) ==
      (if Due(s.data[ts[0]], clock(i)) then [OffFor(s.data[ts[0]], clock(i))] else [])
        + Offs(ts[1..], s.data, i + 1, clock)
    ensures var s1 := TickOne(s, ts[0], clock(i));
      s1.taskCount == s.taskCount && s1.created == s.created && forall u :: u in s1.data ==> u in s.data
  {
  }

  lemma ListedAreLive(s: State, pre: seq<Task>, ts: seq<Task>)
    requires Inv(s) && s.tasks == pre + ts
    ensures forall u :: u in ts ==> u in s.data
  {
    assert forall u :: u in ts ==> u in s.tasks;
  }

  /** The in-place tick, deleting while it iterates, is the automaton of every task run by itself: the survivors in
      order, each with its own new state, and the OFF requests in the order of the list. */
  lemma {:induction false} TickIsPointwise(s: State, pre: seq<Task>, ts: seq<Task>, i: nat, clock: Clock)
    requires Inv(s) && s.tasks == pre + ts
    ensures var s' := Tick(s, ts, i, clock);
      && Inv(s')
      && s'.tasks == pre + Survivors(ts, s.data, i, clock)
      && s'.sent == s.sent + Offs(ts, s.data, i, clock)
      && TickedFrom(s, s', ts, i, clock) && (forall t :: t in s'.data ==> t in s.data)
      && s'.taskCount == s.taskCount && s'.created == s.created
    decreases |ts|
  {
    hide *;
    if ts == [] {
      TickNil(s, pre, i, clock);
    } else {
      var t, now := ts[0], clock(i);
      ListedAreLive(s, pre, ts);
      TickCons(s, ts, i, clock);
      TickOneEffect(s, pre, ts, now);
      TickOneKeepsInv(s, t, now);
      var s1 := TickOne(s, t, now);
      ListsUnchanged(ts[1..], s.data, s1.data, i + 1, clock);
      var mid := if Survives(s.data[t], now) then [t] else [];
      var off := if Due(s.data[t], now) then [OffFor(s.data[t], now)] else [];
      TickIsPointwise(s1, pre + mid, ts[1..], i + 1, clock);
      TickedStep(s, s1, Tick(s, ts, i, clock), ts, i, clock);
      ConcatAssociates(pre, mid, Survivors(ts[1..], s.data, i + 1, clock));
      ConcatAssociates(s.sent, off, Offs(ts[1..], s.data, i + 1, clock));
    }
  }
}

/** Which request made a task, and for whom it is switched off: over every run, each task and each OFF request carries
    what the set request with its number asked for. */
module SchedulerLog {
  import opened Common
  import opened GatewayTypes
  import opened SchedulerTypes
  import opened SchedulerSpec

  /** A timer set request that is granted: the names and the type are there, and a switch-off timer (type 0) has a time
      that is not zero as an unsigned 32-bit number. */
  ghost predicate Grantable(m: SetTimer) {
    && m.sender.Value? && m.nodeName.Value? && m.capName.Value? && m.gateway.Value? && m.kind.Value?
    && (ToInt32(m.kind.v) == 0 ==> m.time.Value? && m.time.v % 0x1_0000_0000 != 0)
  }

  /** The set requests of a run that are granted, in order. */
  ghost function Granted(es: seq<Label>): seq<SetTimer> {
    if es == [] then []
    else (if es[0].SetRequest? && Grantable(es[0].m) then [es[0].m] else []) + Granted(es[1..])
  }

  /** An absent or ill-typed timerPersist reads as 0, which means once. */
  ghost function Persist(m: SetTimer): int {
    if m.persist.Value? then ToInt32(m.persist.v) else 0
  }

  /** The task is the one that the request asked for. */
  ghost predicate MadeFor(d: TaskData, m: SetTimer) {
    && Grantable(m) && d.kind == ToInt32(m.kind.v) && d.persist == Persist(m)
    && m.nodeName == Value(d.nodeName) && m.capName == Value(d.capName) && m.sender == Value(d.sender)
    && (d.kind == 0 ==> d.interval == m.time.v % 0x1_0000_0000)
  }

  /** The OFF request is for the node and the capability that the request named, and in the name of its sender. */
  ghost predicate SentFor(off: OffRequest, m: SetTimer) {
    && Grantable(m) && ToInt32(m.kind.v) == 0 && (off.once <==> Persist(m) == 0)
    && m.nodeName == Value(off.nodeName) && m.capName == Value(off.capName) && m.sender == Value(off.sender)
  }

  /** The k-th task made and all that was sent for it belong to the k-th request granted. */
  ghost predicate Accounted(s: State, ms: seq<SetTimer>) {
    && s.created == |ms|
    && (forall t :: t in s.data ==> s.data[t].hist.serial < |ms| && MadeFor(s.data[t], ms[s.data[t].hist.serial]))
    && (forall k :: 0 <= k < |s.sent| ==> s.sent[k].serial < |ms| && SentFor(s.sent[k], ms[s.sent[k].serial]))
  }

  // ----- one step

  lemma WantedMeans(m: SetTimer)
    ensures Wanted(m).Some? <==> Grantable(m)
  {
  }

  lemma CreationIsAccounted(s: State, e: Label, ms: seq<SetTimer>)
    requires Accounted(s, ms) && e.SetRequest?
    ensures Accounted(Step(s, e), ms + Granted([e]))
  {
    hide MadeFor, SentFor, Granted, Grantable, Wanted, Create;
    GrantedOne(e);
    var ms' := ms + Granted([e]);
    assert forall k :: 0 <= k < |ms| ==> ms'[k] == ms[k];
    WantedMeans(e.m);
    if Grantable(e.m) {
      var w := Wanted(e.m).value;
      var sub := if w.0 == SwitchOffTimer then Some(e.sub) else None;
      CreatedForIt(s, e.task, sub, e.m);
      assert Step(s, e) == Create(s, e.task, sub, w);
      assert ms'[|ms|] == e.m;
    } else {
      assert ms' == ms;
    }
  }

  lemma CreatedForIt(s: State, t: Task, sub: Option<Subscription>, m: SetTimer)
    requires Grantable(m)
    ensures Wanted(m).Some?
    ensures var s' := Create(s, t, sub, Wanted(m).value);
      && s'.created == s.created + 1 && s'.sent == s.sent
      && s'.data == s.data[t := s'.data[t]] && s'.data[t].hist.serial == s.created && MadeFor(s'.data[t], m)
  {
  }

  /** What keeps the numbers and the fields that a task was made with. */
  ghost predicate SameMaking(d: TaskData, d': TaskData) {
    d' == d.(active := d'.active, deadline := d'.deadline, hist := d'.hist) && d'.hist.serial == d.hist.serial
  }

  ghost predicate KeepsMaking(s: State, s': State) {
    s'.created == s.created && forall t :: t in s'.data ==> t in s.data && SameMaking(s.data[t], s'.data[t])
  }

  lemma StillAccounted(s: State, s': State, ms: seq<SetTimer>)
    requires Accounted(s, ms) && KeepsMaking(s, s') && s'.sent == s.sent
    ensures Accounted(s', ms)
  {
  }

  lemma {:induction false} DeletionKeepsMaking(s: State, ts: seq<Task>)
    ensures KeepsMaking(s, DeleteLoop(s, ts)) && DeleteLoop(s, ts).sent == s.sent
    decreases |ts|
  {
    if ts != [] {
      DeletionKeepsMaking(if ts[0] in s.data then Remove(s, ts[0]) else s, ts[1..]);
    }
  }

  lemma {:induction false} NotifyingKeepsMaking(s: State, i: nat, m: SwitchMsg, clock: Clock)
    ensures KeepsMaking(s, Notify(s, i, m, clock)) && Notify(s, i, m, clock).sent == s.sent
    decreases |s.subs| - i
  {
    hide Matches;
    if i < |s.subs| {
      var sub := s.subs[i];
      if !Matches(m, sub.nodeName, sub.capName) {
        NotifyingKeepsMaking(s, i + 1, m, clock);
      } else if sub.target !in s.data {
        NotifyingKeepsMaking(s.(dangling := true), i + 1, m, clock);
      } else {
        NotifyingKeepsMaking(Put(s, sub.target, Activate(s.data[sub.target], clock(i))), i + 1, m, clock);
      }
    }
  }

  lemma FiringIsAccounted(s: State, t: Task, now: int, ms: seq<SetTimer>)
    requires Accounted(s, ms)
    ensures Accounted(TickOne(s, t, now), ms)
  {
    var s' := TickOne(s, t, now);
    if t in s.data && Due(s.data[t], now) {
      var d := s.data[t];
      OffIsForIt(d, now, ms[d.hist.serial]);
      assert KeepsMaking(s, s');
      hide SentFor, MadeFor, OffFor;
      StillAccounted(s, s'.(sent := s.sent), ms);
    }
  }

  lemma OffIsForIt(d: TaskData, now: int, m: SetTimer)
    requires MadeFor(d, m) && Due(d, now)
    ensures SentFor(OffFor(d, now), m) && OffFor(d, now).serial == d.hist.serial
  {
  }

  lemma {:induction false} TickIsAccounted(s: State, ts: seq<Task>, i: nat, clock: Clock, ms: seq<SetTimer>)
    requires Accounted(s, ms)
    ensures Accounted(Tick(s, ts, i, clock), ms)
    decreases |ts|
  {
    hide Accounted, TickOne;
    if ts != [] {
      FiringIsAccounted(s, ts[0], clock(i), ms);
      TickIsAccounted(TickOne(s, ts[0], clock(i)), ts[1..], i + 1, clock, ms);
    }
  }

  lemma StepIsAccounted(s: State, e: Label, ms: seq<SetTimer>)
    requires Accounted(s, ms)
    ensures Accounted(Step(s, e), ms + Granted([e]))
  {
    if e.SetRequest? {
      CreationIsAccounted(s, e, ms);
    } else {
      hide Accounted, KeepsMaking, Granted, Notify, Tick, DeleteLoop;
      GrantedOne(e);
      assert ms + Granted([e]) == ms;
      match e
      case DeleteRequest(_) =>
        DeletionKeepsMaking(s, s.tasks);
        if e.id.Value? {
          StillAccounted(s, Step(s, e), ms);
        }
      case Broadcast(m, clock) =>
        NotifyingKeepsMaking(s, 0, m, clock);
        StillAccounted(s, Step(s, e), ms);
      case Second(clock) =>
        TickIsAccounted(s, s.tasks, 0, clock, ms);
    }
  }

  // ----- runs

  lemma GrantedCons(es: seq<Label>, ms: seq<SetTimer>)
    requires es != []
    ensures ms + Granted(es) == (ms + Granted([es[0]])) + Granted(es[1..])
  {
    hide Grantable;
    var first := if es[0].SetRequest? && Grantable(es[0].m) then [es[0].m] else [];
    GrantedOne(es[0]);
    ConcatAssociates(ms, first, Granted(es[1..]));
  }

  lemma GrantedOne(e: Label)
    ensures Granted([e]) == if e.SetRequest? && Grantable(e.m) then [e.m] else []
  {
    hide Grantable;
    assert [e][1..] == [];
    var first := if e.SetRequest? && Grantable(e.m) then [e.m] else [];
    assert first + [] == first;
  }

  lemma {:induction false} RunIsAccounted(s: State, es: seq<Label>, ms: seq<SetTimer>)
    requires Accounted(s, ms)
    ensures Accounted(Run(s, es), ms + Granted(es))
    decreases |es|
  {
    hide Accounted, Step, Granted;
    if es == [] {
      assert ms + Granted(es) == ms by { NothingGranted(); }
    } else {
      StepIsAccounted(s, es[0], ms);
      RunIsAccounted(Step(s, es[0]), es[1..], ms + Granted([es[0]]));
      GrantedCons(es, ms);
    }
  }

  lemma NothingGranted()
    ensures Granted([]) == []
  {
  }

  /** In every reachable state each live task is what the set request with its number asked for, and each OFF request
      goes to the node and for the capability that this request named, in the name of its sender. */
  lemma AccountOnRuns(es: seq<Label>)
    ensures Accounted(Run(Initial, es), Granted(es))
  {
    assert Accounted(Initial, []);
    RunIsAccounted(Initial, es, []);
    assert [] + Granted(es) == Granted(es);
  }
}

/** The hand-off between the MQTT threads and the main thread: work_list under its mutex, and a pipe that
    carries one "WORK LOAD" text for every request. */
module Handoff {
  import opened Common

  // ----- the pipe

  /** What a producer writes: strlen("WORK LOAD") + 1 characters. */
  const Signal: string := "WORK LOAD\0"

  /** BUFFSIZ, the most that one read takes. */
  const BuffSize: nat := 256

  function Signals(n: nat): string {
    if n == 0 then "" else Signal + Signals(n - 1)
  }

  /** The C string at the start of a buffer. */
  function CString(s: string): string {
    if s == "" || s[0] == '\0' then "" else [s[0]] + CString(s[1..])
  }

  function Buffer(pipe: string): string {
    if |pipe| <= BuffSize then pipe else pipe[..BuffSize]
  }

  function Rest(pipe: string): string {
    if |pipe| <= BuffSize then "" else pipe[BuffSize..]
  }

  /** strcmp(buff, "WORK LOAD") == 0 */
  predicate Recognised(pipe: string) {
    CString(Buffer(pipe)) == "WORK LOAD"
  }

  lemma {:induction false} SignalsLength(n: nat)
    ensures |Signals(n)| == 10 * n
  {
    if n > 0 {
      SignalsLength(n - 1);
    }
  }

  lemma {:induction false} SignalsSplit(a: nat, b: nat)
    ensures Signals(a + b) == Signals(a) + Signals(b)
  {
    hide Signal;
    if a > 0 {
      SignalsSplit(a - 1, b);
      ConcatAssociates(Signal, Signals(a - 1), Signals(b));
    } else {
      assert Signals(0) + Signals(b) == Signals(b);
    }
  }

  lemma SignalsSnoc(n: nat)
    ensures Signals(n) + Signal == Signals(n + 1)
  {
    SignalsSplit(n, 1);
    assert Signals(1) == Signal + "";
  }

  /** The first zero ends the string, whatever follows it. */
  lemma {:induction false} CStringStops(a: string, b: string)
    requires '\0' !in a
    ensures CString(a + ['\0'] + b) == a
  {
    if a == "" {
      assert (a + ['\0'] + b)[0] == '\0';
    } else {
      assert (a + ['\0'] + b)[1..] == a[1..] + ['\0'] + b;
      CStringStops(a[1..], b);
    }
  }

  /** Pending whole signals are recognised, however many the read takes at once. */
  lemma WholeSignalsAreRecognised(n: nat)
    requires n > 0
    ensures Recognised(Signals(n))
  {
    SignalsLength(n);
    var buff := Buffer(Signals(n));
    assert buff[..10] == Signal && Signal == "WORK LOAD" + ['\0'];
    assert buff == "WORK LOAD" + ['\0'] + buff[10..];
    CStringStops("WORK LOAD", buff[10..]);
  }

  /** A read of n whole signals leaves whole signals exactly when it takes them all, that is up to 25 of them;
      otherwise it stops inside the 26th. */
  lemma ReadLeavesWholeSignalsIff(n: nat)
    ensures (exists m :: Rest(Signals(n)) == Signals(m)) <==> n <= 25
    ensures n <= 25 ==> Rest(Signals(n)) == ""
    ensures n > 25 ==> Rest(Signals(n)) == "OAD\0" + Signals(n - 26)
  {
    SignalsLength(n);
    if n <= 25 {
      assert Rest(Signals(n)) == Signals(0);
    } else {
      SignalsSplit(25, n - 25);
      SignalsLength(25);
      assert Signals(n - 25) == Signal + Signals(n - 26);
      assert Rest(Signals(n)) == Signals(n - 25)[6..] == Signal[6..] + Signals(n - 26);
      assert Signal[6..] == "OAD\0";
      forall m
        ensures "OAD\0" + Signals(n - 26) != Signals(m)
      {
        if m > 0 {
          assert Signals(m)[0] == 'W';
          assert ("OAD\0" + Signals(n - 26))[0] == 'O';
        }
      }
    }
  }

  // ----- the threads

  datatype ProducerPc = Idle | Locked | Appended | Unlocked
  datatype MainPc = Selecting | Woken | Holding | Scanned
  datatype Owner = Nobody | MainThread | Producer(i: nat)

  /** A request on work_list; unseen until a scan of the main thread has looked at it. */
  datatype Item = Item(id: nat, unseen: bool)

  datatype System = System(producers: seq<ProducerPc>, main: MainPc, owner: Owner, work: seq<Item>, pipe: string)

  datatype Action =
    | Lock(i: nat)
    | Append(i: nat, id: nat, front: bool)   // a GET goes to the front, a SET to the back
    | Unlock(i: nat)
    | Write(i: nat)
    | Read
    | MainLock
    | Scan(keep: seq<bool>)                  // which requests stay on the list
    | MainUnlock

  predicate At(s: System, i: nat, pc: ProducerPc) {
    i < |s.producers| && s.producers[i] == pc
  }

  predicate Enabled(s: System, a: Action) {
    match a
    case Lock(i) => At(s, i, Idle) && s.owner == Nobody
    case Append(i, _, _) => At(s, i, Locked)
    case Unlock(i) => At(s, i, Appended)
    case Write(i) => At(s, i, Unlocked)
    case Read => s.main == Selecting && s.pipe != ""
    case MainLock => s.main == Woken && s.owner == Nobody
    case Scan(keep) => s.main == Holding && |keep| == |s.work|
    case MainUnlock => s.main == Scanned
  }

  function Survivors(work: seq<Item>, keep: seq<bool>): seq<Item>
    requires |keep| == |work|
  {
    if work == [] then []
    else (if keep[0] then [work[0].(unseen := false)] else []) + Survivors(work[1..], keep[1..])
  }

  function Move(s: System, i: nat, pc: ProducerPc): System
    requires i < |s.producers|
  {
    s.(producers := s.producers[i := pc])
  }

  function Next(s: System, a: Action): System
    requires Enabled(s, a)
  {
    match a
    case Lock(i) => Move(s, i, Locked).(owner := Producer(i))
    case Append(i, id, front) =>
      Move(s, i, Appended).(work := if front then [Item(id, true)] + s.work else s.work + [Item(id, true)])
    case Unlock(i) => Move(s, i, Unlocked).(owner := Nobody)
    case Write(i) => Move(s, i, Idle).(pipe := s.pipe + Signal)
    case Read => s.(pipe := Rest(s.pipe), main := if Recognised(s.pipe) then Woken else Selecting)
    case MainLock => s.(main := Holding, owner := MainThread)
    case Scan(keep) => s.(main := Scanned, work := Survivors(s.work, keep))
    case MainUnlock => s.(main := Selecting, owner := Nobody)
  }

  function Initial(n: nat): System {
    System(seq(n, _ => Idle), Selecting, Nobody, [], "")
  }

  // ----- no lost wake-up

  ghost predicate SomeUnseen(s: System) {
    exists k :: 0 <= k < |s.work| && s.work[k].unseen
  }

  /** Somebody is going to have the list scanned: a signal is pending, or a producer is still to write one, or
      the main thread has read one and not yet scanned. */
  ghost predicate ScanIsComing(s: System) {
    || s.pipe != ""
    || (exists i :: 0 <= i < |s.producers| && (s.producers[i] == Appended || s.producers[i] == Unlocked))
    || s.main == Woken || s.main == Holding
  }

  ghost predicate MutexOk(s: System) {
    && (s.owner == MainThread <==> s.main == Holding || s.main == Scanned)
    && (forall i :: 0 <= i < |s.producers| ==>
          (s.owner == Producer(i) <==> s.producers[i] == Locked || s.producers[i] == Appended))
  }

  ghost predicate Aligned(s: System) {
    exists n :: s.pipe == Signals(n)
  }

  ghost predicate Sound(s: System) {
    && MutexOk(s) && Aligned(s)
    && (SomeUnseen(s) ==> ScanIsComing(s))
    && (s.main == Scanned ==> !SomeUnseen(s))
  }

  /** A read that finds at most n signals pending. */
  predicate ReadWithin(s: System, a: Action, n: nat) {
    a == Read ==> |s.pipe| <= 10 * n
  }

  lemma {:induction false} SurvivorsAreSeen(work: seq<Item>, keep: seq<bool>)
    requires |keep| == |work|
    ensures forall k :: 0 <= k < |Survivors(work, keep)| ==> !Survivors(work, keep)[k].unseen
  {
    if work != [] {
      SurvivorsAreSeen(work[1..], keep[1..]);
    }
  }

  lemma InitialSound(n: nat)
    ensures Sound(Initial(n))
  {
    assert Initial(n).pipe == Signals(0);
  }

  lemma MutexKept(s: System, a: Action)
    requires MutexOk(s) && Enabled(s, a)
    ensures MutexOk(Next(s, a))
  {
  }

  lemma PipeKeptAligned(s: System, a: Action)
    requires Aligned(s) && Enabled(s, a) && ReadWithin(s, a, 25)
    ensures Aligned(Next(s, a))
    ensures a == Read ==> Next(s, a).main == Woken
  {
    var n: nat :| s.pipe == Signals(n);
    if a.Write? {
      SignalsSnoc(n);
      assert Next(s, a).pipe == Signals(n + 1);
    } else if a == Read {
      SignalsLength(n);
      ReadLeavesWholeSignalsIff(n);
      assert Next(s, a).pipe == Signals(0);
      WholeSignalsAreRecognised(n);
    } else {
      assert Next(s, a).pipe == Signals(n);
    }
  }

  lemma UnseenKept(s: System, a: Action)
    requires MutexOk(s) && Aligned(s) && (SomeUnseen(s) ==> ScanIsComing(s)) && (s.main == Scanned ==> !SomeUnseen(s))
    requires Enabled(s, a) && ReadWithin(s, a, 25)
    ensures SomeUnseen(Next(s, a)) ==> ScanIsComing(Next(s, a))
    ensures Next(s, a).main == Scanned ==> !SomeUnseen(Next(s, a))
  {
    var s' := Next(s, a);
    PipeKeptAligned(s, a);
    match a
    case Append(i, _, _) => assert s'.producers[i] == Appended;
    case Unlock(i) => assert s'.producers[i] == Unlocked;
    case Scan(keep) => SurvivorsAreSeen(s.work, keep);
    case Lock(i) =>
      assert forall j :: 0 <= j < |s.producers| && j != i ==> s'.producers[j] == s.producers[j];
    case _ =>
  }

  /** One step of any thread keeps the hand-off sound, if reads are short. */
  lemma StepKeepsSound(s: System, a: Action)
    requires Sound(s) && Enabled(s, a) && ReadWithin(s, a, 25)
    ensures Sound(Next(s, a))
  {
    MutexKept(s, a);
    PipeKeptAligned(s, a);
    UnseenKept(s, a);
  }

  ghost predicate Schedule(s: System, acts: seq<Action>)
    decreases |acts|
  {
    acts != [] ==> Enabled(s, acts[0]) && Schedule(Next(s, acts[0]), acts[1..])
  }

  ghost predicate ReadsWithin(s: System, acts: seq<Action>, n: nat)
    requires Schedule(s, acts)
    decreases |acts|
  {
    acts != [] ==> ReadWithin(s, acts[0], n) && ReadsWithin(Next(s, acts[0]), acts[1..], n)
  }

  ghost function Play(s: System, acts: seq<Action>): System
    requires Schedule(s, acts)
    decreases |acts|
  {
    if acts == [] then s else Play(Next(s, acts[0]), acts[1..])
  }

  lemma {:induction false} PlayKeepsSound(s: System, acts: seq<Action>)
    requires Sound(s) && Schedule(s, acts) && ReadsWithin(s, acts, 25)
    ensures Sound(Play(s, acts))
    decreases |acts|
  {
    if acts != [] {
      StepKeepsSound(s, acts[0]);
      PlayKeepsSound(Next(s, acts[0]), acts[1..]);
    }
  }

  /** Nothing is under way: no producer between lock and write, no signal pending, the main thread selecting. */
  ghost predicate Quiescent(s: System) {
    s.pipe == "" && s.main == Selecting && forall i :: 0 <= i < |s.producers| ==> s.producers[i] == Idle
  }

  /** No lost wake-up: over every interleaving whose reads find at most 25 signals, an unscanned request has a
      scan coming, so at quiescence every request on the list has been scanned. */
  lemma NoLostWakeup(n: nat, acts: seq<Action>)
    requires Schedule(Initial(n), acts) && ReadsWithin(Initial(n), acts, 25)
    ensures var s := Play(Initial(n), acts);
      (SomeUnseen(s) ==> ScanIsComing(s)) && (Quiescent(s) ==> !SomeUnseen(s))
  {
    InitialSound(n);
    PlayKeepsSound(Initial(n), acts);
  }

  // ----- the wake-up that is lost

  /** One request handed over by producer i. */
  function HandOver(i: nat, id: nat): seq<Action> {
    [Lock(i), Append(i, id, false), Unlock(i), Write(i)]
  }

  /** A schedule of one action more. */
  lemma PlayFirst(s: System, a: Action, acts: seq<Action>)
    requires Enabled(s, a) && Schedule(Next(s, a), acts)
    ensures Schedule(s, [a] + acts) && Play(s, [a] + acts) == Play(Next(s, a), acts)
  {
    assert ([a] + acts)[1..] == acts;
  }

  lemma FourActions(s: System, a: Action, b: Action, c: Action, d: Action)
    requires Enabled(s, a) && Enabled(Next(s, a), b) && Enabled(Next(Next(s, a), b), c)
    requires Enabled(Next(Next(Next(s, a), b), c), d)
    ensures Schedule(s, [a, b, c, d]) && Play(s, [a, b, c, d]) == Next(Next(Next(Next(s, a), b), c), d)
  {
    hide Enabled, Next;
    var s1 := Next(s, a);
    var s2 := Next(s1, b);
    var s3 := Next(s2, c);
    PlayFirst(s3, d, []);
    PlayFirst(s2, c, [d]);
    PlayFirst(s1, b, [c, d]);
    PlayFirst(s, a, [b, c, d]);
    assert [d] + [] == [d] && [c] + [d] == [c, d] && [b] + [c, d] == [b, c, d] && [a] + [b, c, d] == [a, b, c, d];
  }

  lemma HandOverEffect(s: System, i: nat, id: nat)
    requires i < |s.producers| && s.producers[i] == Idle && s.owner == Nobody
    ensures Schedule(s, HandOver(i, id))
    ensures Play(s, HandOver(i, id)) == s.(work := s.work + [Item(id, true)], pipe := s.pipe + Signal)
  {
    hide Schedule, Play;
    FourActions(s, Lock(i), Append(i, id, false), Unlock(i), Write(i));
    var s4 := Next(Next(Next(Next(s, Lock(i)), Append(i, id, false)), Unlock(i)), Write(i));
    assert s4.producers == s.producers;
  }

  lemma {:induction false} PlayAppend(s: System, a: seq<Action>, b: seq<Action>)
    requires Schedule(s, a) && Schedule(Play(s, a), b)
    ensures Schedule(s, a + b) && Play(s, a + b) == Play(Play(s, a), b)
    decreases |a|
  {
    if a == [] {
      assert a + b == b;
    } else {
      assert (a + b)[1..] == a[1..] + b;
      PlayAppend(Next(s, a[0]), a[1..], b);
    }
  }

  /** n requests from one producer while the main thread does not read. */
  function Burst(n: nat): seq<Action> {
    if n == 0 then [] else Burst(n - 1) + HandOver(0, n)
  }

  lemma {:induction false} BurstEffect(n: nat)
    ensures Schedule(Initial(1), Burst(n))
    ensures var s := Play(Initial(1), Burst(n));
      s == Initial(1).(work := s.work, pipe := Signals(n)) && |s.work| == n
  {
    if n > 0 {
      BurstEffect(n - 1);
      var s := Play(Initial(1), Burst(n - 1));
      HandOverEffect(s, 0, n);
      PlayAppend(Initial(1), Burst(n - 1), HandOver(0, n));
      SignalsSnoc(n - 1);
    }
  }

  /** The main thread reads, and scans everything off the list. */
  function Turn(n: nat): seq<Action> {
    [Read, MainLock, Scan(seq(n, _ => false)), MainUnlock]
  }

  lemma {:induction false} NothingSurvives(work: seq<Item>)
    ensures Survivors(work, seq(|work|, _ => false)) == []
  {
    if work != [] {
      assert seq(|work|, _ => false)[1..] == seq(|work[1..]|, _ => false);
      NothingSurvives(work[1..]);
    }
  }

  lemma TurnEffect(s: System)
    requires s.main == Selecting && s.owner == Nobody && s.pipe != "" && Recognised(s.pipe)
    ensures Schedule(s, Turn(|s.work|))
    ensures Play(s, Turn(|s.work|)) == s.(work := [], pipe := Rest(s.pipe))
  {
    hide Schedule, Play, Recognised;
    NothingSurvives(s.work);
    FourActions(s, Read, MainLock, Scan(seq(|s.work|, _ => false)), MainUnlock);
  }

  /** The run that loses a request: n signals are pending when the main thread reads and scans; the read stops
      inside a signal, so the signal of the next request is not recognised. */
  function LosingRun(n: nat): seq<Action> {
    Burst(n) + (Turn(n) + (HandOver(0, 0) + [Read]))
  }

  /** From 26 pending signals on (up to 50, where one more read empties the pipe) the next request is stranded:
      nothing is under way, and no scan has ever seen it. */
  lemma WakeupIsLost(n: nat)
    requires 26 <= n <= 50
    ensures Schedule(Initial(1), LosingRun(n)) && ReadsWithin(Initial(1), LosingRun(n), n)
    ensures Quiescent(Play(Initial(1), LosingRun(n))) && SomeUnseen(Play(Initial(1), LosingRun(n)))
  {
    BurstEffect(n);
    BurstReadsNothing(n, n);
    var s := Play(Initial(1), Burst(n));
    SignalsLength(n);
    WholeSignalsAreRecognised(n);
    ReadLeavesWholeSignalsIff(n);
    TurnEffect(s);
    var s1 := Play(s, Turn(n));
    SignalsLength(n - 26);
    LastRead(s1, n);
    var tail := HandOver(0, 0) + [Read];
    PlayAppend(s, Turn(n), tail);
    TurnReads(s, n);
    ReadsAppend(s, Turn(n), tail, n);
    PlayAppend(Initial(1), Burst(n), Turn(n) + tail);
    ReadsAppend(Initial(1), Burst(n), Turn(n) + tail, n);
  }

  lemma {:induction false} ReadsAppend(s: System, a: seq<Action>, b: seq<Action>, n: nat)
    requires Schedule(s, a) && Schedule(Play(s, a), b) && ReadsWithin(s, a, n) && ReadsWithin(Play(s, a), b, n)
    ensures Schedule(s, a + b) && ReadsWithin(s, a + b, n)
    decreases |a|
  {
    if a == [] {
      assert a + b == b;
    } else {
      assert (a + b)[1..] == a[1..] + b;
      ReadsAppend(Next(s, a[0]), a[1..], b, n);
      PlayAppend(s, a, b);
    }
  }

  lemma HandOverReadsNothing(s: System, i: nat, id: nat, n: nat)
    requires Schedule(s, HandOver(i, id))
    ensures ReadsWithin(s, HandOver(i, id), n)
  {
    NoReadsWithin(s, HandOver(i, id), n);
  }

  lemma {:induction false} NoReadsWithin(s: System, acts: seq<Action>, n: nat)
    requires Schedule(s, acts) && Read !in acts
    ensures ReadsWithin(s, acts, n)
    decreases |acts|
  {
    if acts != [] {
      assert acts[0] in acts;
      NoReadsWithin(Next(s, acts[0]), acts[1..], n);
    }
  }

  lemma {:induction false} BurstReadsNothing(n: nat, b: nat)
    ensures Read !in Burst(n)
    ensures Schedule(Initial(1), Burst(n)) && ReadsWithin(Initial(1), Burst(n), b)
  {
    if n > 0 {
      BurstReadsNothing(n - 1, b);
    }
    BurstEffect(n);
    NoReadsWithin(Initial(1), Burst(n), b);
  }

  lemma TurnReads(s: System, n: nat)
    requires Schedule(s, Turn(n)) && |s.pipe| <= 10 * n
    ensures ReadsWithin(s, Turn(n), n)
  {
    assert Turn(n)[1..] == [MainLock, Turn(n)[2], MainUnlock];
    NoReadsWithin(Next(s, Read), Turn(n)[1..], n);
  }

  /** The rest of a signal hides the whole ones behind it, and all of them are read at once. */
  lemma BrokenSignal(n: nat)
    requires n <= 24
    ensures var pipe := "OAD\0" + Signals(n) + Signal;
      !Recognised(pipe) && Rest(pipe) == "" && |pipe| == 10 * n + 14
  {
    SignalsLength(n);
    assert "OAD\0" + Signals(n) + Signal == "OAD" + ['\0'] + (Signals(n) + Signal);
    CStringStops("OAD", Signals(n) + Signal);
  }

  lemma ReadOnly(s: System, n: nat)
    requires Enabled(s, Read) && |s.pipe| <= 10 * n
    ensures Schedule(s, [Read]) && Play(s, [Read]) == Next(s, Read) && ReadsWithin(s, [Read], n)
  {
    assert [Read][1..] == [];
  }

  /** One more request, and the read that does not recognise its signal. */
  lemma LastRead(s: System, n: nat)
    requires 26 <= n <= 50 && s.producers == [Idle] && s.owner == Nobody && s.main == Selecting && s.work == []
    requires s.pipe == "OAD\0" + Signals(n - 26)
    ensures var acts := HandOver(0, 0) + [Read];
      && Schedule(s, acts) && ReadsWithin(s, acts, n)
      && Quiescent(Play(s, acts)) && SomeUnseen(Play(s, acts))
  {
    hide HandOver, Recognised, Signals, Signal, Schedule, Play, ReadsWithin, Rest;
    HandOverEffect(s, 0, 0);
    HandOverReadsNothing(s, 0, 0, n);
    var s2 := Play(s, HandOver(0, 0));
    BrokenSignal(n - 26);
    ReadOnly(s2, n);
    var s3 := Next(s2, Read);
    assert s3.work == [Item(0, true)] && s3.work[0].unseen;
    PlayAppend(s, HandOver(0, 0), [Read]);
    ReadsAppend(s, HandOver(0, 0), [Read], n);
  }

  /** The run is possible, its reads find at most b signals, and it leaves a request that nobody will look at. */
  ghost predicate Strands(n: nat, acts: seq<Action>, b: nat) {
    && Schedule(Initial(n), acts) && ReadsWithin(Initial(n), acts, b)
    && Quiescent(Play(Initial(n), acts)) && SomeUnseen(Play(Initial(n), acts))
  }

  /** The bound is exact: reads that find at most b signals never strand a request if and only if b <= 25. */
  lemma BoundIsExact(b: nat)
    ensures b <= 25 <==> forall n: nat, acts :: !Strands(n, acts, b)
  {
    hide Play, Schedule, ReadsWithin, LosingRun;
    if b <= 25 {
      forall n: nat, acts
        ensures !Strands(n, acts, b)
      {
        if Strands(n, acts, b) {
          ReadsLoosen(Initial(n), acts, b, 25);
          NoLostWakeup(n, acts);
        }
      }
    } else {
      WakeupIsLost(26);
      ReadsLoosen(Initial(1), LosingRun(26), 26, b);
      assert Strands(1, LosingRun(26), b);
    }
  }

  lemma {:induction false} ReadsLoosen(s: System, acts: seq<Action>, b: nat, c: nat)
    requires Schedule(s, acts) && ReadsWithin(s, acts, b) && b <= c
    ensures ReadsWithin(s, acts, c)
    decreases |acts|
  {
    if acts != [] {
      ReadsLoosen(Next(s, acts[0]), acts[1..], b, c);
    }
  }
}

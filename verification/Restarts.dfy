/** The life of one store: queue calls, restarts that recover it, and recoveries that fail midway.
    Every start of the agent runs recovery once, and goes on with empty queues if that fails. */
module Restarts {
  import opened Basics
  import opened Tasks
  import opened Store
  import opened Recovery
  import opened SeqNoOrder
  import Spec = QueueSpec

  datatype Event =
    | Called(call: Spec.Call)
    | Restarted
    | RecoveryFailed(after: Buckets)  // a restart whose recovery left the store like this

  /** The system with its live tasks, and the tasks accepted since the last recovery whose
      records no failed recovery has rewritten. */
  datatype Life = Life(x: Spec.Traced, since: set<Task>)

  function Start(capacity: int): Life { Life(Spec.Traced(Spec.Start(capacity), map[]), {}) }

  /** What any recovery leaves of the store, failed or not. */
  ghost predicate PartPass(s: Buckets, after: Buckets) {
    after.Keys == s.Keys && forall d | d in s :: PartlyRecovered(s[d], after[d])
  }

  /** Storage works for the calls, and tasks have numbers and ids of their own. */
  ghost predicate Possible(l: Life, e: Event) {
    match e
    case Called(c) => Spec.Proper(l.x, c)
    case Restarted => true
    case RecoveryFailed(after) => PartPass(l.x.sys.store, after)
  }

  function LiveOf(s: Buckets): map<string, multiset<Task>> {
    map d | d in s :: multiset(TasksOf(s[d]))
  }

  function AcceptedBy(x: Spec.Traced, c: Spec.Call): set<Task> {
    if c.DoEnqueue? && Spec.Enqueue(x.sys, c.task, c.now, c.io).1.None? then {Spec.Filled(c.task.value, c.now)}
    else {}
  }

  function RestartOf(s: Buckets, capacity: int): Spec.Traced {
    Spec.Traced(Spec.Sys(Rebuilt(s, capacity), RecoveredStore(s)), LiveOf(RecoveredStore(s)))
  }

  function FailedRestart(after: Buckets, capacity: int): Spec.Traced {
    Spec.Traced(Spec.Sys(Spec.Start(capacity).queues, after), LiveOf(after))
  }

  function After(l: Life, e: Event, capacity: int): Life {
    match e
    case Called(c) => Life(Spec.Track(l.x, c), l.since + AcceptedBy(l.x, c))
    case Restarted => Life(RestartOf(l.x.sys.store, capacity), {})
    case RecoveryFailed(after) =>
      Life(FailedRestart(after, capacity), set a | a in l.since && a in TasksOf(BucketOf(after, a.deviceId)))
  }

  ghost predicate IsLife(l: Life, events: seq<Event>, capacity: int)
    decreases |events|
  {
    events == [] || (Possible(l, events[0]) && IsLife(After(l, events[0], capacity), events[1..], capacity))
  }

  function Lived(l: Life, events: seq<Event>, capacity: int): Life
    decreases |events|
  {
    if events == [] then l else Lived(After(l, events[0], capacity), events[1..], capacity)
  }

  // ---------------------------------------------------------------- the invariant

  /** Queues, store and live tasks match, and a record that says RUNNING or RETRYING belongs to
      a task accepted since the last recovery. */
  ghost predicate Inv(l: Life) {
    && (forall d: string :: Spec.Consistent(l.x, d))
    && (forall d: string, a: Task :: a in l.x.Live(d) && NeedsRecover(a.status) ==> a in l.since)
  }

  lemma {:induction false} KeyedStore(l: Life)
    requires Inv(l)
    ensures WellKeyedStore(l.x.sys.store)
  {
    forall d | d in l.x.sys.store ensures WellKeyed(l.x.sys.store[d], d) {
      assert Spec.Consistent(l.x, d);
    }
  }

  lemma {:induction false} LiveGrows(x: Spec.Traced, c: Spec.Call, d: string, a: Task)
    requires a in Spec.Track(x, c).Live(d)
    ensures a in x.Live(d) || a in AcceptedBy(x, c)
  {
  }

  lemma {:induction false} CallKeepsInv(l: Life, c: Spec.Call, capacity: int)
    requires Inv(l) && Spec.Proper(l.x, c)
    ensures Inv(After(l, Called(c), capacity))
  {
    var m := After(l, Called(c), capacity);
    forall d: string ensures Spec.Consistent(m.x, d) {
      assert Spec.Consistent(l.x, d);
      Spec.CallConsistent(l.x, c, d);
    }
    forall d: string, a: Task | a in m.x.Live(d) && NeedsRecover(a.status) ensures a in m.since {
      LiveGrows(l.x, c, d, a);
    }
  }

  lemma {:induction false} PartKeeps(b: Bucket, b': Bucket, d: string)
    requires PartlyRecovered(b, b') && WellKeyed(b, d) && Spec.DistinctIds(b)
    ensures WellKeyed(b', d) && Spec.DistinctIds(b')
    ensures forall a | a in TasksOf(b') && NeedsRecover(a.status) :: a in TasksOf(b)
  {
    forall i | 0 <= i < |b'|
      ensures b'[i].key == b[i].key && b'[i].task.taskId == b[i].task.taskId
      ensures b'[i].task.seqNo == b[i].task.seqNo && b'[i].task.deviceId == b[i].task.deviceId
      ensures NeedsRecover(b'[i].task.status) ==> b'[i] == b[i]
    {
    }
    forall a | a in TasksOf(b') && NeedsRecover(a.status) ensures a in TasksOf(b) {
      var i :| 0 <= i < |b'| && b'[i].task == a;
      assert TasksOf(b)[i] == a;
    }
  }

  /** After a pass over the store, with the tasks of `queue` in the device's queue. */
  lemma {:induction false} PassConsistent(s: Buckets, x: Spec.Traced, d: string)
    requires WellKeyed(BucketOf(s, d), d) && Spec.DistinctIds(BucketOf(s, d)) && PartPass(s, x.sys.store)
    requires x.live == LiveOf(x.sys.store)
    requires multiset(x.sys.queues.At(d).tasks) <= multiset(TasksOf(BucketOf(x.sys.store, d)))
    ensures Spec.Consistent(x, d)
    ensures forall a | a in x.Live(d) && NeedsRecover(a.status) ::
      a in multiset(TasksOf(BucketOf(s, d))) && a in TasksOf(BucketOf(x.sys.store, d)) && a.deviceId == d
  {
    var b, b' := BucketOf(s, d), BucketOf(x.sys.store, d);
    PartKeeps(b, b', d);
    assert TasksOf([]) == [];
    assert x.Live(d) == multiset(TasksOf(b'));
  }

  lemma {:induction false} FoundWithin(b: Bucket)
    ensures multiset(Found(b)) <= multiset(TasksOf(RecoveredBucket(b)))
  {
    if b != [] {
      var n := |b| - 1;
      FoundWithin(b[..n]);
      assert RecoveredBucket(b) == RecoveredBucket(b[..n]) + [Record(b[n].key, Recovered(b[n].task))];
      assert TasksOf(RecoveredBucket(b)) == TasksOf(RecoveredBucket(b[..n])) + [Recovered(b[n].task)];
    }
  }

  lemma {:induction false} QueueWithin(s: Buckets, capacity: int, d: string)
    ensures multiset(Rebuilt(s, capacity).At(d).tasks) <= multiset(TasksOf(RecoveredBucket(BucketOf(s, d))))
  {
    RefilledFromEmpty(s, capacity, d);
    var found, q := Found(BucketOf(s, d)), Rebuilt(s, capacity);
    var all := SortBySeqNo(found);
    var n := if |all| < q.capacity then |all| else q.capacity;
    SortKeeps(found);
    PrefixWithin(all, n);
    FoundWithin(BucketOf(s, d));
  }

  lemma PrefixWithin(ts: seq<Task>, n: nat)
    requires n <= |ts|
    ensures multiset(ts[..n]) <= multiset(ts)
  {
    assert ts == ts[..n] + ts[n..];
  }

  lemma {:induction false} RestartKeepsInv(l: Life, capacity: int)
    requires Inv(l)
    ensures Inv(After(l, Restarted, capacity))
  {
    var s, m := l.x.sys.store, After(l, Restarted, capacity);
    forall d: string
      ensures Spec.Consistent(m.x, d)
      ensures forall a | a in m.x.Live(d) :: !NeedsRecover(a.status)
    {
      assert Spec.Consistent(l.x, d);
      QueueWithin(s, capacity, d);
      assert BucketOf(RecoveredStore(s), d) == RecoveredBucket(BucketOf(s, d));
      PassConsistent(s, m.x, d);
      NoneLeft(BucketOf(s, d));
    }
  }

  lemma {:induction false} NoneLeft(b: Bucket)
    ensures forall a | a in multiset(TasksOf(RecoveredBucket(b))) :: !NeedsRecover(a.status)
  {
    forall a | a in multiset(TasksOf(RecoveredBucket(b))) ensures !NeedsRecover(a.status) {
      assert a in TasksOf(RecoveredBucket(b));
    }
  }

  lemma {:induction false} FailureKeepsInv(l: Life, after: Buckets, capacity: int)
    requires Inv(l) && PartPass(l.x.sys.store, after)
    ensures Inv(After(l, RecoveryFailed(after), capacity))
  {
    var m := After(l, RecoveryFailed(after), capacity);
    forall d: string
      ensures Spec.Consistent(m.x, d)
      ensures forall a | a in m.x.Live(d) && NeedsRecover(a.status) :: a in m.since
    {
      assert Spec.Consistent(l.x, d);
      PassConsistent(l.x.sys.store, m.x, d);
    }
  }

  lemma {:induction false} EventKeepsInv(l: Life, e: Event, capacity: int)
    requires Inv(l) && Possible(l, e)
    ensures Inv(After(l, e, capacity))
  {
    match e
    case Called(c) => CallKeepsInv(l, c, capacity);
    case Restarted => RestartKeepsInv(l, capacity);
    case RecoveryFailed(after) => FailureKeepsInv(l, after, capacity);
  }

  lemma {:induction false} LifeKeepsInv(l: Life, events: seq<Event>, capacity: int)
    requires Inv(l) && IsLife(l, events, capacity)
    ensures Inv(Lived(l, events, capacity))
    decreases |events|
  {
    if events != [] {
      EventKeepsInv(l, events[0], capacity);
      LifeKeepsInv(After(l, events[0], capacity), events[1..], capacity);
    }
  }

  lemma {:induction false} Reachable(capacity: int, events: seq<Event>)
    requires IsLife(Start(capacity), events, capacity)
    ensures Inv(Lived(Start(capacity), events, capacity))
  {
    forall d: string ensures Spec.Consistent(Start(capacity).x, d) {
      assert TasksOf(BucketOf(Start(capacity).x.sys.store, d)) == [];
    }
    LifeKeepsInv(Start(capacity), events, capacity);
  }

  // -------------------------------------------------------------- the durability

  /** Over every sequence of calls, restarts and failed recoveries: recovery finds exactly the
      live tasks that were accepted as RUNNING or RETRYING since the last one. */
  lemma {:induction false} RestartFinds(capacity: int, events: seq<Event>, d: string, t: Task)
    requires IsLife(Start(capacity), events, capacity)
    ensures
      var l := Lived(Start(capacity), events, capacity);
      t in Found(BucketOf(l.x.sys.store, d))
      <==> exists a | a in l.x.Live(d) :: a in l.since && NeedsRecover(a.status) && t == Recovered(a)
  {
    Reachable(capacity, events);
    var l := Lived(Start(capacity), events, capacity);
    assert Spec.Consistent(l.x, d);
    FindsUnderWay(l.x, d, t);
  }

  /** And the next restart loses no live task if and only if each of them was accepted as RUNNING
      or RETRYING since the last recovery and they are no more than a queue holds. */
  lemma {:induction false} RestartKeepsAllIff(capacity: int, events: seq<Event>, d: string)
    requires IsLife(Start(capacity), events, capacity)
    ensures
      var l := Lived(Start(capacity), events, capacity);
      var q := Rebuilt(l.x.sys.store, capacity);
      (forall a | a in l.x.Live(d) :: Recovered(a) in q.At(d).tasks)
      <==> (forall a | a in l.x.Live(d) :: a in l.since && NeedsRecover(a.status)) && |l.x.Live(d)| <= q.capacity
  {
    Reachable(capacity, events);
    var l := Lived(Start(capacity), events, capacity);
    KeyedStore(l);
    assert Spec.Consistent(l.x, d);
    KeepsAllIff(l.x, capacity, d);
  }

  /** So whatever a restart has recovered is gone after the next one, if nothing comes between. */
  lemma {:induction false} SecondRestartForgets(capacity: int, events: seq<Event>, d: string)
    requires IsLife(Start(capacity), events, capacity)
    ensures
      var l := Lived(Start(capacity), events, capacity);
      After(After(l, Restarted, capacity), Restarted, capacity).x.sys.queues.At(d).tasks == []
  {
    var s := Lived(Start(capacity), events, capacity).x.sys.store;
    RecoverTwice(s);
    RefilledFromEmpty(RecoveredStore(s), capacity, d);
    NothingLeftToFind(BucketOf(s, d));
    assert BucketOf(RecoveredStore(s), d) == RecoveredBucket(BucketOf(s, d));
    assert SortBySeqNo([]) == [];
  }

  /** A recovery that fails loses every task whose record it has rewritten: the queues stay empty
      and no later restart finds the record. */
  lemma {:induction false} FailedRecoveryLoses(capacity: int, events: seq<Event>, after: Buckets, d: string, i: nat)
    requires IsLife(Start(capacity), events, capacity)
    requires var s := Lived(Start(capacity), events, capacity).x.sys.store;
      && PartPass(s, after) && d in s && i < |s[d]|
      && NeedsRecover(s[d][i].task.status) && after[d][i].task == Recovered(s[d][i].task)
    ensures
      var m := After(Lived(Start(capacity), events, capacity), RecoveryFailed(after), capacity);
      var t := after[d][i].task;
      && t in m.x.Live(d) && m.x.sys.queues.At(d).tasks == []
      && t !in After(m, Restarted, capacity).x.sys.queues.At(d).tasks
  {
    var l := Lived(Start(capacity), events, capacity);
    Reachable(capacity, events);
    FailureKeepsInv(l, after, capacity);
    var m := After(l, RecoveryFailed(after), capacity);
    assert Spec.Consistent(m.x, d);
    KeyedStore(m);
    assert TasksOf(after[d])[i] in multiset(TasksOf(after[d]));
    FoundIsUnfinished(after[d], i);
    DroppedIffOverCapacity(after, capacity, d);
  }

  // --------------------------------------------------------------- concrete lives

  lemma {:induction false} LifeAppend(l: Life, events: seq<Event>, e: Event, capacity: int)
    requires IsLife(l, events, capacity) && Possible(Lived(l, events, capacity), e)
    ensures IsLife(l, events + [e], capacity)
    ensures Lived(l, events + [e], capacity) == After(Lived(l, events, capacity), e, capacity)
    decreases |events|
  {
    if events == [] {
      assert (events + [e])[0] == e && (events + [e])[1..] == [];
    } else {
      assert (events + [e])[1..] == events[1..] + [e];
      LifeAppend(After(l, events[0], capacity), events[1..], e, capacity);
    }
  }

  lemma {:induction false} Extend(events: seq<Event>, l: Life, e: Event, capacity: int) returns (longer: seq<Event>)
    requires IsLife(Start(capacity), events, capacity) && Lived(Start(capacity), events, capacity) == l
    requires Possible(l, e)
    ensures IsLife(Start(capacity), longer, capacity)
    ensures Lived(Start(capacity), longer, capacity) == After(l, e, capacity)
  {
    longer := events + [e];
    LifeAppend(Start(capacity), events, e, capacity);
  }

  /** Accepted as it is, under way already. */
  predicate Underway(t: Task) {
    t.status.Running? && t.deviceId != "" && t.taskId != "" && t.receivedAt != 0
  }

  /** An open device queue with these tasks waiting, and these live. */
  ghost predicate Stands(l: Life, d: string, waiting: seq<Task>, live: multiset<Task>, since: set<Task>, room: nat) {
    var q := l.x.sys.queues;
    && !q.closed && !q.At(d).closed && q.At(d).tasks == waiting && q.capacity == room
    && l.x.Live(d) == live && l.since == since
  }

  /** One more accepted task. */
  lemma {:induction false} Accepts(
      l: Life, t: Task, waiting: seq<Task>, live: multiset<Task>, since: set<Task>, room: nat, capacity: int)
    returns (e: Event, m: Life)
    requires Underway(t) && Spec.Fresh(live, t) && Stands(l, t.deviceId, waiting, live, since, room) && |waiting| < room
    ensures Possible(l, e) && m == After(l, e, capacity)
    ensures Stands(m, t.deviceId, waiting + [t], live + multiset{t}, since + {t}, room)
  {
    e := Called(Spec.DoEnqueue(Some(t), 1, true));
    m := After(l, e, capacity);
    assert Spec.Filled(t, 1) == t;
    Spec.EnqueueEffect(l.x, t, 1);
  }

  /** One task taken. */
  lemma {:induction false} Takes(
      l: Life, d: string, waiting: seq<Task>, live: multiset<Task>, since: set<Task>, room: nat, capacity: int)
    returns (e: Event, m: Life)
    requires Stands(l, d, waiting, live, since, room) && waiting != []
    ensures Possible(l, e) && m == After(l, e, capacity)
    ensures Stands(m, d, waiting[1..], live, since, room)
  {
    e := Called(Spec.DoDequeue(d));
    m := After(l, e, capacity);
  }

  lemma {:induction false} Begins(capacity: int, d: string)
    ensures IsLife(Start(capacity), [], capacity) && Lived(Start(capacity), [], capacity) == Start(capacity)
    ensures Stands(Start(capacity), d, [], multiset{}, {}, if capacity <= 0 then 100 else capacity)
  {
  }

  /** A task submitted as RUNNING, and two restarts: the first one keeps it, the second one does
      not, although nothing happened in between. */
  lemma {:induction false} KeptOnce(t: Task, capacity: int) returns (events: seq<Event>)
    requires Underway(t)
    ensures IsLife(Start(capacity), events, capacity)
    ensures
      var l := Lived(Start(capacity), events, capacity);
      var m := After(l, Restarted, capacity);
      && l.x.Live(t.deviceId) == multiset{t}
      && Recovered(t) in m.x.sys.queues.At(t.deviceId).tasks
      && After(m, Restarted, capacity).x.sys.queues.At(t.deviceId).tasks == []
  {
    Begins(capacity, t.deviceId);
    var room := if capacity <= 0 then 100 else capacity;
    var e, l := Accepts(Start(capacity), t, [], multiset{}, {}, room, capacity);
    events := Extend([], Start(capacity), e, capacity);
    assert l.x.Live(t.deviceId) == multiset{t} && l.since == {t};
    assert forall a | a in l.x.Live(t.deviceId) :: a == t;
    RestartKeepsAllIff(capacity, events, t.deviceId);
    SecondRestartForgets(capacity, events, t.deviceId);
  }

  /** The loss beyond the capacity, at the smallest: one place, a task that was taken and one
      that waits, both submitted as RUNNING. */
  lemma {:induction false} RestartDropsSecond(a: Task, b: Task) returns (events: seq<Event>)
    requires Underway(a) && Underway(b) && a.deviceId == b.deviceId && a.taskId != b.taskId && a.seqNo < b.seqNo
    ensures IsLife(Start(1), events, 1)
    ensures
      var l := Lived(Start(1), events, 1);
      && l.x.Live(a.deviceId) == multiset{a, b}
      && Recovered(b) !in After(l, Restarted, 1).x.sys.queues.At(a.deviceId).tasks
  {
    var d := a.deviceId;
    var l;
    events, l := BothLive(a, b);
    SecondDropped(events, l, a, b);
  }

  lemma {:induction false} BothLive(a: Task, b: Task) returns (events: seq<Event>, l: Life)
    requires Underway(a) && Underway(b) && a.deviceId == b.deviceId && a.taskId != b.taskId && a.seqNo < b.seqNo
    ensures IsLife(Start(1), events, 1) && l == Lived(Start(1), events, 1)
    ensures l.x.Live(a.deviceId) == multiset{a, b} && l.since == {a, b}
  {
    hide After, Lived, IsLife, Possible;
    var d := a.deviceId;
    Begins(1, d);
    var e1, l1 := Accepts(Start(1), a, [], multiset{}, {}, 1, 1);
    events := Extend([], Start(1), e1, 1);
    var e2, l2 := Takes(l1, d, [] + [a], multiset{} + multiset{a}, {} + {a}, 1, 1);
    events := Extend(events, l1, e2, 1);
    var e3, l3 := Accepts(l2, b, ([] + [a])[1..], multiset{} + multiset{a}, {} + {a}, 1, 1);
    events := Extend(events, l2, e3, 1);
    l := l3;
  }

  lemma {:induction false} SecondDropped(events: seq<Event>, l: Life, a: Task, b: Task)
    requires IsLife(Start(1), events, 1) && l == Lived(Start(1), events, 1)
    requires a.deviceId == b.deviceId && l.x.Live(a.deviceId) == multiset{a, b} && a in l.since && b in l.since
    requires a.status.Running? && b.status.Running? && a.seqNo < b.seqNo
    ensures Recovered(b) !in Rebuilt(l.x.sys.store, 1).At(a.deviceId).tasks
  {
    var d := a.deviceId;
    Reachable(1, events);
    KeyedStore(l);
    RestartFinds(1, events, d, Recovered(a));
    RestartFinds(1, events, d, Recovered(b));
    DroppedIffOverCapacity(l.x.sys.store, 1, d);
    YoungerDropped(Rebuilt(l.x.sys.store, 1).At(d).tasks, Found(BucketOf(l.x.sys.store, d)), Recovered(a), Recovered(b));
  }
}

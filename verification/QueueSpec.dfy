/** The task queue and the store behind it as values: what each call does, what whole runs
    of calls keep, and when the store agrees with the queue. */
module QueueSpec {
  import opened Basics
  import opened Tasks
  import opened Store
  import opened SeqNoOrder

  const TASK_DATA_INVALID := "TASK_DATA_INVALID"
  const QUEUE_FULL := "QUEUE_FULL"
  const QUEUE_EMPTY := "QUEUE_EMPTY"
  const TASK_NOT_FOUND := "TASK_NOT_FOUND"
  const TASK_CANCEL_FAIL := "TASK_CANCEL_FAIL"

  datatype DevQ = DevQ(tasks: seq<Task>, closed: bool)

  const EMPTY_DEVQ := DevQ([], false)

  datatype Queues = Queues(devs: map<string, DevQ>, capacity: nat, closed: bool) {
    function At(d: string): DevQ { if d in devs then devs[d] else EMPTY_DEVQ }

    function Created(d: string): Queues { this.(devs := devs[d := At(d)]) }

    function With(d: string, tasks: seq<Task>): Queues {
      this.(devs := devs[d := At(d).(tasks := tasks)])
    }
  }

  /** Setting a device's tasks is one update of the map. */
  lemma WithUpdates(q: Queues, d: string, tasks: seq<Task>)
    ensures q.With(d, tasks) == q.(devs := q.devs[d := q.At(d).(tasks := tasks)])
    ensures q.With(d, tasks).devs.Keys == q.devs.Keys + {d}
  {
  }

  /** The queues and the repository they persist to. */
  datatype Sys = Sys(queues: Queues, store: Buckets)

  type Error = Option<string>

  /** Enqueue's clone, with the defaults filled in. */
  function Filled(t: Task, now: int): Task {
    var t1 := if t.status.Unset? then t.(status := Pending) else t;
    if t1.receivedAt == 0 then t1.(receivedAt := now) else t1
  }

  function FirstTask(ts: seq<Task>, taskId: string): (i: nat)
    ensures i <= |ts|
    ensures i < |ts| ==> ts[i].taskId == taskId
    ensures forall j | 0 <= j < i :: ts[j].taskId != taskId
  {
    if ts == [] || ts[0].taskId == taskId then 0 else 1 + FirstTask(ts[1..], taskId)
  }

  // ------------------------------------------------------------ in-memory calls

  /** Enqueue under the lock, once its arguments and the queue-wide flag have been checked. */
  function Admitted(q: Queues, task: Task, now: int): (Queues, Error) {
    var d := task.deviceId;
    var q1 := q.Created(d);
    if q1.At(d).closed || |q1.At(d).tasks| >= q.capacity then (q1, Some(QUEUE_FULL))
    else (q1.With(d, q1.At(d).tasks + [Filled(task, now)]), None)
  }

  function Enqueued(q: Queues, task: Option<Task>, now: int): (Queues, Error) {
    if task.None? || task.value.deviceId == "" || task.value.taskId == "" then (q, Some(TASK_DATA_INVALID))
    else if q.closed then (q, Some(QUEUE_FULL))
    else Admitted(q, task.value, now)
  }

  /** What one pass of Dequeue's loop finds under the lock. */
  datatype Taken = Got(task: Task) | QueueClosed | MustWait

  function Dequeued(q: Queues, d: string): (Queues, Taken) {
    var q1 := q.Created(d);
    if q1.At(d).closed then (q1, QueueClosed)
    else if q1.At(d).tasks == [] then (q1, MustWait)
    else (q1.With(d, q1.At(d).tasks[1..]), Got(q1.At(d).tasks[0]))
  }

  function TryDequeued(q: Queues, d: string): (Queues, Option<Task>) {
    var ts := q.At(d).tasks;
    if ts == [] then (q, None) else (q.With(d, ts[1..]), Some(ts[0]))
  }

  function DroppedAt(q: Queues, d: string, i: nat): Queues
    requires i < |q.At(d).tasks|
  {
    q.With(d, q.At(d).tasks[..i] + q.At(d).tasks[i + 1..])
  }

  function Removed(q: Queues, d: string, taskId: string): (Queues, Error) {
    var ts := q.At(d).tasks;
    var i := FirstTask(ts, taskId);
    if i == |ts| then (q, Some(TASK_NOT_FOUND))
    else if !ts[i].status.Pending? then (q, Some(TASK_CANCEL_FAIL))
    else (DroppedAt(q, d, i), None)
  }

  function AllClosed(q: Queues): Queues {
    q.(closed := true, devs := ClosedExcept(q.devs, {}))
  }

  /** Close's loop with the device queues of `rest` still to be marked. */
  function ClosedExcept(devs: map<string, DevQ>, rest: set<string>): map<string, DevQ> {
    map d | d in devs :: if d in rest then devs[d] else devs[d].(closed := true)
  }

  lemma {:induction false} CloseNext(devs: map<string, DevQ>, rest: set<string>, d: string)
    requires d in rest && rest <= devs.Keys
    ensures ClosedExcept(devs, rest)[d := devs[d].(closed := true)] == ClosedExcept(devs, rest - {d})
  {
  }

  // ---------------------------------------------------------- refilling a queue

  /** enqueueRecovered. */
  function Restored(q: Queues, t: Task): (Queues, Error) {
    var d := t.deviceId;
    var q1 := q.Created(d);
    if q1.At(d).closed || |q1.At(d).tasks| >= q.capacity then (q1, Some(QUEUE_FULL))
    else (q1.With(d, q1.At(d).tasks + [t]), None)
  }

  /** A device queue after as many tasks of `ts` as fit were appended. */
  function Refilled(dq: DevQ, capacity: nat, ts: seq<Task>): DevQ {
    var room := if dq.closed || |dq.tasks| >= capacity then 0 else capacity - |dq.tasks|;
    dq.(tasks := dq.tasks + ts[..if |ts| < room then |ts| else room])
  }

  lemma {:induction false} RefillNext(dq: DevQ, capacity: nat, ts: seq<Task>, i: nat)
    requires i < |ts|
    ensures
      var now := Refilled(dq, capacity, ts[..i]);
      Refilled(dq, capacity, ts[..i + 1])
      == if now.closed || |now.tasks| >= capacity then now else now.(tasks := now.tasks + [ts[i]])
  {
  }

  /** Recovery's loop over one device's tasks, `i` of them done. */
  function RestoredUpTo(q: Queues, d: string, ts: seq<Task>, i: nat): Queues
    requires i <= |ts|
  {
    if i == 0 then q else q.(devs := q.devs[d := Refilled(q.At(d), q.capacity, ts[..i])])
  }

  lemma {:induction false} RestoreNext(q: Queues, d: string, ts: seq<Task>, i: nat)
    requires i < |ts| && ts[i].deviceId == d
    ensures Restored(RestoredUpTo(q, d, ts, i), ts[i]).0 == RestoredUpTo(q, d, ts, i + 1)
  {
    RefillNext(q.At(d), q.capacity, ts, i);
    assert Refilled(q.At(d), q.capacity, ts[..0]) == q.At(d);
    assert RestoredUpTo(q, d, ts, i).At(d) == Refilled(q.At(d), q.capacity, ts[..i]);
  }

  /** Recovered tasks, grouped under the device they name. */
  ghost predicate PerDevice(found: map<string, seq<Task>>) {
    forall d | d in found :: found[d] != [] && forall t | t in found[d] :: t.deviceId == d
  }

  /** Every found device's queue, refilled with its found tasks in order. */
  function Refills(q: Queues, found: map<string, seq<Task>>): map<string, DevQ> {
    map d | d in found :: Refilled(q.At(d), q.capacity, SortBySeqNo(found[d]))
  }

  /** Recovery's outer loop with the devices of `rest` still to do. */
  function RestoredExcept(q: Queues, found: map<string, seq<Task>>, rest: set<string>): Queues {
    q.(devs := q.devs + (Refills(q, found) - rest))
  }

  function RestoredAll(q: Queues, found: map<string, seq<Task>>): Queues { RestoredExcept(q, found, {}) }

  lemma {:induction false} SortedBelongs(ts: seq<Task>, d: string)
    requires ts != [] && forall t | t in ts :: t.deviceId == d
    ensures var sorted := SortBySeqNo(ts);
            sorted != [] && forall i | 0 <= i < |sorted| :: sorted[i].deviceId == d
  {
    var sorted := SortBySeqNo(ts);
    SortKeeps(ts);
    forall i | 0 <= i < |sorted| ensures sorted[i].deviceId == d {
      assert sorted[i] in multiset(ts);
    }
    assert |sorted| == |multiset(sorted)| == |ts|;
  }

  lemma {:induction false} OneMoreRefill(devs: map<string, DevQ>, refills: map<string, DevQ>, rest: set<string>, d: string)
    requires d in rest && d in refills
    ensures devs + (refills - (rest - {d})) == (devs + (refills - rest))[d := refills[d]]
    ensures d in devs + (refills - rest) <==> d in devs
    ensures d in devs ==> (devs + (refills - rest))[d] == devs[d]
  {
  }

  lemma {:induction false} RestoreNextDevice(q: Queues, found: map<string, seq<Task>>, rest: set<string>, d: string)
    requires d in rest && rest <= found.Keys && SortBySeqNo(found[d]) != []
    ensures
      var sorted := SortBySeqNo(found[d]);
      RestoredUpTo(RestoredExcept(q, found, rest), d, sorted, |sorted|) == RestoredExcept(q, found, rest - {d})
  {
    var sorted := SortBySeqNo(found[d]);
    assert sorted[..|sorted|] == sorted;
    OneMoreRefill(q.devs, Refills(q, found), rest, d);
  }

  // ------------------------------------------------------- calls with persistence

  /** `io` tells whether the store transaction of the call succeeds; a failure is logged. */
  function Enqueue(s: Sys, task: Option<Task>, now: int, io: bool): (Sys, Error) {
    var (q, err) := Enqueued(s.queues, task, now);
    (Sys(q, if err.None? then Saved(s.store, task.value.deviceId, Filled(task.value, now), io) else s.store), err)
  }

  function Cancel(s: Sys, d: string, taskId: string, io: bool): (Sys, Error) {
    var (q, err) := Removed(s.queues, d, taskId);
    (Sys(q, if err.None? then Erased(s.store, d, taskId, io) else s.store), err)
  }

  // ---------------------------------------------------------------- whole runs

  datatype Call =
    | DoEnqueue(task: Option<Task>, now: int, io: bool)
    | DoDequeue(d: string)
    | DoTryDequeue(d: string)
    | DoCancel(d: string, taskId: string, io: bool)
    | DoClose

  function Apply(s: Sys, c: Call): Sys {
    match c
    case DoEnqueue(t, now, io) => Enqueue(s, t, now, io).0
    case DoDequeue(d) => s.(queues := Dequeued(s.queues, d).0)
    case DoTryDequeue(d) => s.(queues := TryDequeued(s.queues, d).0)
    case DoCancel(d, id, io) => Cancel(s, d, id, io).0
    case DoClose => s.(queues := AllClosed(s.queues))
  }

  function ApplyAll(s: Sys, calls: seq<Call>): Sys
    decreases |calls|
  {
    if calls == [] then s else ApplyAll(Apply(s, calls[0]), calls[1..])
  }

  function Start(capacity: int): Sys {
    Sys(Queues(map[], if capacity <= 0 then 100 else capacity, false), map[])
  }

  ghost predicate WithinCapacity(s: Sys) {
    forall d {:trigger s.queues.At(d)} :: |s.queues.At(d).tasks| <= s.queues.capacity
  }

  /** The only device a call can change, apart from the closed flags that Close sets. */
  predicate Concerns(c: Call, d: string) {
    match c
    case DoEnqueue(t, _, _) => t.Some? && t.value.deviceId == d
    case DoDequeue(d') => d' == d
    case DoTryDequeue(d') => d' == d
    case DoCancel(d', _, _) => d' == d
    case DoClose => false
  }

  /** One call: other devices are untouched, a queue that is closed never grows or reopens,
      and a queue grows by at most one task and never beyond the capacity. */
  lemma {:induction false} CallFrame(s: Sys, c: Call, d: string)
    ensures
      var q, q' := s.queues.At(d), Apply(s, c).queues.At(d);
      && Apply(s, c).queues.capacity == s.queues.capacity
      && (!Concerns(c, d) ==> q'.tasks == q.tasks && (!c.DoClose? ==> q' == q))
      && (!Concerns(c, d) ==> BucketOf(Apply(s, c).store, d) == BucketOf(s.store, d))
      && (q.closed ==> q'.closed && |q'.tasks| <= |q.tasks|)
      && (|q'.tasks| <= |q.tasks| || (|q'.tasks| == |q.tasks| + 1 <= s.queues.capacity))
  {
  }

  lemma {:induction false} RunFrame(s: Sys, calls: seq<Call>, d: string)
    requires WithinCapacity(s)
    ensures WithinCapacity(ApplyAll(s, calls))
    ensures ApplyAll(s, calls).queues.capacity == s.queues.capacity
    ensures (forall c | c in calls :: !Concerns(c, d)) ==>
              ApplyAll(s, calls).queues.At(d).tasks == s.queues.At(d).tasks
              && BucketOf(ApplyAll(s, calls).store, d) == BucketOf(s.store, d)
    ensures s.queues.At(d).closed ==>
              ApplyAll(s, calls).queues.At(d).closed
              && |ApplyAll(s, calls).queues.At(d).tasks| <= |s.queues.At(d).tasks|
    decreases |calls|
  {
    if calls != [] {
      CallFrame(s, calls[0], d);
      var s' := Apply(s, calls[0]);
      forall e ensures |s'.queues.At(e).tasks| <= s'.queues.capacity { CallFrame(s, calls[0], e); }
      RunFrame(s', calls[1..], d);
    }
  }

  /** The capacity bound, for every device and every run of calls. */
  lemma {:induction false} CapacityBound(capacity: int, calls: seq<Call>, d: string)
    ensures |ApplyAll(Start(capacity), calls).queues.At(d).tasks| <= if capacity <= 0 then 100 else capacity
  {
    RunFrame(Start(capacity), calls, d);
  }

  // ------------------------------------------------------------ what the calls answer

  /** Position of the first task with that id. */
  predicate IsFirst(ts: seq<Task>, taskId: string, i: int) {
    0 <= i < |ts| && ts[i].taskId == taskId && forall j | 0 <= j < i :: ts[j].taskId != taskId
  }

  /** The clone that is queued: an empty status becomes PENDING, a zero time becomes now, and
      nothing else changes. */
  predicate Defaulted(t: Task, t': Task, now: int) {
    && t'.status == (if t.status.Unset? then Pending else t.status)
    && t'.receivedAt == (if t.receivedAt == 0 then now else t.receivedAt)
    && t'.(status := t.status, receivedAt := t.receivedAt) == t
  }

  /** When Enqueue succeeds, which error it returns otherwise, and what it leaves. */
  lemma {:induction false} EnqueueAnswers(s: Sys, task: Option<Task>, now: int, io: bool)
    ensures
      var (s', err) := Enqueue(s, task, now, io);
      var invalid := task.None? || task.value.deviceId == "" || task.value.taskId == "";
      && err ==
         (if invalid then Some("TASK_DATA_INVALID")
          else if s.queues.closed || s.queues.At(task.value.deviceId).closed
               || |s.queues.At(task.value.deviceId).tasks| >= s.queues.capacity then Some("QUEUE_FULL")
          else None)
      && (err.Some? ==> s'.store == s.store && forall d: string :: s'.queues.At(d) == s.queues.At(d))
      && (err.None? ==>
            var d, n := task.value.deviceId, |s.queues.At(task.value.deviceId).tasks|;
            var ts := s'.queues.At(d).tasks;
            && |ts| == n + 1 && ts[..n] == s.queues.At(d).tasks && Defaulted(task.value, ts[n], now)
            && !s'.queues.At(d).closed
            && (forall e: string :: e != d ==> s'.queues.At(e) == s.queues.At(e) && BucketOf(s'.store, e) == BucketOf(s.store, e))
            && BucketOf(s'.store, d) ==
               if io then Put(BucketOf(s.store, d), TaskKey(task.value.seqNo), ts[n]) else BucketOf(s.store, d))
  {
  }

  /** When Cancel succeeds, which error it returns otherwise, and what it leaves. */
  lemma {:induction false} CancelAnswers(s: Sys, d: string, taskId: string, io: bool)
    ensures
      var (s', err) := Cancel(s, d, taskId, io);
      var ts := s.queues.At(d).tasks;
      && (err == None <==> exists i :: IsFirst(ts, taskId, i) && ts[i].status == Pending)
      && (err == Some("TASK_CANCEL_FAIL") <==> exists i :: IsFirst(ts, taskId, i) && ts[i].status != Pending)
      && (err == Some("TASK_NOT_FOUND") <==> forall i | 0 <= i < |ts| :: ts[i].taskId != taskId)
      && (err.Some? ==> s' == s)
      && (err.None? ==>
            && (forall i :: IsFirst(ts, taskId, i) ==> s'.queues.At(d).tasks == ts[..i] + ts[i + 1..])
            && s'.queues.At(d).closed == s.queues.At(d).closed
            && (forall e: string :: e != d ==> s'.queues.At(e) == s.queues.At(e) && BucketOf(s'.store, e) == BucketOf(s.store, e))
            && BucketOf(s'.store, d) == if io then Deleted(BucketOf(s.store, d), taskId) else BucketOf(s.store, d))
  {
    var ts := s.queues.At(d).tasks;
    assert FirstTask(ts, taskId) < |ts| ==> IsFirst(ts, taskId, FirstTask(ts, taskId));
    assert forall i :: IsFirst(ts, taskId, i) ==> i == FirstTask(ts, taskId);
    assert Deleted([], taskId) == [];
  }

  /** What a pass of Dequeue and a TryDequeue find: only the first one minds a closed queue. */
  lemma {:induction false} TakeAnswers(q: Queues, d: string)
    ensures
      var (q', r) := Dequeued(q, d);
      var ts := q.At(d).tasks;
      && (q.At(d).closed ==> r.QueueClosed? && q'.At(d) == q.At(d))
      && (!q.At(d).closed && ts == [] ==> r.MustWait? && q'.At(d) == q.At(d))
      && (!q.At(d).closed && ts != [] ==> r == Got(ts[0]) && q'.At(d) == DevQ(ts[1..], false))
    ensures
      var (q', r) := TryDequeued(q, d);
      var ts := q.At(d).tasks;
      && (ts == [] ==> r.None? && q' == q)
      && (ts != [] ==> r == Some(ts[0]) && q'.At(d) == DevQ(ts[1..], q.At(d).closed))
  {
  }

  /** Close closes what it finds and drops nothing. */
  lemma {:induction false} CloseAnswers(q: Queues, d: string)
    ensures
      var q' := AllClosed(q);
      && q'.closed && q'.capacity == q.capacity && (d in q'.devs <==> d in q.devs)
      && q'.At(d).tasks == q.At(d).tasks && q'.At(d).closed == (d in q.devs)
  {
  }

  /** Recovery into any queues: each found device's tasks, in ascending order, behind those that
      wait, until the capacity is reached; a closed queue takes none. */
  lemma {:induction false} RestoreAnswers(q: Queues, found: map<string, seq<Task>>, d: string)
    ensures
      var q' := RestoredAll(q, found);
      var ts, n := q.At(d).tasks, |q'.At(d).tasks| - |q.At(d).tasks|;
      && q'.At(d).closed == q.At(d).closed && q'.closed == q.closed
      && (d !in found ==> q'.At(d) == q.At(d))
      && (d in found ==>
            && 0 <= n <= |SortBySeqNo(found[d])| && q'.At(d).tasks == ts + SortBySeqNo(found[d])[..n]
            && (q.At(d).closed ==> n == 0)
            && (n > 0 ==> |ts| + n <= q.capacity)
            && (!q.At(d).closed && n < |SortBySeqNo(found[d])| ==> |ts| + n >= q.capacity))
  {
    hide SortBySeqNo;
  }

  // -------------------------------------------------------------- first in, first out

  /** A run with its history for one device: what was taken from its queue, and its line, the
      accepted tasks in order without those cancelled while they waited. */
  datatype Ledger = Ledger(sys: Sys, taken: seq<Task>, line: seq<Task>)

  function Noted(l: Ledger, c: Call, d: string): Ledger {
    var s' := Apply(l.sys, c);
    match c
    case DoEnqueue(t, now, io) =>
      Ledger(s', l.taken,
             if Enqueue(l.sys, t, now, io).1.None? && t.value.deviceId == d then l.line + [Filled(t.value, now)] else l.line)
    case DoDequeue(d') =>
      var got := Dequeued(l.sys.queues, d').1;
      Ledger(s', if d' == d && got.Got? then l.taken + [got.task] else l.taken, l.line)
    case DoTryDequeue(d') =>
      var got := TryDequeued(l.sys.queues, d').1;
      Ledger(s', if d' == d && got.Some? then l.taken + [got.value] else l.taken, l.line)
    case DoCancel(d', id, io) =>
      Ledger(s', l.taken,
             if d' == d && Cancel(l.sys, d, id, io).1.None? then LeavesLine(l.line, |l.taken|, id) else l.line)
    case DoClose => Ledger(s', l.taken, l.line)
  }

  /** The first task with that id behind the first `n` leaves. */
  function LeavesLine(line: seq<Task>, n: nat, taskId: string): seq<Task> {
    if n > |line| then line
    else
      var waiting := line[n..];
      var i := FirstTask(waiting, taskId);
      line[..n] + if i < |waiting| then waiting[..i] + waiting[i + 1..] else waiting
  }

  function NotedAll(l: Ledger, calls: seq<Call>, d: string): Ledger
    decreases |calls|
  {
    if calls == [] then l else NotedAll(Noted(l, calls[0], d), calls[1..], d)
  }

  ghost predicate Lined(l: Ledger, d: string) {
    l.line == l.taken + l.sys.queues.At(d).tasks
  }

  lemma {:induction false} EnqueueLined(l: Ledger, c: Call, d: string)
    requires Lined(l, d) && c.DoEnqueue? && Concerns(c, d)
    ensures Lined(Noted(l, c, d), d)
  {
    var ts := l.sys.queues.At(d).tasks;
    var t := Filled(c.task.value, c.now);
    assert l.taken + (ts + [t]) == (l.taken + ts) + [t];
  }

  lemma {:induction false} CancelLined(l: Ledger, c: Call, d: string)
    requires Lined(l, d) && c.DoCancel? && Concerns(c, d)
    ensures Lined(Noted(l, c, d), d)
  {
    var ts := l.sys.queues.At(d).tasks;
    assert l.line[|l.taken|..] == ts && l.line[..|l.taken|] == l.taken;
  }

  lemma {:induction false} TakeLined(l: Ledger, c: Call, d: string)
    requires Lined(l, d) && (c.DoDequeue? || c.DoTryDequeue?) && Concerns(c, d)
    ensures Lined(Noted(l, c, d), d)
  {
    var ts := l.sys.queues.At(d).tasks;
    if ts != [] {
      assert l.taken + ts == (l.taken + [ts[0]]) + ts[1..];
    }
  }

  lemma {:induction false} CallLined(l: Ledger, c: Call, d: string)
    requires Lined(l, d)
    ensures Lined(Noted(l, c, d), d)
  {
    if !Concerns(c, d) {
      CallFrame(l.sys, c, d);
    } else {
      match c
      case DoEnqueue(_, _, _) => EnqueueLined(l, c, d);
      case DoCancel(_, _, _) => CancelLined(l, c, d);
      case _ => TakeLined(l, c, d);
    }
  }

  /** Over every run of calls a device's tasks leave its queue in the order of acceptance, each
      once: what was taken, followed by what still waits, is its line. */
  lemma {:induction false} FirstInFirstOut(capacity: int, calls: seq<Call>, d: string)
    ensures
      var l := NotedAll(Ledger(Start(capacity), [], []), calls, d);
      l.line == l.taken + l.sys.queues.At(d).tasks && l.sys == ApplyAll(Start(capacity), calls)
  {
    RunLined(Ledger(Start(capacity), [], []), calls, d);
  }

  lemma {:induction false} RunLined(l: Ledger, calls: seq<Call>, d: string)
    requires Lined(l, d)
    ensures Lined(NotedAll(l, calls, d), d) && NotedAll(l, calls, d).sys == ApplyAll(l.sys, calls)
    decreases |calls|
  {
    if calls != [] {
      CallLined(l, calls[0], d);
      RunLined(Noted(l, calls[0], d), calls[1..], d);
    }
  }

  // ----------------------------------------------------------- store agreement

  /** A run with its history: per device, the multiset of accepted tasks minus the
      cancelled ones. */
  datatype Traced = Traced(sys: Sys, live: map<string, multiset<Task>>) {
    function Live(d: string): multiset<Task> { if d in live then live[d] else multiset{} }
  }

  function Track(x: Traced, c: Call): Traced {
    var s' := Apply(x.sys, c);
    match c
    case DoEnqueue(t, now, io) =>
      if Enqueue(x.sys, t, now, io).1.None? then
        var d := t.value.deviceId;
        Traced(s', x.live[d := x.Live(d) + multiset{Filled(t.value, now)}])
      else Traced(s', x.live)
    case DoCancel(d, id, io) =>
      if Cancel(x.sys, d, id, io).1.None? then
        var ts := x.sys.queues.At(d).tasks;
        Traced(s', x.live[d := x.Live(d) - multiset{ts[FirstTask(ts, id)]}])
      else Traced(s', x.live)
    case _ => Traced(s', x.live)
  }

  /** The store holds exactly the live tasks of device `d`. */
  ghost predicate Agrees(x: Traced, d: string) {
    multiset(TasksOf(BucketOf(x.sys.store, d))) == x.Live(d)
  }

  lemma {:induction false} TasksOfSplit(a: Bucket, r: Record, b: Bucket)
    ensures multiset(TasksOf(a + [r] + b)) == multiset(TasksOf(a + b)) + multiset{r.task}
  {
    assert TasksOf(a + [r] + b) == TasksOf(a) + [r.task] + TasksOf(b);
    assert TasksOf(a + b) == TasksOf(a) + TasksOf(b);
  }

  lemma {:induction false} PutNewTasks(b: Bucket, k: Key, t: Task)
    requires Sorted(b) && !HasKey(b, k)
    ensures multiset(TasksOf(Put(b, k, t))) == multiset(TasksOf(b)) + multiset{t}
  {
    var i := PutNew(b, k, t);
    TasksOfSplit(b[..i], Record(k, t), b[i..]);
    assert b == b[..i] + b[i..];
  }

  lemma {:induction false} DeletedTasks(b: Bucket, taskId: string)
    requires FirstRecord(b, taskId) < |b|
    ensures multiset(TasksOf(b)) == multiset(TasksOf(Deleted(b, taskId))) + multiset{b[FirstRecord(b, taskId)].task}
  {
    var i := FirstRecord(b, taskId);
    TasksOfSplit(b[..i], b[i], b[i + 1..]);
    assert b == b[..i] + [b[i]] + b[i + 1..];
  }

  /** An accepted task keeps the store in agreement exactly when no live task of the device
      has its sequence number: otherwise the new record replaces the older one. */
  lemma {:induction false} EnqueueAgreesIff(x: Traced, t: Task, now: int)
    requires var d := t.deviceId;
      Agrees(x, d) && WellKeyed(BucketOf(x.sys.store, d), d)
    requires Enqueue(x.sys, Some(t), now, true).1.None?
    ensures Agrees(Track(x, DoEnqueue(Some(t), now, true)), t.deviceId)
       <==> forall a | a in x.Live(t.deviceId) :: a.seqNo != t.seqNo
  {
    var d := t.deviceId;
    var b, k, t' := BucketOf(x.sys.store, d), TaskKey(t.seqNo), Filled(t, now);
    var x' := Track(x, DoEnqueue(Some(t), now, true));
    EnqueueEffect(x, t, now);
    if HasKey(b, k) {
      var i :| 0 <= i < |b| && b[i].key == k;
      PutExisting(b, i, t');
      TaskKeyOrder(b[i].task.seqNo, t.seqNo);
      assert TasksOf(b)[i] in multiset(TasksOf(b));
      assert |multiset(TasksOf(Put(b, k, t')))| == |TasksOf(b)| < |x'.Live(d)|;
    } else {
      PutNewTasks(b, k, t');
      forall a | a in x.Live(d) ensures a.seqNo != t.seqNo {
        assert a in TasksOf(b);
        var i :| 0 <= i < |b| && b[i].task == a;
        TaskKeyOrder(a.seqNo, t.seqNo);
      }
    }
  }

  /** The cursor scan finds the record of `t` exactly when every other live task with that id
      has a larger number, as numbers are ordered in the store. */
  predicate ScannedFirst(live: multiset<Task>, t: Task) {
    forall a | a in live && a.taskId == t.taskId && a != t :: Uint64(t.seqNo) < Uint64(a.seqNo)
  }

  lemma {:induction false} ScanFinds(b: Bucket, d: string, t: Task)
    requires WellKeyed(b, d) && t in TasksOf(b)
    ensures FirstRecord(b, t.taskId) < |b|
    ensures b[FirstRecord(b, t.taskId)].task == t <==> ScannedFirst(multiset(TasksOf(b)), t)
  {
    var k := FirstRecord(b, t.taskId);
    var v :| 0 <= v < |b| && b[v].task == t;
    assert k <= v;
    if b[k].task == t {
      forall a | a in multiset(TasksOf(b)) && a.taskId == t.taskId && a != t ensures Uint64(t.seqNo) < Uint64(a.seqNo) {
        assert a in TasksOf(b);
        var j :| 0 <= j < |b| && b[j].task == a;
        EarlierIsSmaller(b, d, k, j);
      }
    } else {
      EarlierIsSmaller(b, d, k, v);
      assert TasksOf(b)[k] in multiset(TasksOf(b));
    }
  }

  lemma {:induction false} EarlierIsSmaller(b: Bucket, d: string, i: nat, j: nat)
    requires WellKeyed(b, d) && i < j < |b|
    ensures Uint64(b[i].task.seqNo) < Uint64(b[j].task.seqNo)
  {
    TaskKeyOrder(b[i].task.seqNo, b[j].task.seqNo);
  }

  /** A successful cancel keeps the store in agreement exactly when every other live task of the
      device with the cancelled task's id has a larger number. */
  lemma {:induction false} CancelAgreesIff(x: Traced, d: string, taskId: string)
    requires Agrees(x, d) && WellKeyed(BucketOf(x.sys.store, d), d) && Cancel(x.sys, d, taskId, true).1.None?
    requires x.sys.queues.At(d).tasks[FirstTask(x.sys.queues.At(d).tasks, taskId)] in x.Live(d)
    ensures
      var ts := x.sys.queues.At(d).tasks;
      Agrees(Track(x, DoCancel(d, taskId, true)), d) <==> ScannedFirst(x.Live(d), ts[FirstTask(ts, taskId)])
  {
    var ts, b := x.sys.queues.At(d).tasks, BucketOf(x.sys.store, d);
    CancelEffect(x, d, taskId);
    var victim := ts[FirstTask(ts, taskId)];
    assert victim in TasksOf(b) by { assert victim in multiset(TasksOf(b)); }
    ScanFinds(b, d, victim);
    DeletedAgreesIff(b, taskId, victim);
  }

  lemma {:induction false} DeletedAgreesIff(b: Bucket, taskId: string, victim: Task)
    requires victim in TasksOf(b) && FirstRecord(b, taskId) < |b|
    ensures
      multiset(TasksOf(Deleted(b, taskId))) == multiset(TasksOf(b)) - multiset{victim}
      <==> b[FirstRecord(b, taskId)].task == victim
  {
    DeletedTasks(b, taskId);
    var m, r := multiset(TasksOf(b)), b[FirstRecord(b, taskId)].task;
    assert multiset(TasksOf(Deleted(b, taskId))) == m - multiset{r};
    assert r != victim ==> (m - multiset{r})[r] == m[r] - 1 && (m - multiset{victim})[r] == m[r];
  }

  /** A device's queue, bucket and live tasks match: the bucket holds the live tasks, each
      under its own key and with ids of their own, and queued tasks are live. */
  ghost predicate Matches(queue: seq<Task>, b: Bucket, live: multiset<Task>, d: string) {
    multiset(TasksOf(b)) == live && WellKeyed(b, d) && multiset(queue) <= live && DistinctIds(b)
  }

  ghost predicate DistinctIds(b: Bucket) {
    forall i, j | 0 <= i < j < |b| :: b[i].task.taskId != b[j].task.taskId
  }

  ghost predicate Consistent(x: Traced, d: string) {
    Matches(x.sys.queues.At(d).tasks, BucketOf(x.sys.store, d), x.Live(d), d)
  }

  /** No live task shares the sequence number or the id of `t`. */
  ghost predicate Fresh(live: multiset<Task>, t: Task) {
    forall a | a in live :: a.seqNo != t.seqNo && a.taskId != t.taskId
  }

  /** The callers' side: storage works, and a submitted task shares neither its sequence
      number nor its id with a live task of the same device. */
  ghost predicate Proper(x: Traced, c: Call) {
    match c
    case DoEnqueue(t, now, io) => io && (t.Some? ==> Fresh(x.Live(t.value.deviceId), t.value))
    case DoCancel(_, _, io) => io
    case _ => true
  }

  lemma {:induction false} MatchesPut(queue: seq<Task>, b: Bucket, live: multiset<Task>, d: string, t: Task)
    requires Matches(queue, b, live, d) && Fresh(live, t) && t.deviceId == d
    ensures Matches(queue + [t], Put(b, TaskKey(t.seqNo), t), live + multiset{t}, d)
  {
    var k := TaskKey(t.seqNo);
    forall i | 0 <= i < |b| ensures b[i].key != k && b[i].task.taskId != t.taskId {
      assert TasksOf(b)[i] in multiset(TasksOf(b));
      TaskKeyOrder(b[i].task.seqNo, t.seqNo);
    }
    SaveKeepsKeys(b, d, t);
    PutNewTasks(b, k, t);
    PutDistinct(b, k, t);
    assert multiset(queue + [t]) == multiset(queue) + multiset{t};
  }

  lemma {:induction false} PutDistinct(b: Bucket, k: Key, t: Task)
    requires DistinctIds(b) && Sorted(b) && !HasKey(b, k)
    requires forall i | 0 <= i < |b| :: b[i].task.taskId != t.taskId
    ensures DistinctIds(Put(b, k, t))
  {
    var n := PutNew(b, k, t);
    var c := Put(b, k, t);
    forall i, j | 0 <= i < j < |c| ensures c[i].task.taskId != c[j].task.taskId {
      assert i != n ==> c[i] == b[if i < n then i else i - 1];
      assert j != n ==> c[j] == b[if j < n then j else j - 1];
    }
  }

  /** With distinct ids the cursor scan finds the record of the very task it is after. */
  lemma {:induction false} FirstRecordOf(b: Bucket, t: Task)
    requires DistinctIds(b) && t in multiset(TasksOf(b))
    ensures FirstRecord(b, t.taskId) < |b| && b[FirstRecord(b, t.taskId)].task == t
  {
  }

  lemma {:induction false} RemoveAt(queue: seq<Task>, i: nat)
    requires i < |queue|
    ensures multiset(queue) == multiset(queue[..i] + queue[i + 1..]) + multiset{queue[i]}
  {
    assert queue == queue[..i] + [queue[i]] + queue[i + 1..];
  }

  lemma {:induction false} MatchesDelete(queue: seq<Task>, b: Bucket, live: multiset<Task>, d: string, i: nat)
    requires Matches(queue, b, live, d) && i < |queue|
    ensures Matches(queue[..i] + queue[i + 1..], Deleted(b, queue[i].taskId), live - multiset{queue[i]}, d)
  {
    RemoveAt(queue, i);
    assert queue[i] in multiset(TasksOf(b));
    FirstRecordOf(b, queue[i]);
    DeletedTasks(b, queue[i].taskId);
    DeleteKeepsKeys(b, d, queue[i].taskId);
    DeleteDistinct(b, queue[i].taskId);
  }

  lemma {:induction false} DeleteDistinct(b: Bucket, taskId: string)
    requires DistinctIds(b)
    ensures DistinctIds(Deleted(b, taskId))
  {
  }

  lemma {:induction false} MatchesPop(queue: seq<Task>, b: Bucket, live: multiset<Task>, d: string)
    requires Matches(queue, b, live, d) && queue != []
    ensures Matches(queue[1..], b, live, d)
  {
    assert queue == [queue[0]] + queue[1..];
  }

  /** The three things `Consistent` speaks about, after a tracked call. */
  predicate Leaves(x: Traced, d: string, queue: seq<Task>, b: Bucket, live: multiset<Task>) {
    x.sys.queues.At(d).tasks == queue && BucketOf(x.sys.store, d) == b && x.Live(d) == live
  }

  lemma {:induction false} EnqueueEffect(x: Traced, t: Task, now: int)
    ensures
      var d := t.deviceId;
      var ts, b, live := x.sys.queues.At(d).tasks, BucketOf(x.sys.store, d), x.Live(d);
      var x' := Track(x, DoEnqueue(Some(t), now, true));
      if Enqueue(x.sys, Some(t), now, true).1.None? then
        var t' := Filled(t, now);
        Leaves(x', d, ts + [t'], Put(b, TaskKey(t.seqNo), t'), live + multiset{t'})
      else Leaves(x', d, ts, b, live)
  {
  }

  lemma {:induction false} CancelEffect(x: Traced, d: string, taskId: string)
    ensures
      var ts, b, live := x.sys.queues.At(d).tasks, BucketOf(x.sys.store, d), x.Live(d);
      var i := FirstTask(ts, taskId);
      var x' := Track(x, DoCancel(d, taskId, true));
      if Cancel(x.sys, d, taskId, true).1.None? then
        i < |ts| && ts[i].taskId == taskId
        && Leaves(x', d, ts[..i] + ts[i + 1..], Deleted(b, taskId), live - multiset{ts[i]})
      else Leaves(x', d, ts, b, live)
  {
  }

  lemma {:induction false} LeavesConsistent(x: Traced, d: string, queue: seq<Task>, b: Bucket, live: multiset<Task>)
    requires Leaves(x, d, queue, b, live) && Matches(queue, b, live, d)
    ensures Consistent(x, d)
  {
  }

  lemma {:induction false} EnqueueConsistent(x: Traced, t: Task, now: int)
    requires Consistent(x, t.deviceId) && Fresh(x.Live(t.deviceId), t)
    ensures Consistent(Track(x, DoEnqueue(Some(t), now, true)), t.deviceId)
  {
    var d := t.deviceId;
    EnqueueEffect(x, t, now);
    MatchesPut(x.sys.queues.At(d).tasks, BucketOf(x.sys.store, d), x.Live(d), d, Filled(t, now));
  }

  lemma {:induction false} CancelConsistent(x: Traced, d: string, taskId: string)
    requires Consistent(x, d)
    ensures Consistent(Track(x, DoCancel(d, taskId, true)), d)
  {
    var ts, b, live := x.sys.queues.At(d).tasks, BucketOf(x.sys.store, d), x.Live(d);
    var i, x' := FirstTask(ts, taskId), Track(x, DoCancel(d, taskId, true));
    CancelEffect(x, d, taskId);
    if Cancel(x.sys, d, taskId, true).1.None? {
      MatchesDelete(ts, b, live, d, i);
      LeavesConsistent(x', d, ts[..i] + ts[i + 1..], Deleted(b, taskId), live - multiset{ts[i]});
    } else {
      LeavesConsistent(x', d, ts, b, live);
    }
  }

  lemma {:induction false} TakeConsistent(x: Traced, d: string)
    requires Consistent(x, d)
    ensures Consistent(Track(x, DoDequeue(d)), d) && Consistent(Track(x, DoTryDequeue(d)), d)
  {
    var ts := x.sys.queues.At(d).tasks;
    if ts != [] {
      MatchesPop(ts, BucketOf(x.sys.store, d), x.Live(d), d);
    }
  }

  lemma TrackElsewhere(x: Traced, c: Call, d: string)
    requires !Concerns(c, d)
    ensures Track(x, c).Live(d) == x.Live(d) && Track(x, c).sys == Apply(x.sys, c)
  {
    hide Apply, Filled, Cancel, FirstTask;
  }

  lemma {:induction false} ElsewhereConsistent(x: Traced, c: Call, d: string)
    requires Consistent(x, d) && !Concerns(c, d)
    ensures Consistent(Track(x, c), d)
  {
    hide Matches, Filled, Enqueue, Cancel, FirstTask;
    CallFrame(x.sys, c, d);
    TrackElsewhere(x, c, d);
  }

  lemma {:induction false} CallConsistent(x: Traced, c: Call, d: string)
    requires Consistent(x, d) && Proper(x, c)
    ensures Consistent(Track(x, c), d)
  {
    if !Concerns(c, d) {
      ElsewhereConsistent(x, c, d);
    } else {
      match c
      case DoEnqueue(t, now, _) => EnqueueConsistent(x, t.value, now);
      case DoCancel(_, id, _) => CancelConsistent(x, d, id);
      case _ => TakeConsistent(x, d);
    }
  }

  function TrackAll(x: Traced, calls: seq<Call>): Traced
    decreases |calls|
  {
    if calls == [] then x else TrackAll(Track(x, calls[0]), calls[1..])
  }

  ghost predicate AllProper(x: Traced, calls: seq<Call>)
    decreases |calls|
  {
    calls == [] || (Proper(x, calls[0]) && AllProper(Track(x, calls[0]), calls[1..]))
  }

  lemma {:induction false} RunConsistent(x: Traced, calls: seq<Call>, d: string)
    requires Consistent(x, d) && AllProper(x, calls)
    ensures Consistent(TrackAll(x, calls), d)
    decreases |calls|
  {
    if calls != [] {
      CallConsistent(x, calls[0], d);
      RunConsistent(Track(x, calls[0]), calls[1..], d);
    }
  }

  /** After every run of atomic calls with working storage and distinct numbers and ids, the
      store holds for each device exactly the accepted tasks minus the cancelled ones,
      dequeued or not. */
  lemma {:induction false} StoreAgreement(capacity: int, calls: seq<Call>, d: string)
    requires AllProper(Traced(Start(capacity), map[]), calls)
    ensures
      var x := TrackAll(Traced(Start(capacity), map[]), calls);
      multiset(TasksOf(BucketOf(x.sys.store, d))) == x.Live(d) && WellKeyed(BucketOf(x.sys.store, d), d)
  {
    var x := Traced(Start(capacity), map[]);
    assert TasksOf(BucketOf(x.sys.store, d)) == [];
    RunConsistent(x, calls, d);
  }
}

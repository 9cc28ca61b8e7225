/** One device's waiting tasks and bucket, with the save that Enqueue makes after it has released
    the lock as a step of its own. The save stores the object that is already in the queue, with
    whatever a worker has made of it by then. A cancel erases the record while it holds the lock. */
module StoreRaces {
  import opened Tasks
  import opened Store
  import Recovery

  /** Tasks by their ids; the order in the queue is not the subject here. */
  datatype State = State(
    waiting: set<string>,
    objects: map<string, Task>,  // every task ever accepted, as it is now
    saving: set<string>,         // accepted, save still to come
    bucket: Bucket,
    saved: map<string, Task>,    // history: what each save has stored
    cancelled: set<string>,      // history
    unsaved: set<string>)        // history: cancelled while the save was still to come

  const INITIAL := State({}, map[], {}, [], map[], {}, {})

  datatype Step =
    | Append(task: Task)       // Enqueue's locked section
    | Save(id: string)         // and its save
    | Cancel(id: string)
    | Take(id: string)         // Dequeue or TryDequeue
    | Work(task: Task)         // a worker has changed fields of a task that was taken

  /** Still the same task for the store. */
  predicate SameKey(a: Task, b: Task) {
    a.taskId == b.taskId && a.seqNo == b.seqNo && a.deviceId == b.deviceId
  }

  /** Tasks of device `d` with numbers and ids of their own; storage works. */
  predicate Enabled(s: State, step: Step, d: string) {
    match step
    case Append(t) =>
      && t.deviceId == d && t.taskId !in s.objects
      && forall id :: id in s.objects ==> s.objects[id].seqNo != t.seqNo
    case Save(id) => id in s.saving && id in s.objects
    case Cancel(id) => id in s.waiting && id in s.objects && s.objects[id].status.Pending?
    case Take(id) => id in s.waiting
    case Work(t) =>
      && t.taskId in s.objects && t.taskId !in s.waiting && t.taskId !in s.cancelled
      && SameKey(s.objects[t.taskId], t)
  }

  function Next(s: State, step: Step, d: string): State
    requires Enabled(s, step, d)
  {
    match step
    case Append(t) =>
      var id := t.taskId;
      s.(waiting := s.waiting + {id}, objects := s.objects[id := t], saving := s.saving + {id})
    case Save(id) =>
      var t := s.objects[id];
      s.(saving := s.saving - {id}, bucket := Put(s.bucket, TaskKey(t.seqNo), t), saved := s.saved[id := t])
    case Cancel(id) =>
      s.(waiting := s.waiting - {id}, bucket := Deleted(s.bucket, id), cancelled := s.cancelled + {id},
         unsaved := if id in s.saving then s.unsaved + {id} else s.unsaved)
    case Take(id) => s.(waiting := s.waiting - {id})
    case Work(t) => s.(objects := s.objects[t.taskId := t])
  }

  predicate IsRun(s: State, steps: seq<Step>, d: string)
    decreases |steps|
  {
    steps == [] || (Enabled(s, steps[0], d) && IsRun(Next(s, steps[0], d), steps[1..], d))
  }

  function Run(s: State, steps: seq<Step>, d: string): State
    requires IsRun(s, steps, d)
    decreases |steps|
  {
    if steps == [] then s else Run(Next(s, steps[0], d), steps[1..], d)
  }

  // ---------------------------------------------------------------- the invariant

  /** There is a record, with this id. */
  predicate HasRecord(b: Bucket, id: string) {
    exists i :: 0 <= i < |b| && b[i].task.taskId == id
  }

  /** Saved, and not cancelled after that. */
  predicate Kept(s: State, id: string) {
    id in s.saved && (id in s.cancelled ==> id in s.unsaved)
  }

  /** The records are those of the tasks kept, each as it was when it was saved. */
  ghost predicate Recorded(s: State) {
    && (forall i :: 0 <= i < |s.bucket| ==>
          var t := s.bucket[i].task; Kept(s, t.taskId) && s.saved[t.taskId] == t)
    && (forall id :: Kept(s, id) ==> HasRecord(s.bucket, id))
  }

  /** What the histories keep, whatever the bucket holds. */
  ghost predicate Sound(s: State, d: string) {
    && (forall id :: id in s.objects ==> s.objects[id].taskId == id && s.objects[id].deviceId == d)
    && (forall i, j :: i in s.objects && j in s.objects && i != j ==> s.objects[i].seqNo != s.objects[j].seqNo)
    && s.saving !! s.saved.Keys && s.saving + s.saved.Keys == s.objects.Keys
    && (forall id :: id in s.saved ==> SameKey(s.saved[id], s.objects[id]))
    && s.waiting <= s.objects.Keys && s.waiting !! s.cancelled
    && s.unsaved <= s.cancelled <= s.objects.Keys && s.saving * s.cancelled <= s.unsaved
  }

  ghost predicate Inv(s: State, d: string) {
    Sound(s, d) && WellKeyed(s.bucket, d) && Recorded(s)
  }

  ghost predicate DistinctIds(b: Bucket) {
    forall i, j :: 0 <= i < j < |b| ==> b[i].task.taskId != b[j].task.taskId
  }

  lemma {:induction false} RecordsDistinct(s: State, d: string)
    requires Inv(s, d)
    ensures DistinctIds(s.bucket)
  {
    var b := s.bucket;
    forall i, j | 0 <= i < j < |b| ensures b[i].task.taskId != b[j].task.taskId {
      assert s.saved[b[i].task.taskId] == b[i].task && s.saved[b[j].task.taskId] == b[j].task;
      LexTotal(b[i].key, b[i].key);
      assert Lex(b[i].key, b[j].key);
    }
  }

  /** Inserting and removing a record, seen by position. */
  lemma {:induction false} Inserted(b: Bucket, n: nat, r: Record)
    requires n <= |b|
    ensures
      var c := b[..n] + [r] + b[n..];
      && (forall i :: 0 <= i < |c| ==> c[i] == r || exists j :: 0 <= j < |b| && b[j] == c[i])
      && (forall id :: HasRecord(c, id) <==> HasRecord(b, id) || id == r.task.taskId)
  {
    var c := b[..n] + [r] + b[n..];
    assert c[n] == r;
    forall i | 0 <= i < |c| && i != n ensures c[i] == b[if i < n then i else i - 1] {
    }
    forall id | HasRecord(b, id) ensures HasRecord(c, id) {
      var j :| 0 <= j < |b| && b[j].task.taskId == id;
      assert c[if j < n then j else j + 1] == b[j];
    }
  }

  lemma {:induction false} RemovedAt(b: Bucket, n: nat)
    requires DistinctIds(b) && n < |b|
    ensures
      var c, id := b[..n] + b[n + 1..], b[n].task.taskId;
      && (forall i :: 0 <= i < |c| ==> c[i].task.taskId != id && exists j :: 0 <= j < |b| && b[j] == c[i])
      && (forall x :: HasRecord(c, x) <==> HasRecord(b, x) && x != id)
  {
    var c := b[..n] + b[n + 1..];
    forall i | 0 <= i < |c| ensures c[i] == b[if i < n then i else i + 1] {
    }
    forall x | HasRecord(b, x) && x != b[n].task.taskId ensures HasRecord(c, x) {
      var j :| 0 <= j < |b| && b[j].task.taskId == x;
      assert c[if j < n then j else j - 1] == b[j];
    }
  }

  lemma {:induction false} Removed(b: Bucket, id: string)
    requires DistinctIds(b)
    ensures
      var c := Deleted(b, id);
      && (forall i :: 0 <= i < |c| ==> c[i].task.taskId != id && exists j :: 0 <= j < |b| && b[j] == c[i])
      && (forall x :: HasRecord(c, x) <==> HasRecord(b, x) && x != id)
  {
    var n := FirstRecord(b, id);
    if n < |b| {
      RemovedAt(b, n);
    } else {
      assert !HasRecord(b, id);
    }
  }

  lemma {:induction false} AppendKeepsSound(s: State, t: Task, d: string)
    requires Sound(s, d) && Enabled(s, Append(t), d)
    ensures Sound(Next(s, Append(t), d), d)
  {
  }

  lemma {:induction false} SaveKeepsSound(s: State, id: string, d: string)
    requires Sound(s, d) && Enabled(s, Save(id), d)
    ensures Sound(Next(s, Save(id), d), d)
  {
  }

  lemma {:induction false} CancelKeepsSound(s: State, id: string, d: string)
    requires Sound(s, d) && Enabled(s, Cancel(id), d)
    ensures Sound(Next(s, Cancel(id), d), d)
  {
  }

  lemma {:induction false} WorkKeepsSound(s: State, t: Task, d: string)
    requires Sound(s, d) && Enabled(s, Work(t), d)
    ensures Sound(Next(s, Work(t), d), d)
  {
    assert s.objects[t.taskId := t].Keys == s.objects.Keys;
  }

  lemma {:induction false} StepKeepsSound(s: State, step: Step, d: string)
    requires Sound(s, d) && Enabled(s, step, d)
    ensures Sound(Next(s, step, d), d)
  {
    match step
    case Append(t) => AppendKeepsSound(s, t, d);
    case Save(id) => SaveKeepsSound(s, id, d);
    case Cancel(id) => CancelKeepsSound(s, id, d);
    case Take(_) =>
    case Work(t) => WorkKeepsSound(s, t, d);
  }

  /** Every record of `c` but that of `t` was in `b`. */
  ghost predicate AddsOnly(b: Bucket, c: Bucket, t: Task) {
    && (forall i :: 0 <= i < |c| ==> c[i].task == t || exists j :: 0 <= j < |b| && b[j] == c[i])
    && (forall id :: HasRecord(c, id) <==> HasRecord(b, id) || id == t.taskId)
  }

  lemma {:induction false} PutAdds(b: Bucket, d: string, t: Task)
    requires WellKeyed(b, d) && t.deviceId == d
    requires forall i :: 0 <= i < |b| ==> b[i].task.seqNo != t.seqNo
    ensures
      var c := Put(b, TaskKey(t.seqNo), t);
      WellKeyed(c, d) && AddsOnly(b, c, t)
  {
    var k := TaskKey(t.seqNo);
    forall i | 0 <= i < |b| ensures b[i].key != k {
      TaskKeyOrder(b[i].task.seqNo, t.seqNo);
    }
    SaveKeepsKeys(b, d, t);
    var n := PutNew(b, k, t);
    Inserted(b, n, Record(k, t));
  }

  lemma {:induction false} RecordedAfterPut(s: State, s': State, t: Task)
    requires Recorded(s) && t.taskId !in s.saved && (t.taskId in s.cancelled ==> t.taskId in s.unsaved)
    requires s'.saved == s.saved[t.taskId := t] && s'.cancelled == s.cancelled && s'.unsaved == s.unsaved
    requires AddsOnly(s.bucket, s'.bucket, t)
    ensures Recorded(s')
  {
    forall x ensures Kept(s', x) <==> Kept(s, x) || x == t.taskId {
    }
    forall i | 0 <= i < |s'.bucket|
      ensures var r := s'.bucket[i].task; Kept(s', r.taskId) && s'.saved[r.taskId] == r
    {
      if s'.bucket[i].task != t {
        var j :| 0 <= j < |s.bucket| && s.bucket[j] == s'.bucket[i];
        assert Kept(s, s.bucket[j].task.taskId);
      }
    }
  }

  lemma {:induction false} SaveKeepsRecords(s: State, id: string, d: string)
    requires Inv(s, d) && Enabled(s, Save(id), d)
    ensures var s' := Next(s, Save(id), d); WellKeyed(s'.bucket, d) && Recorded(s')
  {
    var t := s.objects[id];
    forall i | 0 <= i < |s.bucket| ensures s.bucket[i].task.seqNo != t.seqNo {
      assert Kept(s, s.bucket[i].task.taskId);
    }
    PutAdds(s.bucket, d, t);
    RecordedAfterPut(s, Next(s, Save(id), d), t);
  }

  lemma {:induction false} CancelKeepsRecords(s: State, id: string, d: string)
    requires Inv(s, d) && Enabled(s, Cancel(id), d)
    ensures var s' := Next(s, Cancel(id), d); WellKeyed(s'.bucket, d) && Recorded(s')
  {
    var s' := Next(s, Cancel(id), d);
    RecordsDistinct(s, d);
    DeleteKeepsKeys(s.bucket, d, id);
    Removed(s.bucket, id);
    forall i | 0 <= i < |s'.bucket|
      ensures var r := s'.bucket[i].task; Kept(s', r.taskId) && s'.saved[r.taskId] == r
    {
      var j :| 0 <= j < |s.bucket| && s.bucket[j] == s'.bucket[i];
      assert Kept(s, s.bucket[j].task.taskId);
    }
    forall x | Kept(s', x) ensures HasRecord(s'.bucket, x) {
      assert Kept(s, x) && x != id;
    }
  }

  lemma {:induction false} StepKeepsInv(s: State, step: Step, d: string)
    requires Inv(s, d) && Enabled(s, step, d)
    ensures Inv(Next(s, step, d), d)
  {
    StepKeepsSound(s, step, d);
    match step
    case Save(id) => SaveKeepsRecords(s, id, d);
    case Cancel(id) => CancelKeepsRecords(s, id, d);
    case _ =>
      assert forall id :: Kept(Next(s, step, d), id) <==> Kept(s, id);
  }

  lemma {:induction false} RunKeepsInv(s: State, steps: seq<Step>, d: string)
    requires Inv(s, d) && IsRun(s, steps, d)
    ensures Inv(Run(s, steps, d), d)
    decreases |steps|
  {
    if steps != [] {
      StepKeepsInv(s, steps[0], d);
      RunKeepsInv(Next(s, steps[0], d), steps[1..], d);
    }
  }

  // ------------------------------------------------------------- what is left behind

  /** In every interleaving there is a record for exactly the tasks whose save is done and that
      were not cancelled after it; so a cancelled one has a record if and only if the cancel
      came between its append and its save. */
  lemma {:induction false} LeftBehindIff(steps: seq<Step>, d: string, id: string)
    requires IsRun(INITIAL, steps, d)
    requires var s := Run(INITIAL, steps, d); id in s.cancelled && id !in s.saving
    ensures var s := Run(INITIAL, steps, d); HasRecord(s.bucket, id) <==> id in s.unsaved
  {
    RunKeepsInv(INITIAL, steps, d);
    var s := Run(INITIAL, steps, d);
    assert id in s.objects && id in s.saved;
    assert Kept(s, id) <==> id in s.unsaved;
  }

  /** So with no save outstanding the bucket has records for exactly the accepted tasks that
      were not cancelled if and only if no cancel ever came between an append and its save. */
  lemma {:induction false} AgreesAtRestIff(steps: seq<Step>, d: string)
    requires IsRun(INITIAL, steps, d) && Run(INITIAL, steps, d).saving == {}
    ensures
      var s := Run(INITIAL, steps, d);
      (forall id :: HasRecord(s.bucket, id) <==> id in s.objects && id !in s.cancelled) <==> s.unsaved == {}
  {
    RunKeepsInv(INITIAL, steps, d);
    var s := Run(INITIAL, steps, d);
    forall id ensures HasRecord(s.bucket, id) <==> Kept(s, id) {
    }
    if s.unsaved != {} {
      var id :| id in s.unsaved;
      assert Kept(s, id) && id in s.cancelled;
    }
  }

  // -------------------------------------------------------------- what a restart finds

  /** A restart finds exactly the tasks kept that were RUNNING or RETRYING at the moment of
      their save, whatever they were submitted as and have become since. */
  lemma {:induction false} FindsStatusAtSave(steps: seq<Step>, d: string, t: Task)
    requires IsRun(INITIAL, steps, d)
    ensures
      var s := Run(INITIAL, steps, d);
      t in Found(s.bucket)
      <==> exists id :: Kept(s, id) && NeedsRecover(s.saved[id].status) && t == Recovered(s.saved[id])
  {
    RunKeepsInv(INITIAL, steps, d);
    FindsKept(Run(INITIAL, steps, d), t);
  }

  lemma {:induction false} FindsKept(s: State, t: Task)
    requires Recorded(s)
    ensures
      t in Found(s.bucket)
      <==> exists id :: Kept(s, id) && NeedsRecover(s.saved[id].status) && t == Recovered(s.saved[id])
  {
    Recovery.FoundMembers(s.bucket, t);
    if i :| Recovery.Yields(s.bucket, i, t) {
      assert Kept(s, s.bucket[i].task.taskId);
    }
    if id :| Kept(s, id) && NeedsRecover(s.saved[id].status) && t == Recovered(s.saved[id]) {
      var i :| 0 <= i < |s.bucket| && s.bucket[i].task.taskId == id;
      assert s.bucket[i].task == s.saved[id];
      assert Recovery.Yields(s.bucket, i, t);
    }
  }

  // --------------------------------------------------------------------- concrete runs

  /** It happens: append, cancel, save. */
  lemma {:induction false} LeftBehindReachable(t: Task) returns (steps: seq<Step>)
    requires t.status.Pending?
    ensures IsRun(INITIAL, steps, t.deviceId)
    ensures
      var s := Run(INITIAL, steps, t.deviceId);
      s.waiting == {} && s.saving == {} && t.taskId in s.cancelled && HasRecord(s.bucket, t.taskId)
  {
    var d, id := t.deviceId, t.taskId;
    steps := Extend([], INITIAL, Append(t), d);
    var s1 := Next(INITIAL, Append(t), d);
    steps := Extend(steps, s1, Cancel(id), d);
    var s2 := Next(s1, Cancel(id), d);
    assert s2.bucket == [] && s2.saving == {id} && s2.waiting == {};
    steps := Extend(steps, s2, Save(id), d);
    assert Next(s2, Save(id), d).bucket[0].task == t;
  }

  /** A worker overtakes the save: the record has the status `status`, not the one that the task
      was submitted with. So a restart finds a task submitted as PENDING if it was RUNNING by
      then, and misses one submitted as RUNNING if it had succeeded. */
  lemma {:induction false} SavedAsWorked(t: Task, status: TaskStatus) returns (steps: seq<Step>)
    ensures IsRun(INITIAL, steps, t.deviceId)
    ensures
      var s := Run(INITIAL, steps, t.deviceId);
      s.bucket == [Record(TaskKey(t.seqNo), t.(status := status))]
  {
    var d, id, worked := t.deviceId, t.taskId, t.(status := status);
    steps := Extend([], INITIAL, Append(t), d);
    var s1 := Next(INITIAL, Append(t), d);
    steps := Extend(steps, s1, Take(id), d);
    var s2 := Next(s1, Take(id), d);
    steps := Extend(steps, s2, Work(worked), d);
    var s3 := Next(s2, Work(worked), d);
    assert s3.objects[id] == worked && s3.bucket == [] && id in s3.saving;
    steps := Extend(steps, s3, Save(id), d);
  }

  lemma {:induction false} Extend(steps: seq<Step>, s: State, step: Step, d: string) returns (longer: seq<Step>)
    requires IsRun(INITIAL, steps, d) && Run(INITIAL, steps, d) == s && Enabled(s, step, d)
    ensures IsRun(INITIAL, longer, d) && Run(INITIAL, longer, d) == Next(s, step, d)
  {
    longer := steps + [step];
    RunAppend(INITIAL, steps, step, d);
  }

  lemma {:induction false} RunAppend(s: State, steps: seq<Step>, step: Step, d: string)
    requires IsRun(s, steps, d) && Enabled(Run(s, steps, d), step, d)
    ensures IsRun(s, steps + [step], d) && Run(s, steps + [step], d) == Next(Run(s, steps, d), step, d)
    decreases |steps|
  {
    if steps == [] {
      assert (steps + [step])[0] == step && (steps + [step])[1..] == [];
    } else {
      assert (steps + [step])[1..] == steps[1..] + [step];
      RunAppend(Next(s, steps[0], d), steps[1..], step, d);
    }
  }
}

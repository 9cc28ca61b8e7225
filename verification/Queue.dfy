/** The task queue as it is coded: a map of device queues, each a slice into a backing
    array that is appended to, advanced and shifted in place. */
module Queue {
  import opened Basics
  import opened Tasks
  import opened Store
  import opened SeqNoOrder
  import Spec = QueueSpec

  /** A Go slice: `n` elements of `buf` from `lo` on. `content` is what the slice holds. */
  class DeviceQueue {
    var buf: array<Task>
    var lo: nat
    var n: nat
    var closed: bool
    ghost const device: string
    ghost var content: seq<Task>

    ghost predicate Valid()
      reads this, buf
      ensures Valid() ==> |content| == n
    {
      lo + n <= buf.Length && content == buf[lo..lo + n]
    }

    constructor (ghost device: string)
      ensures Valid() && content == [] && !closed && fresh(buf) && this.device == device
    {
      this.device := device;
      buf := new Task[0];
      lo, n, closed, content := 0, 0, false, [];
    }

    /** closed = true. */
    method Shut()
      requires Valid()
      modifies this
      ensures Valid() && buf == old(buf) && content == old(content) && closed
    {
      closed := true;
    }

    /** append: in place while the array has room behind the slice, else into a new array. */
    method Append(t: Task)
      requires Valid()
      modifies this, buf
      ensures Valid() && content == old(content) + [t] && closed == old(closed)
      ensures buf == old(buf) || fresh(buf)
    {
      if lo + n == buf.Length {
        var wider := new Task[2 * n + 1];
        forall i | 0 <= i < n {
          wider[i] := buf[lo + i];
        }
        buf, lo := wider, 0;
        assert content == buf[..n];
      }
      buf[lo + n] := t;
      n := n + 1;
      content := content + [t];
    }

    /** tasks = tasks[1:]. */
    method Advance() returns (t: Task)
      requires Valid() && n > 0
      modifies this
      ensures Valid() && buf == old(buf) && closed == old(closed)
      ensures t == old(content)[0] && content == old(content)[1..]
    {
      t := buf[lo];
      lo := lo + 1;
      n := n - 1;
      content := content[1..];
    }

    /** The copy inside append(tasks[:i], tasks[i+1:]...): cells from..to move left by one. */
    static method ShiftLeft(a: array<Task>, from: nat, to: nat)
      requires from < to <= a.Length
      modifies a
      ensures forall j | 0 <= j < a.Length :: a[j] == old(a[if from <= j < to - 1 then j + 1 else j])
    {
      var k := from;
      while k + 1 < to
        invariant from <= k < to
        invariant forall j | 0 <= j < a.Length :: a[j] == old(a[if from <= j < k then j + 1 else j])
      {
        a[k] := a[k + 1];
        k := k + 1;
      }
    }

    /** tasks = append(tasks[:i], tasks[i+1:]...). */
    method DeleteAt(i: nat)
      requires Valid() && i < n
      modifies this, buf
      ensures Valid() && buf == old(buf) && closed == old(closed)
      ensures content == old(content)[..i] + old(content)[i + 1..]
    {
      ShiftLeft(buf, lo + i, lo + n);
      n := n - 1;
      ghost var rest := content[..i] + content[i + 1..];
      assert forall j | 0 <= j < n :: rest[j] == buf[lo + j];
      content := rest;
    }

    /** The cancel loop's search. */
    method IndexOf(taskId: string) returns (i: nat)
      requires Valid()
      ensures i == Spec.FirstTask(content, taskId)
    {
      i := 0;
      while i < n
        invariant i <= n
        invariant forall j | 0 <= j < i :: content[j].taskId != taskId
      {
        if buf[lo + i].taskId == taskId {
          break;
        }
        i := i + 1;
      }
      var first := Spec.FirstTask(content, taskId);
      assert i < n ==> content[i].taskId == taskId;
      assert first < |content| ==> content[first].taskId == taskId;
    }
  }

  /** The map of device queues. `view` is what it amounts to, `owner` says whose array is whose. */
  class DeviceQueues {
    var queues: map<string, DeviceQueue>
    const capacity: nat
    var closed: bool
    ghost var view: Spec.Queues
    ghost var owner: map<array<Task>, string>
    ghost var Repr: set<object>

    /** `dq` is the device queue of `d`: its own array, and the content that `devs` gives it. */
    static ghost predicate Holds(owner: map<array<Task>, string>, devs: map<string, Spec.DevQ>,
                                 d: string, dq: DeviceQueue)
      reads dq, dq.buf
    {
      && dq.Valid() && dq.device == d && dq.buf in owner && owner[dq.buf] == d
      && d in devs && devs[d] == Spec.DevQ(dq.content, dq.closed)
    }

    /** Every device has a device queue and an array of its own. */
    ghost predicate Valid()
      reads this, Repr
      ensures Valid() ==> this in Repr
    {
      && this in Repr
      && view.capacity == capacity && view.closed == closed && view.devs.Keys == queues.Keys
      && forall d | d in queues ::
           queues[d] in Repr && queues[d].buf in Repr && Holds(owner, view.devs, d, queues[d])
    }

    /** Device queues other than that of `d` share nothing with it. */
    lemma Apart(d: string)
      requires Valid() && d in queues
      ensures Holds(owner, view.devs, d, queues[d]) && queues[d] in Repr && queues[d].buf in Repr
      ensures forall e | e in queues && e != d :: queues[e] != queues[d] && queues[e].buf != queues[d].buf
    {
      hide DeviceQueue.Valid;
      forall e | e in queues ensures Holds(owner, view.devs, e, queues[e]) {}
    }

    /** Validity after a change confined to the device queue of `d`. */
    twostate lemma OnlyDevice(d: string)
      requires old(Valid()) && queues == old(queues) && closed == old(closed) && d in queues
      requires queues[d].Valid() && queues[d].device == d && queues[d].buf in owner && owner[queues[d].buf] == d
      requires view == old(view).(devs := old(view.devs)[d := Spec.DevQ(queues[d].content, queues[d].closed)])
      requires owner == old(owner) || (fresh(queues[d].buf) && owner == old(owner)[queues[d].buf := d])
      requires forall e | e in queues && e != d :: unchanged(queues[e]) && unchanged(queues[e].buf)
      requires old(Repr) <= Repr && queues[d].buf in Repr
      ensures Valid()
    {
      hide DeviceQueue.Valid;
      forall e | e in queues ensures Holds(owner, view.devs, e, queues[e]) && queues[e] in Repr && queues[e].buf in Repr {
        assert old(Holds(owner, view.devs, e, queues[e]));
      }
    }

    constructor (capacity: int)
      ensures Valid() && fresh(Repr) && view == Spec.Start(capacity).queues
    {
      queues := map[];
      this.capacity := if capacity <= 0 then 100 else capacity;
      closed := false;
      owner := map[];
      view := Spec.Start(capacity).queues;
      Repr := {this};
    }

    method GetOrCreate(d: string) returns (dq: DeviceQueue)
      requires Valid()
      modifies Repr
      ensures Valid() && fresh(Repr - old(Repr)) && view == old(view).Created(d)
      ensures d in queues && queues[d] == dq
      ensures dq.n == |view.At(d).tasks| && dq.closed == view.At(d).closed
    {
      hide DeviceQueue.Valid;
      if d in queues {
        dq := queues[d];
        assert Holds(owner, view.devs, d, dq);
        return;
      }
      dq := new DeviceQueue(d);
      Install(d, dq);
    }

    /** queues[d] = dq, for a new device queue. */
    method Install(d: string, dq: DeviceQueue)
      requires Valid() && d !in queues
      requires dq.Valid() && dq.device == d && dq.content == [] && !dq.closed
      requires forall e | e in queues :: queues[e].buf != dq.buf
      modifies this
      ensures Valid() && view == old(view).Created(d) && queues == old(queues)[d := dq]
      ensures Repr == old(Repr) + {dq, dq.buf}
    {
      hide DeviceQueue.Valid;
      queues := queues[d := dq];
      owner := owner[dq.buf := d];
      view := view.Created(d);
      Repr := Repr + {dq, dq.buf};
    }

    method Enqueue(task: Option<Task>, now: int) returns (err: Option<string>)
      requires Valid()
      modifies Repr
      ensures Valid() && fresh(Repr - old(Repr)) && (view, err) == Spec.Enqueued(old(view), task, now)
    {
      if task.None? {
        return Some(Spec.TASK_DATA_INVALID);
      }
      if task.value.deviceId == "" || task.value.taskId == "" {
        return Some(Spec.TASK_DATA_INVALID);
      }
      if closed {
        return Some(Spec.QUEUE_FULL);
      }
      err := Admit(task.value, now);
    }

    method Admit(task: Task, now: int) returns (err: Option<string>)
      requires Valid()
      modifies Repr
      ensures Valid() && fresh(Repr - old(Repr)) && (view, err) == Spec.Admitted(old(view), task, now)
    {
      var dq := GetOrCreate(task.deviceId);
      if dq.closed || dq.n >= capacity {
        return Some(Spec.QUEUE_FULL);
      }
      var clone := task;
      if clone.status.Unset? {
        clone := clone.(status := Pending);
      }
      if clone.receivedAt == 0 {
        clone := clone.(receivedAt := now);
      }
      AppendTo(task.deviceId, clone);
      return None;
    }

    /** The locked append, shared with recovery. */
    method AppendTo(d: string, t: Task)
      requires Valid() && d in queues
      modifies Repr
      ensures Valid() && fresh(Repr - old(Repr))
      ensures view == old(view).With(d, old(view).At(d).tasks + [t])
    {
      Spec.WithUpdates(view, d, view.At(d).tasks + [t]);
      AppendInMap(d, t);
    }

    method AppendInMap(d: string, t: Task)
      requires Valid() && d in queues
      modifies Repr
      ensures Valid() && fresh(Repr - old(Repr)) && d in old(view).devs
      ensures
        var was := old(view).devs[d];
        view == old(view).(devs := old(view).devs[d := Spec.DevQ(was.tasks + [t], was.closed)])
    {
      hide DeviceQueue.Valid;
      Apart(d);
      queues[d].Append(t);
      if queues[d].buf != old(queues[d].buf) {
        owner := owner[queues[d].buf := d];
        Repr := Repr + {queues[d].buf};
      }
      view := view.(devs := view.devs[d := Spec.DevQ(queues[d].content, queues[d].closed)]);
      OnlyDevice(d);
    }

    /** One pass of Dequeue's loop; MustWait stands for parking on the condition variable. */
    method Dequeue(d: string) returns (r: Spec.Taken)
      requires Valid()
      modifies Repr
      ensures Valid() && fresh(Repr - old(Repr)) && (view, r) == Spec.Dequeued(old(view), d)
    {
      var dq := GetOrCreate(d);
      if dq.closed {
        return Spec.QueueClosed;
      }
      if dq.n > 0 {
        var t := AdvanceOf(d);
        return Spec.Got(t);
      }
      return Spec.MustWait;
    }

    method AdvanceOf(d: string) returns (t: Task)
      requires Valid() && d in queues && view.At(d).tasks != []
      modifies Repr
      ensures Valid() && Repr == old(Repr) && t == old(view).At(d).tasks[0]
      ensures view == old(view).With(d, old(view).At(d).tasks[1..])
    {
      hide DeviceQueue.Valid;
      Spec.WithUpdates(view, d, view.At(d).tasks[1..]);
      Apart(d);
      t := queues[d].Advance();
      view := view.(devs := view.devs[d := Spec.DevQ(queues[d].content, queues[d].closed)]);
      OnlyDevice(d);
    }

    method TryDequeue(d: string) returns (r: Option<Task>)
      requires Valid()
      modifies Repr
      ensures Valid() && Repr == old(Repr) && (view, r) == Spec.TryDequeued(old(view), d)
    {
      if d !in queues {
        return None;
      }
      assert Holds(owner, view.devs, d, queues[d]);
      if queues[d].n == 0 {
        return None;
      }
      var t := AdvanceOf(d);
      return Some(t);
    }

    method Cancel(d: string, taskId: string) returns (err: Option<string>)
      requires Valid()
      modifies Repr
      ensures Valid() && Repr == old(Repr) && (view, err) == Spec.Removed(old(view), d, taskId)
    {
      if d !in queues {
        return Some(Spec.TASK_NOT_FOUND);
      }
      ghost var removed := Spec.Removed(view, d, taskId);
      var i, pending := Find(d, taskId);
      if i == queues[d].n {
        err := Some(Spec.TASK_NOT_FOUND);
      } else if !pending {
        err := Some(Spec.TASK_CANCEL_FAIL);
      } else {
        DeleteFrom(d, i);
        err := None;
      }
      assert (view, err) == removed;
    }

    /** The first task with the given id in the device queue of `d`, and whether it may go. */
    method Find(d: string, taskId: string) returns (i: nat, pending: bool)
      requires Valid() && d in queues
      ensures queues[d].n == |view.At(d).tasks|
      ensures i == Spec.FirstTask(view.At(d).tasks, taskId)
      ensures i < |view.At(d).tasks| ==> pending == view.At(d).tasks[i].status.Pending?
    {
      var dq := queues[d];
      assert Holds(owner, view.devs, d, dq);
      i := dq.IndexOf(taskId);
      pending := i < dq.n && dq.buf[dq.lo + i].status.Pending?;
    }

    method DeleteFrom(d: string, i: nat)
      requires Valid() && d in queues && i < |view.At(d).tasks|
      modifies Repr
      ensures Valid() && Repr == old(Repr) && view == Spec.DroppedAt(old(view), d, i)
    {
      hide DeviceQueue.Valid;
      Spec.WithUpdates(view, d, view.At(d).tasks[..i] + view.At(d).tasks[i + 1..]);
      Apart(d);
      queues[d].DeleteAt(i);
      view := view.(devs := view.devs[d := Spec.DevQ(queues[d].content, queues[d].closed)]);
      OnlyDevice(d);
    }

    method PendingCount(d: string) returns (k: nat)
      requires Valid()
      ensures k == |view.At(d).tasks|
    {
      assert d in queues ==> Holds(owner, view.devs, d, queues[d]);
      k := if d in queues then queues[d].n else 0;
    }

    method ListPending(d: string) returns (ts: seq<Task>)
      requires Valid()
      ensures ts == view.At(d).tasks
    {
      if d !in queues {
        return [];
      }
      var dq := queues[d];
      assert Holds(owner, view.devs, d, dq);
      ts := [];
      var i := 0;
      while i < dq.n
        invariant i <= dq.n && ts == dq.content[..i]
      {
        ts := ts + [dq.buf[dq.lo + i]];
        i := i + 1;
      }
    }

    method Close()
      requires Valid()
      modifies Repr
      ensures Valid() && Repr == old(Repr) && view == Spec.AllClosed(old(view))
    {
      closed := true;
      view := view.(closed := true);
      var rest := queues.Keys;
      assert view.devs == Spec.ClosedExcept(view.devs, rest);
      while rest != {}
        invariant rest <= queues.Keys && Valid() && closed && Repr == old(Repr) && queues == old(queues)
        invariant view == old(view).(closed := true, devs := Spec.ClosedExcept(old(view).devs, rest))
        decreases rest
      {
        var d :| d in rest;
        Spec.CloseNext(old(view).devs, rest, d);
        MarkClosed(d);
        rest := rest - {d};
      }
    }

    method MarkClosed(d: string)
      requires Valid() && d in queues
      modifies Repr
      ensures Valid() && Repr == old(Repr) && queues == old(queues) && closed == old(closed)
      ensures d in old(view).devs
      ensures view == old(view).(devs := old(view).devs[d := old(view).devs[d].(closed := true)])
    {
      hide DeviceQueue.Valid;
      Apart(d);
      queues[d].Shut();
      view := view.(devs := view.devs[d := Spec.DevQ(queues[d].content, true)]);
      OnlyDevice(d);
    }

    // -------------------------------------------------------------- recovery

    /** enqueueRecovered. */
    method Restore(t: Task) returns (err: Option<string>)
      requires Valid()
      modifies Repr
      ensures Valid() && fresh(Repr - old(Repr)) && (view, err) == Spec.Restored(old(view), t)
    {
      var dq := GetOrCreate(t.deviceId);
      if dq.closed || dq.n >= capacity {
        return Some(Spec.QUEUE_FULL);
      }
      AppendTo(t.deviceId, t);
      return None;
    }

    /** Recovery's inner loop over the sorted tasks of one device; refusals are only logged. */
    method RestoreAll(d: string, ts: seq<Task>)
      requires Valid() && forall i | 0 <= i < |ts| :: ts[i].deviceId == d
      modifies Repr
      ensures Valid() && fresh(Repr - old(Repr)) && view == Spec.RestoredUpTo(old(view), d, ts, |ts|)
    {
      var i := 0;
      while i < |ts|
        invariant i <= |ts| && Valid() && fresh(Repr - old(Repr))
        invariant view == Spec.RestoredUpTo(old(view), d, ts, i)
      {
        Spec.RestoreNext(old(view), d, ts, i);
        var err := Restore(ts[i]);
        i := i + 1;
      }
    }

    /** Recovery's loop over the devices, in the order the map yields them. */
    method RestoreDevices(found: map<string, seq<Task>>)
      requires Valid() && Spec.PerDevice(found)
      modifies Repr
      ensures Valid() && fresh(Repr - old(Repr)) && view == Spec.RestoredAll(old(view), found)
    {
      var rest := found.Keys;
      assert view == Spec.RestoredExcept(view, found, rest);
      while rest != {}
        invariant rest <= found.Keys && Valid() && fresh(Repr - old(Repr))
        invariant view == Spec.RestoredExcept(old(view), found, rest)
        decreases rest
      {
        var d :| d in rest;
        var sorted := SortBySeqNo(found[d]);
        Spec.SortedBelongs(found[d], d);
        Spec.RestoreNextDevice(old(view), found, rest, d);
        RestoreAll(d, sorted);
        rest := rest - {d};
      }
    }
  }

  /** The device queues and the repository that enqueues and cancels are persisted to. */
  class Queue {
    const mem: DeviceQueues
    const repo: TaskRepo

    ghost predicate Valid()
      reads mem, mem.Repr
    {
      mem.Valid() && repo !in mem.Repr
    }

    ghost function Sys(): Spec.Sys
      reads mem, repo
    {
      Spec.Sys(mem.view, repo.buckets)
    }

    /** A queue over an empty repository is the start of every run. */
    constructor (capacity: int, repo: TaskRepo)
      requires repo.buckets == map[]
      ensures Valid() && Sys() == Spec.Start(capacity) && this.repo == repo
    {
      mem := new DeviceQueues(capacity);
      this.repo := repo;
    }

    /** The save comes after the lock is released; a failure is only logged. */
    method Enqueue(task: Option<Task>, now: int, io: bool) returns (err: Option<string>)
      requires Valid()
      modifies mem.Repr, repo
      ensures Valid() && (Sys(), err) == Spec.Enqueue(old(Sys()), task, now, io)
    {
      err := mem.Enqueue(task, now);
      if err.None? {
        var saved := repo.SaveTask(task.value.deviceId, Spec.Filled(task.value, now), io);
      }
    }

    method Cancel(d: string, taskId: string, io: bool) returns (err: Option<string>)
      requires Valid()
      modifies mem.Repr, repo
      ensures Valid() && (Sys(), err) == Spec.Cancel(old(Sys()), d, taskId, io)
    {
      err := mem.Cancel(d, taskId);
      if err.None? {
        var deleted := repo.DeleteTask(d, taskId, io);
      }
    }
  }
}

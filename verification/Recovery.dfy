/** Rebuilding the queues from the store after a restart. */
module Recovery {
  import opened Tasks
  import opened Store
  import opened SeqNoOrder
  import Spec = QueueSpec
  import Queue

  class Recoverer {
    const queue: Queue.DeviceQueues
    const repo: TaskRepo

    constructor (queue: Queue.DeviceQueues, repo: TaskRepo)
      ensures this.queue == queue && this.repo == repo
    {
      this.queue, this.repo := queue, repo;
    }

    /** Recover: rewrite the unfinished records, then refill every device's queue in the
        order of the sequence numbers. `io` tells which transactions succeed. */
    method Recover(io: Outcomes) returns (ok: bool)
      requires queue.Valid() && repo !in queue.Repr && WellKeyedStore(repo.buckets)
      modifies queue.Repr, repo
      ensures queue.Valid() && WellKeyedStore(repo.buckets)
      ensures io.listed && (forall k :: io.loads(k)) && (forall k :: io.saves(k)) ==> ok
      ensures ok ==> queue.view == Spec.RestoredAll(old(queue.view), FoundStore(old(repo.buckets)))
      ensures ok ==> repo.buckets == RecoveredStore(old(repo.buckets))
      ensures !ok ==> queue.view == old(queue.view)
      ensures repo.buckets.Keys == old(repo.buckets).Keys
      ensures forall d | d in repo.buckets :: PartlyRecovered(old(repo.buckets)[d], repo.buckets[d])
    {
      var result := repo.RecoverAll(io);
      if result.None? {
        return false;
      }
      FoundBelongs(old(repo.buckets));
      queue.RestoreDevices(result.value);
      return true;
    }
  }

  lemma {:induction false} FoundBelongs(s: Buckets)
    requires WellKeyedStore(s)
    ensures Spec.PerDevice(FoundStore(s))
  {
    forall d | d in FoundStore(s) ensures Found(s[d]) != [] && forall t | t in Found(s[d]) :: t.deviceId == d {
      FoundFacts(s[d], d);
    }
  }

  /** Record `i` of the bucket is unfinished and becomes `t`. */
  predicate Yields(b: Bucket, i: int, t: Task) {
    0 <= i < |b| && Rewritten(b[i].task, t)
  }

  lemma {:induction false} FoundMembers(b: Bucket, t: Task)
    ensures t in Found(b) <==> exists i :: Yields(b, i, t)
  {
    if b != [] {
      var n := |b| - 1;
      FoundMembers(b[..n], t);
      if t in Found(b) {
        if i :| Yields(b[..n], i, t) {
          assert Yields(b, i, t);
        } else {
          assert Yields(b, n, t);
        }
      }
      if i :| Yields(b, i, t) {
        if i < n {
          assert Yields(b[..n], i, t);
        }
      }
    }
  }

  lemma {:induction false} FoundDistinct(b: Bucket, d: string)
    requires WellKeyed(b, d)
    ensures DistinctSeqNos(Found(b))
  {
    if b != [] {
      var n := |b| - 1;
      FoundDistinct(b[..n], d);
      var last := b[n].task;
      forall t | t in Found(b[..n]) ensures t.seqNo != last.seqNo {
        FoundMembers(b[..n], t);
        var i :| Yields(b[..n], i, t);
        LexTotal(b[i].key, b[n].key);
        assert Lex(b[i].key, b[n].key);
      }
    }
  }

  /** What recovery finds in a bucket: exactly the RUNNING and RETRYING records, set to
      PENDING, with distinct sequence numbers. */
  lemma {:induction false} FoundFacts(b: Bucket, d: string)
    requires WellKeyed(b, d)
    ensures DistinctSeqNos(Found(b))
    ensures forall t | t in Found(b) :: t.deviceId == d && t.status.Pending?
    ensures forall t :: t in Found(b) <==> exists i :: Yields(b, i, t)
  {
    FoundDistinct(b, d);
    forall t ensures t in Found(b) <==> exists i :: Yields(b, i, t) {
      FoundMembers(b, t);
    }
  }

  /** The queues that recovery rebuilds from a store. */
  function Rebuilt(s: Buckets, capacity: int): Spec.Queues {
    Spec.RestoredAll(Spec.Start(capacity).queues, FoundStore(s))
  }

  lemma {:induction false} RefilledFromEmpty(s: Buckets, capacity: int, d: string)
    ensures
      var q := Rebuilt(s, capacity);
      var all := SortBySeqNo(Found(BucketOf(s, d)));
      q.At(d).tasks == all[..if |all| < q.capacity then |all| else q.capacity] && !q.At(d).closed
  {
    assert SortBySeqNo([]) == [];
    hide SortBySeqNo;
    if d !in FoundStore(s) {
      assert Found(BucketOf(s, d)) == [];
    }
  }

  /** Recovery into empty queues: each device's queue is the ascending prefix, as long as the
      capacity allows, of its RUNNING and RETRYING records, all set to PENDING. */
  lemma {:induction false} RecoverRebuilds(s: Buckets, capacity: int, d: string)
    requires WellKeyedStore(s)
    ensures
      var q := Rebuilt(s, capacity);
      var b := BucketOf(s, d);
      var all := SortBySeqNo(Found(b));
      && q.At(d).tasks == all[..if |all| < q.capacity then |all| else q.capacity] && !q.At(d).closed
      && Ascending(all) && multiset(all) == multiset(Found(b))
      && (forall t | t in all :: t.deviceId == d && t.status.Pending?)
      && (forall t :: t in all <==> exists i :: Yields(b, i, t))
  {
    var b := BucketOf(s, d);
    RefilledFromEmpty(s, capacity, d);
    FoundFacts(b, d);
    SortSorts(Found(b));
    var all := SortBySeqNo(Found(b));
    forall t ensures t in all <==> t in Found(b) {
      assert t in multiset(all) <==> t in multiset(Found(b));
    }
  }

  // ------------------------------------------- what recovery finds and keeps

  /** Bucket and live tasks, wherever queue calls keep them consistent. */
  lemma {:induction false} BucketOfLive(x: Spec.Traced, d: string)
    requires Spec.Consistent(x, d)
    ensures
      var b := BucketOf(x.sys.store, d);
      && WellKeyed(b, d) && Spec.DistinctIds(b) && |x.Live(d)| == |b|
      && forall a :: a in x.Live(d) <==> exists i :: 0 <= i < |b| && b[i].task == a
  {
    var ts := TasksOf(BucketOf(x.sys.store, d));
    assert |multiset(ts)| == |ts|;
    forall a ensures a in x.Live(d) <==> a in ts {
      assert a in multiset(ts) <==> a in ts;
    }
  }

  /** Recovery finds exactly the live tasks whose record says RUNNING or RETRYING. */
  lemma {:induction false} FindsUnderWay(x: Spec.Traced, d: string, t: Task)
    requires Spec.Consistent(x, d)
    ensures
      t in Found(BucketOf(x.sys.store, d))
      <==> exists a | a in x.Live(d) :: NeedsRecover(a.status) && t == Recovered(a)
  {
    BucketOfLive(x, d);
    FoundMembers(BucketOf(x.sys.store, d), t);
    YieldsLive(BucketOf(x.sys.store, d), x.Live(d), t);
  }

  lemma {:induction false} YieldsLive(b: Bucket, live: multiset<Task>, t: Task)
    requires forall a :: a in live <==> exists i :: 0 <= i < |b| && b[i].task == a
    ensures (exists i :: Yields(b, i, t)) <==> exists a | a in live :: NeedsRecover(a.status) && t == Recovered(a)
  {
    if i :| Yields(b, i, t) {
      RewrittenMeans(b[i].task, t);
      assert b[i].task in live;
    }
    if a :| a in live && NeedsRecover(a.status) && t == Recovered(a) {
      var i :| 0 <= i < |b| && b[i].task == a;
      RewrittenMeans(a, t);
      assert Yields(b, i, t);
    }
  }

  lemma {:induction false} FoundAll(b: Bucket)
    requires forall i | 0 <= i < |b| :: NeedsRecover(b[i].task.status)
    ensures |Found(b)| == |b|
  {
    if b != [] {
      FoundAll(b[..|b| - 1]);
    }
  }

  /** Recovery keeps the oldest of the records it finds, and leaves one out if and only if the
      device has more of them than fit; what is left out no later recovery finds. */
  lemma {:induction false} DroppedIffOverCapacity(s: Buckets, capacity: int, d: string)
    requires WellKeyedStore(s)
    ensures
      var q, found := Rebuilt(s, capacity), Found(BucketOf(s, d));
      && |q.At(d).tasks| <= q.capacity
      && (forall t | t in q.At(d).tasks :: t in found)
      && (forall t, u | t in q.At(d).tasks && u in found && u !in q.At(d).tasks :: t.seqNo < u.seqNo)
      && ((exists t :: t in found && t !in q.At(d).tasks) <==> |found| > q.capacity)
    ensures FoundStore(RecoveredStore(s)) == map[]
  {
    RecoverTwice(s);
    RefilledFromEmpty(s, capacity, d);
    var q, found := Rebuilt(s, capacity), Found(BucketOf(s, d));
    FoundFacts(BucketOf(s, d), d);
    SortSorts(found);
    PrefixKept(SortBySeqNo(found), found, q.capacity);
  }

  /** The first `n` of the sorted tasks. */
  lemma {:induction false} PrefixKept(all: seq<Task>, found: seq<Task>, n: nat)
    requires Ascending(all) && multiset(all) == multiset(found)
    ensures
      var kept := all[..if |all| < n then |all| else n];
      && |kept| <= n
      && (forall t | t in kept :: t in found)
      && (forall t, u | t in kept && u in found && u !in kept :: t.seqNo < u.seqNo)
      && ((exists t :: t in found && t !in kept) <==> |found| > n)
  {
    var kept := all[..if |all| < n then |all| else n];
    assert |all| == |multiset(all)| == |multiset(found)| == |found|;
    forall t ensures t in all <==> t in found {
      assert t in multiset(all) <==> t in multiset(found);
    }
    if |all| > n {
      assert all[n] in found && all[n] !in kept;
    } else {
      assert kept == all;
    }
  }

  /** With distinct ids only an unfinished record is found, and as itself. */
  lemma {:induction false} FoundIsUnfinished(b: Bucket, i: nat)
    requires Spec.DistinctIds(b) && i < |b|
    ensures Recovered(b[i].task) in Found(b) <==> NeedsRecover(b[i].task.status)
  {
    var t := Recovered(b[i].task);
    FoundMembers(b, t);
    if NeedsRecover(b[i].task.status) {
      assert Yields(b, i, t);
    }
    if j :| Yields(b, j, t) {
      assert b[j].task.taskId == b[i].task.taskId;
      assert j == i;
    }
  }

  /** What survives in a bucket with distinct ids. */
  lemma {:induction false} KeptInBucket(s: Buckets, capacity: int, d: string)
    requires WellKeyedStore(s) && Spec.DistinctIds(BucketOf(s, d))
    ensures
      var b, q := BucketOf(s, d), Rebuilt(s, capacity);
      (forall i | 0 <= i < |b| :: Recovered(b[i].task) in q.At(d).tasks)
      <==> (forall i | 0 <= i < |b| :: NeedsRecover(b[i].task.status)) && |b| <= q.capacity
  {
    var b := BucketOf(s, d);
    DroppedIffOverCapacity(s, capacity, d);
    forall i | 0 <= i < |b| ensures Recovered(b[i].task) in Found(b) <==> NeedsRecover(b[i].task.status) {
      FoundIsUnfinished(b, i);
    }
    if forall i | 0 <= i < |b| :: NeedsRecover(b[i].task.status) {
      FoundAll(b);
      forall t | t in Found(b) ensures exists i :: 0 <= i < |b| && t == Recovered(b[i].task) {
        FoundMembers(b, t);
      }
    }
  }

  /** When recovery loses no live task: if and only if every record says RUNNING or RETRYING and
      they are no more than a queue holds. */
  lemma {:induction false} KeepsAllIff(x: Spec.Traced, capacity: int, d: string)
    requires Spec.Consistent(x, d) && WellKeyedStore(x.sys.store)
    ensures
      var q := Rebuilt(x.sys.store, capacity);
      (forall a | a in x.Live(d) :: Recovered(a) in q.At(d).tasks)
      <==> (forall a | a in x.Live(d) :: NeedsRecover(a.status)) && |x.Live(d)| <= q.capacity
  {
    BucketOfLive(x, d);
    KeptInBucket(x.sys.store, capacity, d);
    LiveOrBucket(BucketOf(x.sys.store, d), x.Live(d), Rebuilt(x.sys.store, capacity).At(d).tasks);
  }

  /** Speaking of the records is speaking of the live tasks. */
  lemma {:induction false} LiveOrBucket(b: Bucket, live: multiset<Task>, kept: seq<Task>)
    requires forall a :: a in live <==> exists i :: 0 <= i < |b| && b[i].task == a
    ensures
      (forall i | 0 <= i < |b| :: Recovered(b[i].task) in kept)
      <==> (forall a | a in live :: Recovered(a) in kept)
    ensures
      (forall i | 0 <= i < |b| :: NeedsRecover(b[i].task.status))
      <==> (forall a | a in live :: NeedsRecover(a.status))
  {
    forall i | 0 <= i < |b| ensures b[i].task in live {
    }
  }

  lemma {:induction false} YoungerDropped(kept: seq<Task>, found: seq<Task>, t: Task, u: Task)
    requires |kept| <= 1 && t in found && u in found && t.seqNo < u.seqNo
    requires forall k, x | k in kept && x in found && x !in kept :: k.seqNo < x.seqNo
    ensures u !in kept
  {
    assert forall x | x in kept :: x == kept[0];
  }

  ghost predicate NoneUnfinished(s: Buckets) {
    forall d, i | d in s && 0 <= i < |s[d]| :: !NeedsRecover(s[d][i].task.status)
  }

  lemma {:induction false} PutMembers(b: Bucket, k: Key, t: Task, r: Record)
    requires r in Put(b, k, t)
    ensures r == Record(k, t) || r in b
  {
    if b != [] && !Lex(k, b[0].key) && k != b[0].key && r != b[0] {
      PutMembers(b[1..], k, t, r);
    }
  }

  /** The call submits no task that claims to be under way. */
  predicate NotUnderWay(c: Spec.Call) {
    c.DoEnqueue? && c.task.Some? ==> !NeedsRecover(c.task.value.status)
  }

  lemma {:induction false} CallLeavesNoneUnfinished(s: Spec.Sys, c: Spec.Call)
    requires NoneUnfinished(s.store) && NotUnderWay(c)
    ensures NoneUnfinished(Spec.Apply(s, c).store)
  {
    var s' := Spec.Apply(s, c);
    forall d, i | d in s'.store && 0 <= i < |s'.store[d]| ensures !NeedsRecover(s'.store[d][i].task.status) {
      var r := s'.store[d][i];
      assert r in s'.store[d];
      if c.DoEnqueue? && c.task.Some? && c.task.value.deviceId == d && s'.store != s.store {
        var t := Spec.Filled(c.task.value, c.now);
        PutMembers(BucketOf(s.store, d), TaskKey(c.task.value.seqNo), t, r);
        assert r == Record(TaskKey(c.task.value.seqNo), t) || r in BucketOf(s.store, d);
      } else {
        assert r in BucketOf(s.store, d);
      }
    }
  }

  lemma {:induction false} RunLeavesNoneUnfinished(s: Spec.Sys, calls: seq<Spec.Call>)
    requires NoneUnfinished(s.store) && forall c | c in calls :: NotUnderWay(c)
    ensures NoneUnfinished(Spec.ApplyAll(s, calls).store)
    decreases |calls|
  {
    if calls != [] {
      CallLeavesNoneUnfinished(s, calls[0]);
      RunLeavesNoneUnfinished(Spec.Apply(s, calls[0]), calls[1..]);
    }
  }

  /** The gap in the documented durability: after any run of calls that are not interleaved,
      whatever was accepted, taken or left in the queues, if no task was submitted as RUNNING
      or RETRYING then a restart rebuilds empty queues. */
  lemma {:induction false} RestartForgetsPending(capacity: int, calls: seq<Spec.Call>, d: string)
    requires forall c | c in calls :: NotUnderWay(c)
    ensures
      var store := Spec.ApplyAll(Spec.Start(capacity), calls).store;
      Rebuilt(store, capacity).At(d).tasks == []
  {
    RunLeavesNoneUnfinished(Spec.Start(capacity), calls);
    var store := Spec.ApplyAll(Spec.Start(capacity), calls).store;
    forall e | e in store ensures Found(store[e]) == [] {
      NothingToFind(store[e]);
    }
    assert FoundStore(store) == map[];
    RefilledFromEmpty(store, capacity, d);
    assert Found(BucketOf(store, d)) == [] && SortBySeqNo([]) == [];
  }

  lemma {:induction false} NothingToFind(b: Bucket)
    requires forall i | 0 <= i < |b| :: !NeedsRecover(b[i].task.status)
    ensures Found(b) == []
  {
    if b != [] {
      NothingToFind(b[..|b| - 1]);
    }
  }
}

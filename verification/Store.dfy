/** The task store: byte keys, one bucket per device kept in key order, the repository
    operations on it, and the recovery pass that rewrites unfinished records. */
module Store {
  import opened Basics
  import opened Tasks

  type Byte = x: int | 0 <= x < 256
  type Key = seq<Byte>

  // -------------------------------------------------------------------- keys

  function Pow256(n: nat): (p: nat)
    ensures p >= 1
  {
    if n == 0 then 1 else 256 * Pow256(n - 1)
  }

  /** `u` in `n` bytes, most significant first. */
  function BigEndian(u: nat, n: nat): (k: Key)
    requires u < Pow256(n)
    ensures |k| == n
  {
    if n == 0 then []
    else
      DigitRange(u, Pow256(n - 1));
      [u / Pow256(n - 1)] + BigEndian(u % Pow256(n - 1), n - 1)
  }

  lemma DigitRange(u: nat, p: nat)
    requires p >= 1 && u < 256 * p
    ensures 0 <= u / p < 256
  {
  }

  lemma MulAtLeast(p: nat, a: nat, b: nat)
    requires a <= b
    ensures p * a <= p * b
  {
  }

  function Value(k: Key): nat {
    if k == [] then 0 else k[0] * Pow256(|k| - 1) + Value(k[1..])
  }

  function Uint64(x: Int64): nat {
    if x < 0 then x + 0x1_0000_0000_0000_0000 else x
  }

  lemma Pow256Of8()
    ensures Pow256(8) == 0x1_0000_0000_0000_0000
  {
  }

  function TaskKey(seqNo: Int64): (k: Key)
    ensures |k| == 8
  {
    Pow256Of8();
    BigEndian(Uint64(seqNo), 8)
  }

  /** Byte-lexicographic order, the order of a bucket's cursor. */
  predicate Lex(a: Key, b: Key) {
    b != [] && (a == [] || a[0] < b[0] || (a[0] == b[0] && Lex(a[1..], b[1..])))
  }

  lemma DigitOrder(p: nat, x: int, y: int, u: nat, v: nat)
    requires u < p && v < p && 0 <= x && 0 <= y
    ensures x * p + u < y * p + v <==> x < y || (x == y && u < v)
  {
    if x < y {
      MulAtLeast(p, x + 1, y);
    } else if y < x {
      MulAtLeast(p, y + 1, x);
    }
  }

  lemma {:induction false} ValueBound(k: Key)
    ensures Value(k) < Pow256(|k|)
  {
    if k != [] {
      ValueBound(k[1..]);
      DigitOrder(Pow256(|k| - 1), k[0], 256, Value(k[1..]), 0);
    }
  }

  /** Quotient and remainder, once and for all. */
  lemma Divided(u: nat, p: nat)
    requires p >= 1
    ensures u == (u / p) * p + u % p && u % p < p
  {
  }

  lemma ValueCons(digit: Byte, rest: Key)
    ensures Value([digit] + rest) == digit * Pow256(|rest|) + Value(rest)
  {
    assert ([digit] + rest)[1..] == rest;
  }

  /** The first digit and what is left. */
  lemma FirstDigit(u: nat, n: nat) returns (q: Byte, r: nat)
    requires n > 0 && u < Pow256(n)
    ensures r < Pow256(n - 1) && u == q * Pow256(n - 1) + r
    ensures BigEndian(u, n) == [q] + BigEndian(r, n - 1)
  {
    Divided(u, Pow256(n - 1));
    DigitRange(u, Pow256(n - 1));
    q, r := u / Pow256(n - 1), u % Pow256(n - 1);
  }

  lemma {:induction false} ValueOfBigEndian(u: nat, n: nat)
    requires u < Pow256(n)
    ensures Value(BigEndian(u, n)) == u
  {
    if n > 0 {
      var q, r := FirstDigit(u, n);
      ValueOfBigEndian(r, n - 1);
      ValueCons(q, BigEndian(r, n - 1));
    }
  }

  lemma {:induction false} LexIsNumeric(a: Key, b: Key)
    requires |a| == |b|
    ensures Lex(a, b) <==> Value(a) < Value(b)
  {
    if a != [] {
      LexIsNumeric(a[1..], b[1..]);
      ValueBound(a[1..]);
      ValueBound(b[1..]);
      DigitOrder(Pow256(|a| - 1), a[0], b[0], Value(a[1..]), Value(b[1..]));
    }
  }

  /** Keys are unique, and their order in the store is the unsigned order of the sequence
      numbers. It is their numeric order exactly for two numbers of the same sign: every
      negative number sorts after every non-negative one. */
  lemma TaskKeyOrder(a: Int64, b: Int64)
    ensures TaskKey(a) == TaskKey(b) <==> a == b
    ensures Lex(TaskKey(a), TaskKey(b)) <==> Uint64(a) < Uint64(b)
    ensures a != b ==> ((Lex(TaskKey(a), TaskKey(b)) <==> a < b) <==> (a < 0 <==> b < 0))
  {
    Pow256Of8();
    ValueOfBigEndian(Uint64(a), 8);
    ValueOfBigEndian(Uint64(b), 8);
    LexIsNumeric(TaskKey(a), TaskKey(b));
  }

  lemma {:induction false} LexTotal(a: Key, b: Key)
    ensures Lex(a, b) || Lex(b, a) || a == b
    ensures !(Lex(a, b) && Lex(b, a)) && !Lex(a, a)
  {
    if a != [] && b != [] {
      LexTotal(a[1..], b[1..]);
      LexTotal(a[1..], a[1..]);
      if a[0] == b[0] && a[1..] == b[1..] {
        assert a == [a[0]] + a[1..] == b;
      }
    } else if a != [] {
      LexTotal(a[1..], a[1..]);
    }
  }

  lemma {:induction false} LexTransitive(a: Key, b: Key, c: Key)
    requires Lex(a, b) && Lex(b, c)
    ensures Lex(a, c)
  {
    if a != [] && a[0] == b[0] && b[0] == c[0] {
      LexTransitive(a[1..], b[1..], c[1..]);
    }
  }

  // ----------------------------------------------------------------- buckets

  datatype Record = Record(key: Key, task: Task)

  /** A bucket, as its cursor walks it. */
  type Bucket = seq<Record>

  ghost predicate Sorted(b: Bucket) {
    forall i, j | 0 <= i < j < |b| :: Lex(b[i].key, b[j].key)
  }

  function Put(b: Bucket, k: Key, t: Task): Bucket {
    if b == [] || Lex(k, b[0].key) then [Record(k, t)] + b
    else if k == b[0].key then [Record(k, t)] + b[1..]
    else [b[0]] + Put(b[1..], k, t)
  }

  predicate HasKey(b: Bucket, k: Key) {
    exists i | 0 <= i < |b| :: b[i].key == k
  }

  /** Putting under a key the bucket has replaces that record and moves nothing. */
  lemma {:induction false} PutExisting(b: Bucket, i: nat, t: Task)
    requires Sorted(b) && i < |b|
    ensures Put(b, b[i].key, t) == b[i := Record(b[i].key, t)]
  {
    LexTotal(b[i].key, b[0].key);
    if i > 0 {
      assert Lex(b[0].key, b[i].key);
      PutExisting(b[1..], i - 1, t);
      assert b[i := Record(b[i].key, t)] == [b[0]] + b[1..][i - 1 := Record(b[i].key, t)];
    }
  }

  /** Putting under a new key inserts one record. */
  lemma {:induction false} PutNew(b: Bucket, k: Key, t: Task) returns (i: nat)
    requires Sorted(b) && !HasKey(b, k)
    ensures i <= |b| && Put(b, k, t) == b[..i] + [Record(k, t)] + b[i..]
    ensures forall j | 0 <= j < i :: Lex(b[j].key, k)
    ensures forall j | i <= j < |b| :: Lex(k, b[j].key)
  {
    if b == [] {
      i := 0;
    } else {
      LexTotal(k, b[0].key);
      if Lex(k, b[0].key) {
        i := 0;
        forall j | 0 < j < |b| ensures Lex(k, b[j].key) { LexTransitive(k, b[0].key, b[j].key); }
      } else {
        assert k != b[0].key;
        assert forall j | 0 <= j < |b[1..]| :: b[1..][j].key == b[j + 1].key;
        var i' := PutNew(b[1..], k, t);
        i := i' + 1;
        assert b[..i] == [b[0]] + b[1..][..i'] && b[i..] == b[1..][i'..];
      }
    }
  }

  lemma PutSorted(b: Bucket, k: Key, t: Task)
    requires Sorted(b)
    ensures Sorted(Put(b, k, t))
  {
    if HasKey(b, k) {
      var i :| 0 <= i < |b| && b[i].key == k;
      PutExisting(b, i, t);
    } else {
      var i := PutNew(b, k, t);
      var b' := Put(b, k, t);
      forall x, y | 0 <= x < y < |b'| ensures Lex(b'[x].key, b'[y].key) {
        assert x < i ==> b'[x] == b[x];
        assert y < i ==> b'[y] == b[y];
        assert x > i ==> b'[x] == b[x - 1];
        assert y > i ==> b'[y] == b[y - 1];
      }
    }
  }

  /** Index of the first record, in key order, with the given task id. */
  function FirstRecord(b: Bucket, taskId: string): (i: nat)
    ensures i <= |b|
    ensures i < |b| ==> b[i].task.taskId == taskId
    ensures forall j | 0 <= j < i :: b[j].task.taskId != taskId
  {
    if b == [] || b[0].task.taskId == taskId then 0 else 1 + FirstRecord(b[1..], taskId)
  }

  function Deleted(b: Bucket, taskId: string): Bucket {
    var i := FirstRecord(b, taskId);
    if i < |b| then b[..i] + b[i + 1..] else b
  }

  function TasksOf(b: Bucket): (ts: seq<Task>)
    ensures |ts| == |b|
    ensures forall i | 0 <= i < |b| :: ts[i] == b[i].task
  {
    seq(|b|, i requires 0 <= i < |b| => b[i].task)
  }

  // ------------------------------------------------------------------- store

  type Buckets = map<string, Bucket>

  function BucketOf(s: Buckets, d: string): Bucket {
    if d in s then s[d] else []
  }

  function Saved(s: Buckets, d: string, t: Task, io: bool): Buckets {
    if io then s[d := Put(BucketOf(s, d), TaskKey(t.seqNo), t)] else s
  }

  function Erased(s: Buckets, d: string, taskId: string, io: bool): Buckets {
    if io && d in s then s[d := Deleted(s[d], taskId)] else s
  }

  /** What every writer keeps: buckets in key order, each record under the key of its own
      sequence number and in the bucket of its own device. */
  ghost predicate WellKeyed(b: Bucket, d: string) {
    && Sorted(b)
    && forall i | 0 <= i < |b| :: b[i].key == TaskKey(b[i].task.seqNo) && b[i].task.deviceId == d
  }

  ghost predicate WellKeyedStore(s: Buckets) {
    forall d | d in s :: WellKeyed(s[d], d)
  }

  lemma SaveKeepsKeys(b: Bucket, d: string, t: Task)
    requires WellKeyed(b, d) && t.deviceId == d
    ensures WellKeyed(Put(b, TaskKey(t.seqNo), t), d)
  {
    var k := TaskKey(t.seqNo);
    PutSorted(b, k, t);
    if HasKey(b, k) {
      var i :| 0 <= i < |b| && b[i].key == k;
      PutExisting(b, i, t);
    } else {
      var i := PutNew(b, k, t);
    }
  }

  lemma DeleteKeepsKeys(b: Bucket, d: string, taskId: string)
    requires WellKeyed(b, d)
    ensures WellKeyed(Deleted(b, taskId), d)
  {
  }

  /** Which transactions of a recovery succeed: the listing of the buckets, the load of the k-th
      bucket with its decoding, the k-th write. */
  datatype Outcomes = Outcomes(listed: bool, loads: nat -> bool, saves: nat -> bool)

  class TaskRepo {
    var buckets: Buckets

    constructor ()
      ensures buckets == map[]
    {
      buckets := map[];
    }

    /** `io` tells whether the transaction succeeds. */
    method SaveTask(d: string, t: Task, io: bool) returns (ok: bool)
      modifies this
      ensures ok == io
      ensures buckets == Saved(old(buckets), d, t, io)
    {
      if io {
        buckets := buckets[d := Put(BucketOf(buckets, d), TaskKey(t.seqNo), t)];
      }
      return io;
    }

    /** The cursor scan: decode each record in key order, delete the first match. */
    method DeleteTask(d: string, taskId: string, io: bool) returns (ok: bool)
      modifies this
      ensures ok == io
      ensures buckets == Erased(old(buckets), d, taskId, io)
    {
      ok := io;
      if !io || d !in buckets {
        return;
      }
      var b := buckets[d];
      var i := 0;
      while i < |b|
        invariant i <= |b|
        invariant forall j | 0 <= j < i :: b[j].task.taskId != taskId
        invariant buckets == old(buckets)
      {
        if b[i].task.taskId == taskId {
          assert FirstRecord(b, taskId) == i;
          buckets := buckets[d := b[..i] + b[i + 1..]];
          return;
        }
        i := i + 1;
      }
      assert FirstRecord(b, taskId) == |b|;
    }

    /** The records of a bucket, in key order; `io` tells whether the transaction and every
        decoding succeed. */
    method LoadTasks(d: string, io: bool) returns (tasks: Option<seq<Task>>)
      ensures tasks.Some? == io
      ensures io ==>
        var b, ts := BucketOf(buckets, d), tasks.value;
        |ts| == |b| && forall i | 0 <= i < |b| :: ts[i] == b[i].task
    {
      if !io {
        return None;
      }
      if d !in buckets {
        return Some([]);
      }
      var b := buckets[d];
      var ts: seq<Task> := [];
      for i := 0 to |b|
        invariant |ts| == i && forall j | 0 <= j < i :: ts[j] == b[j].task
      {
        ts := ts + [b[i].task];
      }
      return Some(ts);
    }

    method ListDeviceBuckets() returns (devices: seq<string>)
      ensures forall d :: d in devices <==> d in buckets
      ensures forall i, j | 0 <= i < j < |devices| :: devices[i] != devices[j]
    {
      devices := [];
      var rest := buckets.Keys;
      while rest != {}
        invariant rest <= buckets.Keys
        invariant forall d :: d in devices <==> d in buckets.Keys - rest
        invariant forall i, j | 0 <= i < j < |devices| :: devices[i] != devices[j]
        decreases |rest|
      {
        var d :| d in rest;
        assert d !in devices;
        rest := rest - {d};
        devices := devices + [d];
      }
    }

    // -------------------------------------------------------------- recovery

    /** One record of RecoverAll, rewritten and saved under its own key. */
    method RecoverRecord(d: string, ghost b: Bucket, ghost i: nat, task: Task, io: bool) returns (saved: bool, t: Task)
      requires WellKeyed(b, d) && i < |b| && task == b[i].task && NeedsRecover(task.status)
      requires d in buckets && buckets[d] == RecoveredUpTo(b, i)
      modifies this
      ensures OnlyBucket(old(buckets), buckets, d) && saved == io && t == Recovered(task)
      ensures buckets[d] == RecoveredUpTo(b, if saved then i + 1 else i)
    {
      t := task.(status := Pending);
      t := t.(startedAt := t.receivedAt);
      PutRecovered(b, i, d);
      saved := SaveTask(d, t, io);
    }

    /** One bucket of RecoverAll: records are rewritten one by one; `loads` tells whether they
        can be loaded, `saves(k)` whether the k-th write transaction succeeds, and `first`
        numbers this bucket's first one. */
    method RecoverBucket(d: string, loads: bool, saves: nat -> bool, first: nat)
      returns (ok: bool, next: nat, found: seq<Task>)
      requires d in buckets && WellKeyed(buckets[d], d)
      modifies this
      ensures OnlyBucket(old(buckets), buckets, d)
      ensures ok ==> buckets[d] == RecoveredBucket(old(buckets)[d]) && found == Found(old(buckets)[d])
      ensures !ok ==> CutShort(old(buckets)[d], buckets[d])
      ensures loads && (forall k :: saves(k)) ==> ok
    {
      var b := buckets[d];
      next, found := first, [];
      var loaded := LoadTasks(d, loads);
      if loaded.None? {
        assert b == RecoveredUpTo(b, 0);
        return false, next, found;
      }
      var tasks := loaded.value;
      var i := 0;
      while i < |tasks|
        invariant i <= |tasks| && OnlyBucket(old(buckets), buckets, d)
        invariant buckets[d] == RecoveredUpTo(b, i)
        invariant found == Found(b[..i])
      {
        FoundNext(b, i);
        if NeedsRecover(tasks[i].status) {
          var saved, t := RecoverRecord(d, b, i, tasks[i], saves(next));
          if !saved {
            return false, next, found;
          }
          next := next + 1;
          found := found + [t];
        } else {
          RecoveredUpToSkip(b, i);
        }
        i := i + 1;
      }
      assert b[..i] == b;
      return true, next, found;
    }

    /** RecoverAll. On success every bucket is recovered in place and `result` holds, per
        device, the recovered tasks in key order; after a failed listing, load, decoding or
        write every record is either untouched or recovered. */
    method RecoverAll(io: Outcomes) returns (result: Option<map<string, seq<Task>>>)
      requires WellKeyedStore(buckets)
      modifies this
      ensures result.Some? ==> buckets == RecoveredStore(old(buckets)) && result.value == FoundStore(old(buckets))
      ensures io.listed && (forall k :: io.loads(k)) && (forall k :: io.saves(k)) ==> result.Some?
      ensures buckets.Keys == old(buckets).Keys && WellKeyedStore(buckets)
      ensures forall d | d in buckets :: PartlyRecovered(old(buckets)[d], buckets[d])
    {
      ghost var before := buckets;
      if !io.listed {
        return None;
      }
      var devices := ListDeviceBuckets();
      var next := 0;
      var found: map<string, seq<Task>> := map[];
      var i := 0;
      while i < |devices|
        invariant i <= |devices| && Progress(before, buckets, devices, i)
        invariant found == FoundUpTo(before, devices, i)
      {
        var d := devices[i];
        ghost var mid := buckets;
        ProgressAt(before, mid, devices, i);
        var ok, rest, tasks := RecoverBucket(d, io.loads(i), io.saves, next);
        if !ok {
          ProgressEnds(before, mid, buckets, devices, i);
          return None;
        }
        ProgressNext(before, mid, buckets, devices, i);
        next := rest;
        if tasks != [] {
          found := found[d := tasks];
        }
        i := i + 1;
      }
      ProgressDone(before, buckets, devices);
      return Some(found);
    }
  }

  ghost predicate CutShort(b: Bucket, b': Bucket) {
    exists n: nat :: n <= |b| && b' == RecoveredUpTo(b, n)
  }

  /** RecoverAll after `i` devices: those are recovered, the others untouched. */
  ghost predicate Progress(before: Buckets, now: Buckets, devices: seq<string>, i: nat) {
    && now.Keys == before.Keys
    && (forall d :: d in devices <==> d in before)
    && (forall j, k | 0 <= j < k < |devices| :: devices[j] != devices[k])
    && (forall j | 0 <= j < |devices| && j < i :: now[devices[j]] == RecoveredBucket(before[devices[j]]))
    && (forall j | i <= j < |devices| :: now[devices[j]] == before[devices[j]])
  }

  function FoundUpTo(before: Buckets, devices: seq<string>, i: nat): map<string, seq<Task>>
    requires i <= |devices|
  {
    map d | d in devices[..i] && d in before && Found(before[d]) != [] :: Found(before[d])
  }

  lemma ProgressAt(before: Buckets, now: Buckets, devices: seq<string>, i: nat)
    requires WellKeyedStore(before) && Progress(before, now, devices, i) && i < |devices|
    ensures devices[i] in now && now[devices[i]] == before[devices[i]] && WellKeyed(now[devices[i]], devices[i])
  {
  }

  /** `now` is `mid` except for the bucket of `d`. */
  ghost predicate OnlyBucket(mid: Buckets, now: Buckets, d: string) {
    now.Keys == mid.Keys && forall d' | d' in now && d' != d :: now[d'] == mid[d']
  }

  lemma ProgressNext(before: Buckets, mid: Buckets, now: Buckets, devices: seq<string>, i: nat)
    requires Progress(before, mid, devices, i) && i < |devices| && OnlyBucket(mid, now, devices[i])
    requires devices[i] in before && now[devices[i]] == RecoveredBucket(before[devices[i]])
    ensures Progress(before, now, devices, i + 1)
    ensures var found := Found(before[devices[i]]);
            FoundUpTo(before, devices, i + 1) ==
            if found == [] then FoundUpTo(before, devices, i)
            else FoundUpTo(before, devices, i)[devices[i] := found]
  {
    assert devices[..i + 1] == devices[..i] + [devices[i]];
    forall j | 0 <= j < |devices| && j != i ensures now[devices[j]] == mid[devices[j]] {
      assert devices[j] in devices;
    }
  }

  lemma ProgressDone(before: Buckets, now: Buckets, devices: seq<string>)
    requires WellKeyedStore(before) && Progress(before, now, devices, |devices|)
    ensures now == RecoveredStore(before) && WellKeyedStore(now)
    ensures forall d | d in now :: PartlyRecovered(before[d], now[d])
    ensures FoundUpTo(before, devices, |devices|) == FoundStore(before)
  {
  }

  /** The store left behind when device number `i` was cut short by an I/O error. */
  lemma ProgressEnds(before: Buckets, mid: Buckets, now: Buckets, devices: seq<string>, i: nat)
    requires WellKeyedStore(before) && Progress(before, mid, devices, i) && i < |devices|
    requires OnlyBucket(mid, now, devices[i]) && devices[i] in before
    requires CutShort(before[devices[i]], now[devices[i]])
    ensures WellKeyedStore(now) && forall d | d in now :: PartlyRecovered(before[d], now[d])
  {
  }

  predicate NeedsRecover(status: TaskStatus) { status.Running? || status.Retrying? }

  function Recovered(t: Task): Task {
    if NeedsRecover(t.status) then t.(status := Pending, startedAt := t.receivedAt) else t
  }

  /** `t` is what recovery makes of an unfinished task `a`: PENDING, started when it was received,
      and the same in every other field. */
  predicate Rewritten(a: Task, t: Task) {
    && (a.status == Running || a.status == Retrying)
    && t.status == Pending && t.startedAt == a.receivedAt
    && t.taskId == a.taskId && t.deviceId == a.deviceId && t.seqNo == a.seqNo && t.retryCount == a.retryCount
    && t.receivedAt == a.receivedAt && t.finishedAt == a.finishedAt && t.nextRetryAt == a.nextRetryAt
    && t.errorCode == a.errorCode && t.errorMsg == a.errorMsg && t.document == a.document
  }

  lemma RewrittenMeans(a: Task, t: Task)
    ensures Rewritten(a, t) <==> NeedsRecover(a.status) && t == Recovered(a)
  {
  }

  function RecoveredUpTo(b: Bucket, n: nat): (b': Bucket)
    ensures |b'| == |b|
    ensures forall i | 0 <= i < |b| :: b'[i] == if i < n then Record(b[i].key, Recovered(b[i].task)) else b[i]
  {
    seq(|b|, i requires 0 <= i < |b| => if i < n then Record(b[i].key, Recovered(b[i].task)) else b[i])
  }

  function RecoveredBucket(b: Bucket): Bucket { RecoveredUpTo(b, |b|) }

  /** The tasks of `b` that need recovery, recovered, in key order. */
  function Found(b: Bucket): seq<Task> {
    if b == [] then []
    else
      var rest := Found(b[..|b| - 1]);
      var t := b[|b| - 1].task;
      if NeedsRecover(t.status) then rest + [Recovered(t)] else rest
  }

  function RecoveredStore(s: Buckets): Buckets {
    map d | d in s :: RecoveredBucket(s[d])
  }

  function FoundStore(s: Buckets): map<string, seq<Task>> {
    map d | d in s && Found(s[d]) != [] :: Found(s[d])
  }

  ghost predicate PartlyRecovered(b: Bucket, b': Bucket) {
    |b'| == |b| && forall i | 0 <= i < |b| ::
      b'[i] == b[i] || (b'[i].key == b[i].key && Rewritten(b[i].task, b'[i].task))
  }

  lemma RecoveredUpToKeyed(b: Bucket, n: nat, d: string)
    requires WellKeyed(b, d)
    ensures WellKeyed(RecoveredUpTo(b, n), d)
  {
  }

  /** Saving the next recovered record moves the rewritten prefix on by one. */
  lemma PutRecovered(b: Bucket, i: nat, d: string)
    requires WellKeyed(b, d) && i < |b|
    ensures var t := Recovered(b[i].task);
            Put(RecoveredUpTo(b, i), TaskKey(t.seqNo), t) == RecoveredUpTo(b, i + 1)
  {
    RecoveredUpToKeyed(b, i, d);
    PutExisting(RecoveredUpTo(b, i), i, Recovered(b[i].task));
  }

  lemma RecoveredUpToSkip(b: Bucket, i: nat)
    requires i < |b| && !NeedsRecover(b[i].task.status)
    ensures RecoveredUpTo(b, i + 1) == RecoveredUpTo(b, i)
  {
  }

  lemma FoundNext(b: Bucket, i: nat)
    requires i < |b|
    ensures Found(b[..i + 1]) ==
            Found(b[..i]) + if NeedsRecover(b[i].task.status) then [Recovered(b[i].task)] else []
  {
    assert b[..i + 1][..i] == b[..i];
  }

  /** A recovered bucket, record by record: the unfinished ones are rewritten, the others are as
      they were, and none has moved. */
  lemma {:induction false} RecoveryRewrites(b: Bucket, i: nat)
    requires i < |b|
    ensures
      var r := RecoveredBucket(b)[i];
      && |RecoveredBucket(b)| == |b| && r.key == b[i].key
      && if b[i].task.status == Running || b[i].task.status == Retrying then Rewritten(b[i].task, r.task)
         else r == b[i]
  {
    RewrittenMeans(b[i].task, RecoveredBucket(b)[i].task);
  }

  lemma {:induction false} NothingLeftToFind(b: Bucket)
    ensures Found(RecoveredBucket(b)) == [] && RecoveredBucket(RecoveredBucket(b)) == RecoveredBucket(b)
  {
    if b != [] {
      NothingLeftToFind(b[..|b| - 1]);
      assert RecoveredBucket(b)[..|b| - 1] == RecoveredBucket(b[..|b| - 1]);
    }
  }

  /** Recovery is idempotent: a second pass finds nothing and changes nothing; and it never
      touches a record that is neither RUNNING nor RETRYING. */
  lemma RecoverTwice(s: Buckets)
    ensures RecoveredStore(RecoveredStore(s)) == RecoveredStore(s)
    ensures FoundStore(RecoveredStore(s)) == map[]
    ensures forall d, i | d in s && 0 <= i < |s[d]| && !NeedsRecover(s[d][i].task.status) ::
              RecoveredStore(s)[d][i] == s[d][i]
  {
    forall d | d in s ensures Found(RecoveredBucket(s[d])) == []
      && RecoveredBucket(RecoveredBucket(s[d])) == RecoveredBucket(s[d])
    {
      NothingLeftToFind(s[d]);
    }
  }
}

/** Ordering tasks by sequence number, as recovery does before it refills the queues. */
module SeqNoOrder {
  import opened Tasks

  function Insert(t: Task, ts: seq<Task>): seq<Task> {
    if ts == [] || t.seqNo < ts[0].seqNo then [t] + ts else [ts[0]] + Insert(t, ts[1..])
  }

  function SortBySeqNo(ts: seq<Task>): seq<Task> {
    if ts == [] then [] else Insert(ts[0], SortBySeqNo(ts[1..]))
  }

  lemma {:induction false} InsertKeeps(t: Task, ts: seq<Task>)
    ensures multiset(Insert(t, ts)) == multiset(ts) + multiset{t}
  {
    if ts != [] && t.seqNo >= ts[0].seqNo {
      InsertKeeps(t, ts[1..]);
      assert ts == [ts[0]] + ts[1..];
    }
  }

  lemma {:induction false} SortKeeps(ts: seq<Task>)
    ensures multiset(SortBySeqNo(ts)) == multiset(ts)
  {
    if ts != [] {
      SortKeeps(ts[1..]);
      InsertKeeps(ts[0], SortBySeqNo(ts[1..]));
      assert ts == [ts[0]] + ts[1..];
    }
  }

  ghost predicate Ascending(ts: seq<Task>) {
    forall i, j | 0 <= i < j < |ts| :: ts[i].seqNo < ts[j].seqNo
  }

  ghost predicate DistinctSeqNos(ts: seq<Task>) {
    forall i, j | 0 <= i < j < |ts| :: ts[i].seqNo != ts[j].seqNo
  }

  lemma {:induction false} ConsAscending(h: Task, rest: seq<Task>, was: seq<Task>, t: Task)
    requires Ascending(rest) && multiset(rest) == multiset(was) + multiset{t}
    requires h.seqNo < t.seqNo && forall x | x in was :: h.seqNo < x.seqNo
    ensures Ascending([h] + rest)
  {
    forall x | x in rest ensures h.seqNo < x.seqNo {
      assert x in multiset(rest);
    }
  }

  lemma {:induction false} InsertSorts(t: Task, ts: seq<Task>)
    requires Ascending(ts) && forall x | x in ts :: x.seqNo != t.seqNo
    ensures Ascending(Insert(t, ts)) && multiset(Insert(t, ts)) == multiset(ts) + multiset{t}
  {
    if ts != [] && t.seqNo >= ts[0].seqNo {
      InsertSorts(t, ts[1..]);
      assert ts == [ts[0]] + ts[1..];
      ConsAscending(ts[0], Insert(t, ts[1..]), ts[1..], t);
    }
  }

  lemma {:induction false} SortSorts(ts: seq<Task>)
    requires DistinctSeqNos(ts)
    ensures Ascending(SortBySeqNo(ts)) && multiset(SortBySeqNo(ts)) == multiset(ts)
  {
    if ts != [] {
      SortSorts(ts[1..]);
      assert ts == [ts[0]] + ts[1..];
      var rest := SortBySeqNo(ts[1..]);
      forall x | x in rest ensures x.seqNo != ts[0].seqNo {
        assert x in multiset(ts[1..]);
      }
      InsertSorts(ts[0], rest);
    }
  }

  lemma {:induction false} LeastFirst(a: seq<Task>, b: seq<Task>)
    requires Ascending(a) && Ascending(b) && multiset(a) == multiset(b) && a != []
    ensures b != [] && b[0].seqNo <= a[0].seqNo && (b[0].seqNo == a[0].seqNo ==> a[0] == b[0])
  {
    assert a[0] in multiset(b);
    assert a[0] in b;
  }

  lemma {:induction false} TailMultiset(a: seq<Task>)
    requires a != []
    ensures multiset(a[1..]) == multiset(a) - multiset{a[0]}
  {
    assert a == [a[0]] + a[1..];
  }

  /** Sorted in one way only: the instability of the library's sort cannot show. */
  lemma {:induction false} SortUnique(a: seq<Task>, b: seq<Task>)
    requires Ascending(a) && Ascending(b) && multiset(a) == multiset(b)
    ensures a == b
  {
    assert |a| == |multiset(a)| == |multiset(b)| == |b|;
    if a != [] {
      LeastFirst(a, b);
      LeastFirst(b, a);
      TailMultiset(a);
      TailMultiset(b);
      SortUnique(a[1..], b[1..]);
      assert a == [a[0]] + a[1..] && b == [b[0]] + b[1..];
    }
  }
}

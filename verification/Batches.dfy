/** Moving jobs back in batches: any batch size from one up ends, leaves nothing to move, and
    ends in the very state one single batch would. */
module Batches {
  import opened Rows
  import opened Ordering
  import opened Managing
  import opened Lives

  lemma {:induction false} MoveSeqConcat(db: Db, xs: seq<Key>, ys: seq<Key>, from: JobState)
    ensures MoveSeq(db, xs + ys, from) == MoveSeq(MoveSeq(db, xs, from), ys, from)
  {
    hide MoveOne;
    if ys == [] {
      assert xs + ys == xs;
    } else {
      var all := xs + ys;
      assert all[..|all| - 1] == xs + ys[..|ys| - 1];
      MoveSeqConcat(db, xs, ys[..|ys| - 1], from);
    }
  }

  ghost function Batch(db: Db, q: QueueId, st: JobState, count: nat, upTo: Millis): seq<Key> {
    FirstN(Sorted(BatchOrder(st), db.jobs, Movable(db, q, st, upTo)), count)
  }

  predicate Source(st: JobState) {
    st == Completed || st == Failed || st == Delayed
  }

  /** A batch takes its rows out of the selection and leaves the others in. */
  lemma BatchLeaves(db: Db, q: QueueId, st: JobState, count: nat, upTo: Millis)
    requires Source(st)
    ensures var b := Batch(db, q, st, count, upTo); var db' := MoveSeq(db, b, st);
      && Movable(db', q, st, upTo) == Movable(db, q, st, upTo) - Elements(b)
      && (forall k | k in Movable(db', q, st, upTo) :: db'.jobs[k] == db.jobs[k])
  {
    hide Sorted, FirstN, MoveSeq;
    var b := Batch(db, q, st, count, upTo);
    MovedListed(db, q, st, count, upTo);
    MoveSeqRows(db, b, st);
  }

  lemma BatchIsPrefix(db: Db, q: QueueId, st: JobState, count: nat, upTo: Millis)
    ensures var all := Sorted(BatchOrder(st), db.jobs, Movable(db, q, st, upTo));
      var n := if |all| <= count then |all| else count;
      Batch(db, q, st, count, upTo) == all[..n] && all[..n] <= all
  {
    var all := Sorted(BatchOrder(st), db.jobs, Movable(db, q, st, upTo));
    assert all[..|all|] == all;
  }

  lemma RestListed(db: Db, q: QueueId, st: JobState, count: nat, upTo: Millis)
    requires Source(st)
    ensures var b := Batch(db, q, st, count, upTo); var db' := MoveSeq(db, b, st);
      var rest := Movable(db', q, st, upTo);
      rest == Movable(db, q, st, upTo) - Elements(b) && rest <= db.jobs.Keys
      && Sorted(BatchOrder(st), db.jobs, rest) == Sorted(BatchOrder(st), db'.jobs, rest)
  {
    hide Movable, MoveSeq, Sorted, Batch, RankOf, BatchOrder;
    var b := Batch(db, q, st, count, upTo);
    var db' := MoveSeq(db, b, st);
    BatchLeaves(db, q, st, count, upTo);
    SortedSameRanks(BatchOrder(st), db.jobs, db'.jobs, Movable(db', q, st, upTo));
  }

  lemma SuffixListed(o: SortBy, jobs: map<Key, Job>, s: set<Key>, b: seq<Key>)
    requires s <= jobs.Keys && b <= Sorted(o, jobs, s)
    ensures Sorted(o, jobs, s) == b + Sorted(o, jobs, s - Elements(b))
  {
    hide Sorted, Elements;
    var all := Sorted(o, jobs, s);
    assert all[..|b|] == b;
    SortedSuffix(o, jobs, s, |b|);
    assert all == all[..|b|] + all[|b|..];
  }

  /** What is left after a batch is listed as it was listed before. */
  lemma BatchSuffix(db: Db, q: QueueId, st: JobState, count: nat, upTo: Millis)
    requires Source(st)
    ensures var b := Batch(db, q, st, count, upTo); var db' := MoveSeq(db, b, st);
      Sorted(BatchOrder(st), db.jobs, Movable(db, q, st, upTo)) ==
        b + Sorted(BatchOrder(st), db'.jobs, Movable(db', q, st, upTo))
  {
    hide *;
    BatchIsPrefix(db, q, st, count, upTo);
    SuffixListed(BatchOrder(st), db.jobs, Movable(db, q, st, upTo), Batch(db, q, st, count, upTo));
    RestListed(db, q, st, count, upTo);
  }

  lemma BatchSize(db: Db, q: QueueId, st: JobState, count: nat, upTo: Millis)
    requires Source(st) && count >= 1
    ensures var b := Batch(db, q, st, count, upTo); var s := Movable(db, q, st, upTo);
      && |Movable(MoveSeq(db, b, st), q, st, upTo)| == |s| - |b|
      && (s != {} ==> |b| >= 1) && (|s| < count ==> |b| == |s|) && |b| <= |s|
  {
    hide Movable, MoveSeq, Elements;
    BatchSuffix(db, q, st, count, upTo);
    BatchIsPrefix(db, q, st, count, upTo);
  }

  /** The caller's loop: batches of `count` until one reports that nothing is left. */
  ghost function MoveLoop(db: Db, q: QueueId, from: JobState, count: nat, upTo: Millis): Db
    requires count >= 1
    decreases |Movable(db, q, SourceState(from), upTo)|
  {
    BatchSize(db, q, SourceState(from), count, upTo);
    if MoreToMove(db, q, from, count, upTo) then MoveLoop(MoveBatch(db, q, from, count, upTo), q, from, count, upTo)
    else MoveBatch(db, q, from, count, upTo)
  }

  /** Everything selected, moved at once. */
  ghost function MoveAll(db: Db, q: QueueId, from: JobState, upTo: Millis): Db {
    var st := SourceState(from);
    MoveSeq(db, Sorted(BatchOrder(st), db.jobs, Movable(db, q, st, upTo)), st)
  }

  /** Batch size does not matter: states, sequence numbers and counters come out the same, and
      no row is left. */
  lemma {:induction false} BatchesAgree(db: Db, q: QueueId, from: JobState, count: nat, upTo: Millis)
    requires count >= 1
    ensures MoveLoop(db, q, from, count, upTo) == MoveAll(db, q, from, upTo)
    ensures Movable(MoveLoop(db, q, from, count, upTo), q, SourceState(from), upTo) == {}
    decreases |Movable(db, q, SourceState(from), upTo)|
  {
    hide Movable, MoveSeq, Sorted, FirstN;
    var st := SourceState(from);
    var b := Batch(db, q, st, count, upTo);
    var db1 := MoveSeq(db, b, st);
    var rest := Sorted(BatchOrder(st), db1.jobs, Movable(db1, q, st, upTo));
    BatchSize(db, q, st, count, upTo);
    BatchSuffix(db, q, st, count, upTo);
    MoveSeqConcat(db, b, rest, st);
    assert db1 == MoveBatch(db, q, from, count, upTo);
    if MoreToMove(db, q, from, count, upTo) {
      BatchesAgree(db1, q, from, count, upTo);
    } else {
      assert Movable(db1, q, st, upTo) == {};
      assert rest == [];
      MoveNone(db1, st);
    }
  }

  lemma MoveNone(db: Db, st: JobState)
    ensures MoveSeq(db, [], st) == db
  {}
}

/** The batched move back to the wait list, said in columns: which rows a batch takes, where it
    puts them, and in what order. */
module Moving {
  import opened Rows
  import opened Ordering
  import opened Tables
  import opened Claiming
  import opened Managing
  import opened Machine
  import opened Frames
  import opened Lives
  import opened Trimming
  import opened Batches
  import opened Picking

  /** The state a call empties: completed or delayed when asked for, failed otherwise. */
  function From(from: JobState): JobState {
    if from == Completed || from == Delayed then from else Failed
  }

  /** The time a row is selected and ordered by. */
  function MoveTime(from: JobState, j: Job): Option<Millis> {
    if From(from) == Delayed then j.processAt else j.finishedOn
  }

  /** In the state asked for, and its time has come; a finished row without a time counts as time 0. */
  ghost predicate Chosen(db: Db, q: QueueId, from: JobState, upTo: Millis, k: Key) {
    k in db.jobs && k.queue == q && db.jobs[k].state == From(from)
    && match MoveTime(from, db.jobs[k])
       case Some(t) => t <= upTo
       case None => From(from) != Delayed && 0 <= upTo
  }

  /** The earlier time first, rows without one last, and of equal ones the older row. */
  predicate Earlier(from: JobState, x: Job, y: Job) {
    var tx, ty := MoveTime(from, x), MoveTime(from, y);
    if tx == ty then x.pk < y.pk else tx.Some? && (ty.None? || tx.value < ty.value)
  }

  /** The chosen rows that come before `k`; the key breaks ties distinct primary keys never leave. */
  ghost function EarlierChosen(db: Db, q: QueueId, from: JobState, upTo: Millis, k: Key): set<Key>
    requires k in db.jobs
  {
    set x | x in db.jobs && Chosen(db, q, from, upTo, x)
      && (Earlier(from, db.jobs[x], db.jobs[k])
          || (MoveTime(from, db.jobs[x]) == MoveTime(from, db.jobs[k]) && db.jobs[x].pk == db.jobs[k].pk
              && (x.queue < k.queue || (x.queue == k.queue && x.id < k.id))))
  }

  /** Only delayed rows with a priority go back to their priority. */
  predicate ToPriority(from: JobState, j: Job) {
    From(from) == Delayed && j.priority > 0
  }

  /** A row moved back between `q` and `q'`: no due time, no delay, no finish time, and a new sequence. */
  predicate MovedAs(from: JobState, q: Queue, q': Queue, j: Job, j': Job) {
    if ToPriority(from, j) then
      && j'.prioSeq.Some? && q.prioNum < j'.prioSeq.value <= q'.prioNum
      && j' == j.(state := if q.paused then Paused else Prioritized, prioSeq := j'.prioSeq,
                  processAt := None, delayMs := 0, finishedOn := None)
    else
      && j'.waitSeq.Some? && q.waitNum < j'.waitSeq.value <= q'.waitNum
      && j' == j.(state := if q.paused then Paused else Wait, waitSeq := j'.waitSeq, prioSeq := None,
                  processAt := None, delayMs := 0, finishedOn := None)
  }

  /** Of two moved rows that take the same kind of sequence the first takes the lower one. */
  predicate InSequence(from: JobState, x: Job, y: Job) {
    && (!ToPriority(from, x) && !ToPriority(from, y) ==>
          x.waitSeq.Some? && y.waitSeq.Some? && x.waitSeq.value < y.waitSeq.value)
    && (ToPriority(from, x) && ToPriority(from, y) ==>
          x.prioSeq.Some? && y.prioSeq.Some? && x.prioSeq.value < y.prioSeq.value)
  }

  ghost predicate AllMovedAs(from: JobState, db: Db, db': Db, q: QueueId, ks: seq<Key>) {
    forall i | 0 <= i < |ks| ::
      ks[i] in db.jobs && ks[i] in db'.jobs
      && MovedAs(from, QueueOf(db, q), QueueOf(db', q), db.jobs[ks[i]], db'.jobs[ks[i]])
  }

  ghost predicate AllInSequence(from: JobState, db': Db, ks: seq<Key>) {
    forall i, j | 0 <= i < j < |ks| ::
      ks[i] in db'.jobs && ks[j] in db'.jobs && InSequence(from, db'.jobs[ks[i]], db'.jobs[ks[j]])
  }

  ghost predicate MovesOne(from: JobState, db1: Db, db': Db, q: QueueId, k: Key) {
    && k in db1.jobs && db' == db1.(jobs := db'.jobs, queues := db'.queues)
    && k in db'.jobs && db'.jobs == db1.jobs[k := db'.jobs[k]]
    && (forall o | o != q :: QueueOf(db', o) == QueueOf(db1, o))
    && SequencesGrow(QueueOf(db1, q), QueueOf(db', q))
    && MovedAs(from, QueueOf(db1, q), QueueOf(db', q), db1.jobs[k], db'.jobs[k])
  }

  lemma MoveOneMoves(from: JobState, db: Db, q: QueueId, k: Key)
    requires k in db.jobs && k.queue == q
    ensures MovesOne(from, db, MoveOne(db, k, From(from)), q, k)
  {}

  lemma OneMoved(from: JobState, db: Db, db1: Db, db': Db, q: QueueId, front: seq<Key>, k: Key)
    requires PromotesOnly(db, db1, q, front) && AllMovedAs(from, db, db1, q, front) && AllInSequence(from, db1, front)
    requires k in db.jobs && k !in front && MovesOne(from, db1, db', q, k)
    ensures var ks := front + [k];
      PromotesOnly(db, db', q, ks) && AllMovedAs(from, db, db', q, ks) && AllInSequence(from, db', ks)
  {
    hide QueueOf, MovedAs, InSequence, PromotesOnly, MovesOne;
    var ks := front + [k];
    SameKeys(db, db1, q, front);
    forall i | 0 <= i < |front| ensures ks[i] == front[i] && front[i] in front && front[i] != k {}
    OnlyMore(from, db, db1, db', q, front, k);
    forall i | 0 <= i < |ks| ensures ks[i] in db.jobs && ks[i] in db'.jobs
      && MovedAs(from, QueueOf(db, q), QueueOf(db', q), db.jobs[ks[i]], db'.jobs[ks[i]])
    {
      if i < |front| { MovedStays(from, db, db1, db', q, front, i, k); }
      else { MovedLast(from, db, db1, db', q, front, k); }
    }
    forall i, j | 0 <= i < j < |ks|
      ensures ks[i] in db'.jobs && ks[j] in db'.jobs && InSequence(from, db'.jobs[ks[i]], db'.jobs[ks[j]])
    {
      if j == |front| { MovedBehind(from, db, db1, db', q, front, i, k); }
      else { assert AllInSequence(from, db1, front); }
    }
  }

  lemma OnlyMore(from: JobState, db: Db, db1: Db, db': Db, q: QueueId, front: seq<Key>, k: Key)
    requires PromotesOnly(db, db1, q, front) && MovesOne(from, db1, db', q, k) && k in db.jobs && k !in front
    ensures PromotesOnly(db, db', q, front + [k])
    ensures k in db'.jobs
    ensures forall x | x in db.jobs && x != k :: x in db1.jobs && x in db'.jobs && db'.jobs[x] == db1.jobs[x]
  {
    hide MovedAs, QueueOf;
  }

  lemma MovedStays(from: JobState, db: Db, db1: Db, db': Db, q: QueueId, front: seq<Key>, i: nat, k: Key)
    requires AllMovedAs(from, db, db1, q, front) && MovesOne(from, db1, db', q, k) && i < |front| && front[i] != k
    ensures front[i] in db.jobs && front[i] in db'.jobs
      && MovedAs(from, QueueOf(db, q), QueueOf(db', q), db.jobs[front[i]], db'.jobs[front[i]])
  {
    hide QueueOf;
    assert MovedAs(from, QueueOf(db, q), QueueOf(db1, q), db.jobs[front[i]], db1.jobs[front[i]]);
  }

  lemma MovedLast(from: JobState, db: Db, db1: Db, db': Db, q: QueueId, front: seq<Key>, k: Key)
    requires PromotesOnly(db, db1, q, front) && MovesOne(from, db1, db', q, k) && k in db.jobs && k !in front
    ensures MovedAs(from, QueueOf(db, q), QueueOf(db', q), db.jobs[k], db'.jobs[k])
  {
    hide QueueOf;
    assert db1.jobs[k] == db.jobs[k];
  }

  lemma MovedBehind(from: JobState, db: Db, db1: Db, db': Db, q: QueueId, front: seq<Key>, i: nat, k: Key)
    requires AllMovedAs(from, db, db1, q, front) && MovesOne(from, db1, db', q, k) && i < |front| && front[i] != k
    ensures front[i] in db'.jobs && InSequence(from, db'.jobs[front[i]], db'.jobs[k])
  {
    hide QueueOf;
    assert MovedAs(from, QueueOf(db, q), QueueOf(db1, q), db.jobs[front[i]], db1.jobs[front[i]]);
  }

  predicate AllHere(db: Db, q: QueueId, ks: seq<Key>) {
    Distinct(ks) && forall i | 0 <= i < |ks| :: ks[i] in db.jobs && ks[i].queue == q
  }

  lemma AllHereSnoc(db: Db, q: QueueId, front: seq<Key>, k: Key)
    requires AllHere(db, q, front + [k])
    ensures AllHere(db, q, front) && k in db.jobs && k.queue == q && k !in front
  {
    var ks := front + [k];
    assert ks[|front|] == k;
    forall i | 0 <= i < |front| ensures front[i] == ks[i] {}
  }

  lemma MoveSeqSnoc(db: Db, front: seq<Key>, k: Key, st: JobState)
    ensures var db1 := MoveSeq(db, front, st);
      MoveSeq(db, front + [k], st) == if k in db1.jobs then MoveOne(db1, k, st) else db1
  {
    hide MoveOne;
    assert (front + [k])[..|front|] == front;
  }

  lemma {:induction false} MoveSeqColumns(from: JobState, db: Db, q: QueueId, ks: seq<Key>)
    requires AllHere(db, q, ks)
    ensures var db' := MoveSeq(db, ks, From(from));
      PromotesOnly(db, db', q, ks) && AllMovedAs(from, db, db', q, ks) && AllInSequence(from, db', ks)
  {
    if ks == [] {
      assert MoveSeq(db, ks, From(from)) == db;
    } else {
      hide MoveOne, MoveSeq, AllHere, PromotesOnly, AllMovedAs, AllInSequence, MovesOne;
      var front, k := ks[..|ks| - 1], ks[|ks| - 1];
      var db1 := MoveSeq(db, front, From(from));
      assert ks == front + [k];
      AllHereSnoc(db, q, front, k);
      MoveSeqColumns(from, db, q, front);
      MoveSeqSnoc(db, front, k, From(from));
      SameKeys(db, db1, q, front);
      MoveOneMoves(from, db1, q, k);
      OneMoved(from, db, db1, MoveSeq(db, ks, From(from)), q, front, k);
    }
  }

  // ---------------------------------------------------------------- the batch

  lemma ChosenMovable(db: Db, q: QueueId, from: JobState, upTo: Millis, k: Key)
    ensures k in Movable(db, q, SourceState(from), upTo) <==> Chosen(db, q, from, upTo, k)
  {}

  /** Where a chosen row stands in the listing. */
  lemma ChosenAt(db: Db, q: QueueId, from: JobState, upTo: Millis, k: Key) returns (i: nat)
    requires Chosen(db, q, from, upTo, k)
    ensures var st := SourceState(from); var r := Sorted(BatchOrder(st), db.jobs, Movable(db, q, st, upTo));
      i < |r| && r[i] == k && i == |EarlierChosen(db, q, from, upTo, k)|
  {
    hide Sorted, RankLess, KeyLess, Movable, Chosen;
    var st := SourceState(from);
    var o, rows := BatchOrder(st), Movable(db, q, st, upTo);
    var r := Sorted(o, db.jobs, rows);
    SortedInOrder(o, db.jobs, rows);
    ChosenMovable(db, q, from, upTo, k);
    assert k in r;
    i :| 0 <= i < |r| && r[i] == k;
    EarlierCount(o, db.jobs, r, i);
    forall x ensures x in r && Before(o, db.jobs, x, k) <==> x in EarlierChosen(db, q, from, upTo, k) {
      ChosenMovable(db, q, from, upTo, x);
      if x in r { EarlierIsBefore(db, q, from, upTo, x, k); }
    }
    assert (set x | x in r && Before(o, db.jobs, x, r[i])) == EarlierChosen(db, q, from, upTo, k);
  }

  lemma EarlierIsBefore(db: Db, q: QueueId, from: JobState, upTo: Millis, x: Key, k: Key)
    requires Chosen(db, q, from, upTo, x) && k in db.jobs
    ensures Before(BatchOrder(SourceState(from)), db.jobs, x, k) <==> x in EarlierChosen(db, q, from, upTo, k)
  {
    hide Chosen;
    assert x in db.jobs by { ChosenHere(db, q, from, upTo, x); }
  }

  lemma ChosenHere(db: Db, q: QueueId, from: JobState, upTo: Millis, x: Key)
    requires Chosen(db, q, from, upTo, x)
    ensures x in db.jobs
  {}

  /** The row is among the `count` earliest chosen. */
  ghost predicate InBatch(db: Db, q: QueueId, from: JobState, count: nat, upTo: Millis, k: Key) {
    Chosen(db, q, from, upTo, k) && |EarlierChosen(db, q, from, upTo, k)| < count
  }

  lemma InBatchExactly(db: Db, q: QueueId, from: JobState, count: nat, upTo: Millis, k: Key)
    ensures InBatch(db, q, from, count, upTo, k) <==> k in Batch(db, q, SourceState(from), count, upTo)
  {
    hide Sorted, Movable, Chosen, EarlierChosen;
    var st := SourceState(from);
    var r := Sorted(BatchOrder(st), db.jobs, Movable(db, q, st, upTo));
    SortedInOrder(BatchOrder(st), db.jobs, Movable(db, q, st, upTo));
    ChosenMovable(db, q, from, upTo, k);
    if Chosen(db, q, from, upTo, k) {
      var i := ChosenAt(db, q, from, upTo, k);
      InFirstN(BatchOrder(st), db.jobs, r, i, count);
    } else {
      assert k !in r;
    }
  }

  /** A batch moves exactly the `count` earliest chosen rows, each to the list its priority and the pause
      flag say, and nothing else. */
  lemma MovesExactly(db: Db, q: QueueId, from: JobState, count: nat, upTo: Millis, k: Key)
    requires k in db.jobs
    ensures var db' := Step(db, OpMoveBatch(q, from, count, upTo));
      && db' == db.(jobs := db'.jobs, queues := db'.queues) && db'.jobs.Keys == db.jobs.Keys
      && SequencesGrow(QueueOf(db, q), QueueOf(db', q)) && (forall o | o != q :: QueueOf(db', o) == QueueOf(db, o))
      && if InBatch(db, q, from, count, upTo, k)
         then MovedAs(from, QueueOf(db, q), QueueOf(db', q), db.jobs[k], db'.jobs[k])
         else db'.jobs[k] == db.jobs[k]
  {
    hide Sorted, Chosen, InBatch, MoveSeq, MovedAs, InSequence, QueueOf, SequencesGrow;
    var ks := Batch(db, q, SourceState(from), count, upTo);
    MovedListed(db, q, SourceState(from), count, upTo);
    MoveSeqColumns(from, db, q, ks);
    InBatchExactly(db, q, from, count, upTo, k);
  }

  lemma EarlierIndex(db: Db, q: QueueId, from: JobState, count: nat, upTo: Millis, x: Key, y: Key)
    returns (i: nat, j: nat)
    requires InBatch(db, q, from, count, upTo, x) && InBatch(db, q, from, count, upTo, y)
    requires x in db.jobs && y in db.jobs && Earlier(from, db.jobs[x], db.jobs[y])
    ensures var ks := Batch(db, q, SourceState(from), count, upTo);
      i < j < |ks| && ks[i] == x && ks[j] == y
  {
    hide Sorted, InBatch, Earlier, RankOf, RankLess, KeyLess, Before, Movable;
    var st := SourceState(from);
    var ks := Batch(db, q, st, count, upTo);
    InBatchExactly(db, q, from, count, upTo, x);
    InBatchExactly(db, q, from, count, upTo, y);
    i :| 0 <= i < |ks| && ks[i] == x;
    j :| 0 <= j < |ks| && ks[j] == y;
    SortedInOrder(BatchOrder(st), db.jobs, Movable(db, q, st, upTo));
    EarlierRanksFirst(from, db, x, y);
    BeforeIsStrictTotal(BatchOrder(st), db.jobs, x, y, x);
  }

  /** Of two rows a batch moves the earlier one goes in front. */
  lemma MovesEarliestFirst(db: Db, q: QueueId, from: JobState, count: nat, upTo: Millis, x: Key, y: Key)
    requires InBatch(db, q, from, count, upTo, x) && InBatch(db, q, from, count, upTo, y)
    requires x in db.jobs && y in db.jobs && Earlier(from, db.jobs[x], db.jobs[y])
    ensures var db' := Step(db, OpMoveBatch(q, from, count, upTo));
      x in db'.jobs && y in db'.jobs && InSequence(from, db'.jobs[x], db'.jobs[y])
  {
    hide Sorted, InBatch, MoveSeq, InSequence, QueueOf, Earlier, AllMovedAs, PromotesOnly, Movable;
    var st := SourceState(from);
    var ks := Batch(db, q, st, count, upTo);
    BatchHere(db, q, st, count, upTo);
    MoveSeqColumns(from, db, q, ks);
    var i, j := EarlierIndex(db, q, from, count, upTo, x, y);
  }

  lemma BatchHere(db: Db, q: QueueId, st: JobState, count: nat, upTo: Millis)
    ensures AllHere(db, q, Batch(db, q, st, count, upTo))
  {
    hide Sorted, FirstN;
    MovedListed(db, q, st, count, upTo);
  }

  lemma EarlierRanksFirst(from: JobState, db: Db, x: Key, y: Key)
    requires x in db.jobs && y in db.jobs && Earlier(from, db.jobs[x], db.jobs[y])
    ensures Before(BatchOrder(SourceState(from)), db.jobs, x, y)
  {}

  /** A batch reports that more is left if and only if it was asked for some and more were chosen than it
      was asked for. */
  lemma MoreExactly(db: Db, q: QueueId, from: JobState, count: nat, upTo: Millis)
    ensures MoreToMove(db, q, from, count, upTo) <==>
      0 < count < |set k | k in db.jobs && Chosen(db, q, from, upTo, k)|
  {
    hide MoveBatch, Movable, Chosen;
    var st := SourceState(from);
    var all := set k | k in db.jobs && Chosen(db, q, from, upTo, k);
    forall k ensures k in all <==> k in Movable(db, q, st, upTo) {
      ChosenMovable(db, q, from, upTo, k);
      if Chosen(db, q, from, upTo, k) { ChosenHere(db, q, from, upTo, k); }
    }
    assert all == Movable(db, q, st, upTo);
    BatchIsPrefix(db, q, st, count, upTo);
    if count >= 1 { BatchSize(db, q, st, count, upTo); }
    assert MoveBatch(db, q, from, count, upTo) == MoveSeq(db, Batch(db, q, st, count, upTo), st) by {
      BatchMoves(db, q, from, count, upTo);
    }
  }

  lemma BatchMoves(db: Db, q: QueueId, from: JobState, count: nat, upTo: Millis)
    ensures MoveBatch(db, q, from, count, upTo) ==
      MoveSeq(db, Batch(db, q, SourceState(from), count, upTo), SourceState(from))
  {
    hide MoveSeq, Sorted;
  }
}

/** Keeping the newest finished jobs: which rows survive the trim of a finish, and how many. */
module Trimming {
  import opened Rows
  import opened Ordering
  import opened Tables
  import opened Places
  import opened Linking
  import opened Adding
  import opened Claiming
  import opened Ending
  import opened Managing
  import opened Flows
  import opened Machine
  import opened Frames
  import opened Lives
  import opened Waiting
  import opened Parents
  import opened Routing
  import opened Releasing

  /** The first `n` rows, newest finish first, that are within the age limit. */
  ghost function Newest(jobs: map<Key, Job>, rows: set<Key>, keep: Option<nat>, age: Option<int>, now: Millis): set<Key>
    requires rows <= jobs.Keys
  {
    var listed := Sorted(ByNewestFinish, jobs, rows);
    var first := if keep.Some? then FirstN(listed, keep.value) else listed;
    set k | k in rows && k in first && !TooOld(jobs[k], age, now)
  }

  lemma {:induction false} ElementsCount(r: seq<Key>)
    requires Distinct(r)
    ensures |Elements(r)| == |r|
  {
    if r != [] {
      var front, x := r[..|r| - 1], r[|r| - 1];
      ElementsCount(front);
      assert r == front + [x];
      assert Elements(r) == Elements(front) + {x};
    }
  }

  /** In a listing, the rows before position `i` are the first `i`. */
  lemma EarlierRows(o: SortBy, jobs: map<Key, Job>, r: seq<Key>, i: nat, x: Key)
    requires InOrder(o, jobs, r) && i < |r|
    ensures x in Elements(r[..i]) <==> x in r && Before(o, jobs, x, r[i])
  {
    hide RankOf;
    if x in r && Before(o, jobs, x, r[i]) {
      var j :| 0 <= j < |r| && r[j] == x;
      NotBeforeEarlier(o, jobs, r, i, j);
      assert r[..i][j] == x;
    }
  }

  /** The rows listed before position `i` are the first `i`, and there are `i` of them. */
  lemma EarlierCount(o: SortBy, jobs: map<Key, Job>, r: seq<Key>, i: nat)
    requires InOrder(o, jobs, r) && i < |r|
    ensures |set x | x in r && Before(o, jobs, x, r[i])| == i
  {
    hide RankOf, RankLess, KeyLess;
    var before := set x | x in r && Before(o, jobs, x, r[i]);
    forall x ensures x in before <==> x in Elements(r[..i]) { EarlierRows(o, jobs, r, i, x); }
    forall a, b | 0 <= a < b < i ensures r[..i][a] != r[..i][b] { InOrderDistinct(o, jobs, r, a, b); }
    ElementsCount(r[..i]);
    assert before == Elements(r[..i]);
  }

  /** The row number the trim counts is the position in the listing. */
  lemma RowNumberIsPosition(db: Db, rows: set<Key>, i: nat)
    requires rows <= db.jobs.Keys && i < |rows|
    ensures var r := Sorted(ByNewestFinish, db.jobs, rows);
      r[i] in rows && RowNumber(db, rows, r[i]) == i + 1
  {
    hide Sorted, RankOf, RankLess, KeyLess, InOrder;
    var r := Sorted(ByNewestFinish, db.jobs, rows);
    SortedInOrder(ByNewestFinish, db.jobs, rows);
    assert r[i] in r;
    EarlierCount(ByNewestFinish, db.jobs, r, i);
    assert (set x | x in rows && Before(ByNewestFinish, db.jobs, x, r[i]))
      == (set x | x in r && Before(ByNewestFinish, db.jobs, x, r[i]));
  }

  lemma NotBeforeEarlier(o: SortBy, jobs: map<Key, Job>, r: seq<Key>, i: nat, j: nat)
    requires InOrder(o, jobs, r) && i < |r| && j < |r| && Before(o, jobs, r[j], r[i])
    ensures j < i
  {
    BeforeIsStrictTotal(o, jobs, r[i], r[j], r[i]);
  }

  /** The trim removes exactly the rows that are not among the newest. */
  lemma DoomedIsRest(db: Db, q: QueueId, st: JobState, keep: Option<nat>, age: Option<int>)
    ensures var rows := EndedRows(db, q, st);
      rows - Doomed(db, q, st, keep, age) == Newest(db.jobs, rows, keep, age, db.now)
  {
    hide RowNumber, TooOld;
    var rows := EndedRows(db, q, st);
    var r := Sorted(ByNewestFinish, db.jobs, rows);
    SortedInOrder(ByNewestFinish, db.jobs, rows);
    forall k | k in rows ensures keep.Some? ==> (RowNumber(db, rows, k) > keep.value <==> k !in FirstN(r, keep.value)) {
      if keep.Some? {
        assert k in r;
        var i :| 0 <= i < |r| && r[i] == k;
        RowNumberIsPosition(db, rows, i);
        InFirstN(ByNewestFinish, db.jobs, r, i, keep.value);
      }
    }
    forall k | k in rows ensures k in r {}
  }

  lemma InFirstN(o: SortBy, jobs: map<Key, Job>, r: seq<Key>, i: nat, n: nat)
    requires InOrder(o, jobs, r) && i < |r|
    ensures r[i] in FirstN(r, n) <==> i < n
  {
    var first := FirstN(r, n);
    if r[i] in first {
      var j :| 0 <= j < |first| && first[j] == r[i];
      if j < i { InOrderDistinct(o, jobs, r, j, i); }
      if i < j { InOrderDistinct(o, jobs, r, i, j); }
    }
    if i < n { assert first[i] == r[i]; }
  }

  lemma {:induction false} NewestCount(jobs: map<Key, Job>, rows: set<Key>, n: nat, age: Option<int>, now: Millis)
    requires rows <= jobs.Keys
    ensures |Newest(jobs, rows, Some(n), age, now)| <= n
  {
    var first := FirstN(Sorted(ByNewestFinish, jobs, rows), n);
    var s := Newest(jobs, rows, Some(n), age, now);
    SmallerSet(s, Elements(first));
    ElementsAtMost(first);
  }

  lemma {:induction false} ElementsAtMost(r: seq<Key>)
    ensures |Elements(r)| <= |r|
  {
    if r != [] {
      var front, x := r[..|r| - 1], r[|r| - 1];
      ElementsAtMost(front);
      assert r == front + [x];
      assert Elements(r) == Elements(front) + {x};
    }
  }

  // ---------------------------------------------------------------- up to the trim, finished rows stay

  ghost predicate EndedAlike(db: Db, db': Db) {
    forall k | k in db.jobs || k in db'.jobs :: EndedSame(db.jobs, db'.jobs, k)
  }

  /** Finished in both tables, alike in what the trim looks at, or in neither. */
  predicate EndedSame(jobs: map<Key, Job>, jobs': map<Key, Job>, k: Key) {
    var f, f' := k in jobs && Finished(jobs[k]), k in jobs' && Finished(jobs'[k]);
    f == f' && (f && f' ==>
      jobs'[k].state == jobs[k].state && jobs'[k].finishedOn == jobs[k].finishedOn && jobs'[k].pk == jobs[k].pk)
  }

  /** A calm change that removes no row leaves the finished ones alone. */
  lemma CalmEndedAlike(db: Db, db': Db)
    requires Calm(db, db') && PksBounded(db)
    requires forall k | k in db.jobs :: k in db'.jobs && db'.jobs[k].pk == db.jobs[k].pk
    ensures EndedAlike(db, db')
  {
    hide EndedSame, Calm;
    forall k | k in db.jobs || k in db'.jobs ensures EndedSame(db.jobs, db'.jobs, k) { CalmEndedSame(db, db', k); }
  }

  lemma CalmEndedSame(db: Db, db': Db, k: Key)
    requires Calm(db, db') && PksBounded(db) && (k in db.jobs || k in db'.jobs)
    requires k in db.jobs ==> k in db'.jobs && db'.jobs[k].pk == db.jobs[k].pk
    ensures EndedSame(db.jobs, db'.jobs, k)
  {
    assert KeptOrNew(db, db', k);
  }

  lemma NotifyEndedAlike(db: Db, a: FinishArgs, opts: JobOpts)
    requires Standing(db) && InPlace(db)
    ensures EndedAlike(db, NotifyParents(db, a, opts))
  {
    hide SettleParents, ForceParents, ResolveEdges, Standing, Notified, QueuesCalm, Released, Lets, Calm, InPlace;
    hide EndedAlike;
    NotifySplit(db, a, opts);
    StandsGrounded(db);
    NotifiedListed(db, a);
    var ps, db2 := Notified(db, a), Resolved(db, a, opts);
    ResolvedQueues(db, a, opts);
    var db1 := ResolveEdges(db, a.key, opts, a.ok, a.keep == Some(0));
    ResolveRooted(db, a.key, opts, a.ok, a.keep == Some(0));
    ForceParentsShape(db1, ps);
    SettleParentsExactly(db2, ps, !a.ok && opts.cpof);
    NotifyParentsCalm(db, a, opts);
    CalmEndedAlike(db, NotifyParents(db, a, opts)) by { StandsPks(db); }
  }

  lemma EndedAlikeTrans(a: Db, b: Db, c: Db)
    requires EndedAlike(a, b) && EndedAlike(b, c)
    ensures EndedAlike(a, c)
  {
    forall k | k in a.jobs || k in c.jobs ensures EndedSame(a.jobs, c.jobs, k) {
      assert k in a.jobs || k in b.jobs ==> EndedSame(a.jobs, b.jobs, k);
      assert k in b.jobs || k in c.jobs ==> EndedSame(b.jobs, c.jobs, k);
    }
  }

  lemma KeepsEndedAlike(db: Db, db': Db)
    requires Keeps(db, db') && Gentle(db, db') && PksBounded(db)
    ensures EndedAlike(db, db')
  {
    CalmEndedAlike(db, db');
  }

  lemma AlikeRows(db: Db, db': Db, q: QueueId, st: JobState)
    requires EndedAlike(db, db') && (st == Completed || st == Failed)
    ensures EndedRows(db', q, st) == EndedRows(db, q, st)
  {
    forall k ensures k in EndedRows(db', q, st) <==> k in EndedRows(db, q, st) {
      assert k in db.jobs || k in db'.jobs ==> EndedSame(db.jobs, db'.jobs, k);
    }
  }

  lemma AlikeRank(db: Db, db': Db, q: QueueId, st: JobState, age: Option<int>, k: Key)
    requires EndedAlike(db, db') && (st == Completed || st == Failed) && k in EndedRows(db, q, st)
    ensures k in db'.jobs && RankOf(ByNewestFinish, db.jobs[k]) == RankOf(ByNewestFinish, db'.jobs[k])
    ensures TooOld(db'.jobs[k], age, db.now) == TooOld(db.jobs[k], age, db.now)
  {
    assert EndedSame(db.jobs, db'.jobs, k);
  }

  lemma AlikeNewest(db: Db, db': Db, q: QueueId, st: JobState, keep: Option<nat>, age: Option<int>)
    requires EndedAlike(db, db') && db'.now == db.now && (st == Completed || st == Failed)
    ensures EndedRows(db', q, st) == EndedRows(db, q, st)
    ensures Newest(db'.jobs, EndedRows(db', q, st), keep, age, db'.now) ==
      Newest(db.jobs, EndedRows(db, q, st), keep, age, db.now)
  {
    hide EndedAlike, RankOf, TooOld, Sorted, FirstN;
    var rows := EndedRows(db, q, st);
    AlikeRows(db, db', q, st);
    forall k | k in rows
      ensures RankOf(ByNewestFinish, db.jobs[k]) == RankOf(ByNewestFinish, db'.jobs[k])
      ensures TooOld(db'.jobs[k], age, db.now) == TooOld(db.jobs[k], age, db.now)
    {
      AlikeRank(db, db', q, st, age, k);
    }
    SortedSameRanks(ByNewestFinish, db.jobs, db'.jobs, rows);
  }

  lemma TrimmedRows(db: Db, a: FinishArgs)
    requires a.keep != Some(0) && (a.keep.Some? || (a.age.Some? && a.age.value > 0))
    ensures var st := FinalState(a.ok); var rows := EndedRows(db, a.key.queue, st);
      EndedRows(Trim(db, a), a.key.queue, st) == Newest(db.jobs, rows, a.keep, a.age, db.now)
  {
    hide Doomed, Newest;
    DoomedIsRest(db, a.key.queue, FinalState(a.ok), a.keep, a.age);
  }

  /** Up to the trim a finish leaves the finished rows alone, the one it has just recorded included. */
  lemma FinishUpToTrim(db: Db, a: FinishArgs) returns (db3: Db)
    requires Sane(db) && Finishes(db, a)
    ensures DoFinish(db, a) == Trim(db3, a) && db3.now == db.now
    ensures EndedAlike(Put(db, a.key, EndedRow(db.jobs[a.key], a.ok, db.now)), db3)
  {
    hide Requeue, NotifyParents, Trim, Calm, Standing, InPlace, EdgesCalm, OnlyParks, Placid, Rooted, EndedAlike;
    hide EndedRows, Keeps, EndedRow;
    var j := db.jobs[a.key];
    assert Sound(LifeOf(j)) && j.state == Active;
    var db1 := Put(db, a.key, EndedRow(j, a.ok, db.now));
    EndedRooted(db, a);
    RootedStanding(db, db1);
    EndedInPlace(db, a);
    var db2 := Requeue(db1, a.key);
    RequeueKeeps(db1, a.key);
    GentleStanding(db1, db2);
    KeepsEndedAlike(db1, db2) by { StandsPks(db1); }
    CalmQueuesExist(db1, db2);
    db3 := NotifyParents(db2, a, j.payload.opts);
    NotifyEndedAlike(db2, a, j.payload.opts);
    EndedAlikeTrans(db1, db2, db3);
    NotifyParentsCalm(db2, a, j.payload.opts);
    CalmTrans(db1, db2, db3);
    CalmNow(db1, db3);
  }

  /** After a finish the jobs left in its state are exactly the newest `keep`, this one counted,
      that are within the age limit. */
  lemma FinishKeepsNewest(db: Db, a: FinishArgs)
    requires Sane(db) && Finishes(db, a) && a.keep != Some(0) && (a.keep.Some? || (a.age.Some? && a.age.value > 0))
    ensures var st := FinalState(a.ok);
      var db1 := Put(db, a.key, EndedRow(db.jobs[a.key], a.ok, db.now));
      EndedRows(DoFinish(db, a), a.key.queue, st) ==
        Newest(db1.jobs, EndedRows(db1, a.key.queue, st), a.keep, a.age, db.now)
  {
    hide DoFinish, Trim, EndedAlike, Newest, EndedRows, EndedRow, Sane;
    var db1 := Put(db, a.key, EndedRow(db.jobs[a.key], a.ok, db.now));
    var db3 := FinishUpToTrim(db, a);
    AlikeNewest(db1, db3, a.key.queue, FinalState(a.ok), a.keep, a.age);
    TrimmedRows(db3, a);
  }

  lemma CalmNow(db: Db, db': Db)
    requires Calm(db, db')
    ensures db'.now == db.now
  {}

  // ---------------------------------------------------------------- the bound over runs

  predicate KeepsCompleted(op: Op, q: QueueId, n: nat) {
    op.OpFinish? && op.finish.ok && op.finish.key.queue == q ==> op.finish.keep == Some(n)
  }

  lemma CompletedOnlyByFinish(db: Db, op: Op, q: QueueId)
    requires LeasesSound(db)
    requires !(op.OpFinish? && op.finish.ok && op.finish.key.queue == q && Finishes(db, op.finish))
    ensures EndedRows(Step(db, op), q, Completed) <= EndedRows(db, q, Completed)
  {
    hide Step, EffectOf, AllLiveOn, LeasesSound;
    StepLife(db, op);
    EndsFrom(db, op, q);
    CompletedStay(db, EffectOf(db, op), Step(db, op), q);
  }

  lemma CompletedStay(db: Db, e: Effect, db': Db, q: QueueId)
    requires AllLiveOn(db, e, db') && (e.Ends? && e.phase == Succeeded ==> e.key.queue != q)
    ensures EndedRows(db', q, Completed) <= EndedRows(db, q, Completed)
  {
    forall k | k in EndedRows(db', q, Completed) ensures k in EndedRows(db, q, Completed) {
      assert LivesOn(db, e, db', k);
    }
  }

  lemma EndsFrom(db: Db, op: Op, q: QueueId)
    requires !(op.OpFinish? && op.finish.ok && op.finish.key.queue == q && Finishes(db, op.finish))
    ensures EffectOf(db, op).Ends? && EffectOf(db, op).phase == Succeeded ==> EffectOf(db, op).key.queue != q
  {
    hide Takes, Sorted, Movable, HasEdge, HasPendingChild;
  }

  lemma FinishBounds(db: Db, a: FinishArgs, q: QueueId, n: nat)
    requires Sane(db) && Finishes(db, a) && a.ok && a.key.queue == q && a.keep == Some(n)
    requires |EndedRows(db, q, Completed)| <= n
    ensures |EndedRows(DoFinish(db, a), q, Completed)| <= n
  {
    hide DoFinish, Newest, EndedRows, Sane;
    if n > 0 {
      FinishKeepsNewest(db, a);
      var db1 := Put(db, a.key, EndedRow(db.jobs[a.key], a.ok, db.now));
      assert EndedRows(db1, q, Completed) <= db1.jobs.Keys by { EndedInside(db1, q, Completed); }
      NewestCount(db1.jobs, EndedRows(db1, q, Completed), n, a.age, db.now);
    } else {
      FinishRemoves(db, a);
      SmallerSet(EndedRows(DoFinish(db, a), q, Completed), EndedRows(db, q, Completed));
    }
  }

  lemma EndedInside(db: Db, q: QueueId, st: JobState)
    ensures EndedRows(db, q, st) <= db.jobs.Keys
  {}

  /** `keep` 0: the row goes as soon as it has ended. */
  lemma FinishRemoves(db: Db, a: FinishArgs)
    requires Sane(db) && Finishes(db, a) && a.ok && a.keep == Some(0)
    ensures a.key !in DoFinish(db, a).jobs
    ensures EndedRows(DoFinish(db, a), a.key.queue, Completed) <= EndedRows(db, a.key.queue, Completed)
  {
    hide Sane, Standing, Requeue, NotifyParents, AllLiveOn;
    FinishLives(db, a) by { SaneSound(db); }
    RemovedRows(db, Ends(a.key, Succeeded, true), DoFinish(db, a));
  }

  lemma RemovedRows(db: Db, e: Effect, db': Db)
    requires AllLiveOn(db, e, db') && e.Ends? && e.key !in db'.jobs
    ensures EndedRows(db', e.key.queue, Completed) <= EndedRows(db, e.key.queue, Completed)
  {
    forall k | k in EndedRows(db', e.key.queue, Completed) ensures k in EndedRows(db, e.key.queue, Completed) {
      assert LivesOn(db, e, db', k);
    }
  }

  /** With a constant `keep`, the completed jobs of a queue never exceed it in any run. */
  lemma {:induction false} CompletedNeverExceed(db: Db, ops: seq<Op>, q: QueueId, n: nat)
    requires Sane(db) && |EndedRows(db, q, Completed)| <= n
    requires forall i | 0 <= i < |ops| :: KeepsCompleted(ops[i], q, n)
    ensures |EndedRows(Run(db, ops), q, Completed)| <= n
  {
    if ops != [] {
      hide Sane, EndedRows, DoFinish, Finishes;
      var front, op := ops[..|ops| - 1], ops[|ops| - 1];
      var prev := Run(db, front);
      CompletedNeverExceed(db, front, q, n);
      RunSane(db, front);
      assert KeepsCompleted(op, q, n);
      if op.OpFinish? && op.finish.ok && op.finish.key.queue == q && Finishes(prev, op.finish) {
        FinishBounds(prev, op.finish, q, n);
        FinishStep(prev, op);
      } else {
        SaneSound(prev);
        CompletedOnlyByFinish(prev, op, q);
        SmallerSet(EndedRows(Step(prev, op), q, Completed), EndedRows(prev, q, Completed));
      }
    }
  }

  lemma FinishStep(db: Db, op: Op)
    requires op.OpFinish? && Finishes(db, op.finish)
    ensures Step(db, op) == DoFinish(db, op.finish)
  {
    hide DoFinish;
  }
}

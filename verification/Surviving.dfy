/** Which finished jobs a finish leaves, said in columns: by finish time, primary key and age. */
module Surviving {
  import opened Rows
  import opened Ordering
  import opened Tables
  import opened Ending
  import opened Routing
  import opened Releasing
  import opened Trimming

  /** Completed after a success, failed after a failure. */
  function EndState(a: FinishArgs): JobState {
    if a.ok then Completed else Failed
  }

  /** Counted by the trim: the job that ends now, and those of its queue that ended alike before. */
  ghost predicate EndsUp(db: Db, a: FinishArgs, y: Key) {
    y in db.jobs && y.queue == a.key.queue && (y == a.key || db.jobs[y].state == EndState(a))
  }

  /** When it ended; the job that ends now ends at the present time. */
  ghost function EndTime(db: Db, a: FinishArgs, y: Key): Option<Millis>
    requires y in db.jobs
  {
    if y == a.key then Some(db.now) else db.jobs[y].finishedOn
  }

  /** Ended later, or together under the higher primary key; rows without a time come last. */
  ghost predicate Newer(db: Db, a: FinishArgs, x: Key, y: Key)
    requires x in db.jobs && y in db.jobs
  {
    var tx, ty := EndTime(db, a, x), EndTime(db, a, y);
    if tx != ty then ty.None? || (tx.Some? && tx.value > ty.value)
    else db.jobs[x].pk > db.jobs[y].pk
  }

  /** Newer, with the key breaking a tie that distinct primary keys never leave. */
  ghost predicate Precedes(db: Db, a: FinishArgs, x: Key, y: Key)
    requires x in db.jobs && y in db.jobs
  {
    Newer(db, a, x, y)
    || (EndTime(db, a, x) == EndTime(db, a, y) && db.jobs[x].pk == db.jobs[y].pk
        && (x.queue < y.queue || (x.queue == y.queue && x.id < y.id)))
  }

  /** An age limit is given and the job ended at least that long ago. */
  ghost predicate PastAge(db: Db, a: FinishArgs, y: Key)
    requires y in db.jobs
  {
    a.age.Some? && a.age.value > 0 && EndTime(db, a, y).Some? && EndTime(db, a, y).value + a.age.value <= db.now
  }

  /** Left over in the final state. */
  ghost predicate Survives(db: Db, a: FinishArgs, y: Key) {
    var db' := Finish(db, a).0;
    y in db'.jobs && db'.jobs[y].state == EndState(a)
  }

  ghost function Recorded(db: Db, a: FinishArgs): Db
    requires a.key in db.jobs
  {
    Put(db, a.key, EndedRow(db.jobs[a.key], a.ok, db.now))
  }

  lemma RecordedRows(db: Db, a: FinishArgs, x: Key, y: Key)
    requires a.key in db.jobs && EndsUp(db, a, x) && EndsUp(db, a, y)
    ensures Precedes(db, a, x, y) <==> Before(ByNewestFinish, Recorded(db, a).jobs, x, y)
    ensures PastAge(db, a, y) <==> TooOld(Recorded(db, a).jobs[y], a.age, db.now)
  {}

  lemma RecordedEnded(db: Db, a: FinishArgs, y: Key)
    requires a.key in db.jobs
    ensures y in EndedRows(Recorded(db, a), a.key.queue, FinalState(a.ok)) <==> EndsUp(db, a, y)
  {}

  /** The rows the count of `y` runs over. */
  ghost function Ahead(db: Db, a: FinishArgs, y: Key): set<Key>
    requires y in db.jobs
  {
    set x | x in db.jobs && EndsUp(db, a, x) && Precedes(db, a, x, y)
  }

  lemma AheadCount(db: Db, a: FinishArgs, y: Key)
    requires a.key in db.jobs && y in db.jobs && EndsUp(db, a, y)
    ensures var db1 := Recorded(db, a); var rows := EndedRows(db1, a.key.queue, FinalState(a.ok));
      rows <= db1.jobs.Keys && y in rows && RowNumber(db1, rows, y) == |Ahead(db, a, y)| + 1
  {
    hide Before, Precedes, Recorded, EndsUp;
    var db1 := Recorded(db, a);
    var rows := EndedRows(db1, a.key.queue, FinalState(a.ok));
    RecordedEnded(db, a, y);
    var before := set x | x in rows && Before(ByNewestFinish, db1.jobs, x, y);
    forall x ensures x in before <==> x in Ahead(db, a, y) {
      RecordedEnded(db, a, x);
      if EndsUp(db, a, x) {
        EndsUpThere(db, a, x);
        RecordedRows(db, a, x, y);
      }
    }
    assert before == Ahead(db, a, y);
  }

  lemma EndsUpThere(db: Db, a: FinishArgs, y: Key)
    requires EndsUp(db, a, y)
    ensures y in db.jobs && y.queue == a.key.queue
  {}

  lemma SurvivesMeans(db: Db, a: FinishArgs, y: Key)
    requires Finishes(db, a) && y.queue == a.key.queue
    ensures Survives(db, a, y) <==> y in EndedRows(DoFinish(db, a), a.key.queue, FinalState(a.ok))
  {
    hide DoFinish;
  }

  /** Without a count to keep above 0 and without an age limit. */
  lemma UncountedSurvive(db: Db, a: FinishArgs)
    requires Sane(db) && Finishes(db, a)
    requires a.keep == Some(0) || (a.keep.None? && !(a.age.Some? && a.age.value > 0))
    ensures var st := FinalState(a.ok);
      EndedRows(DoFinish(db, a), a.key.queue, st) ==
        EndedRows(Recorded(db, a), a.key.queue, st) - (if a.keep == Some(0) then {a.key} else {})
  {
    hide DoFinish, Sane, EndedAlike, EndedRow;
    var db1, st := Recorded(db, a), FinalState(a.ok);
    var db3 := FinishUpToTrim(db, a);
    AlikeRows(db1, db3, a.key.queue, st);
  }

  /** After a finish a job is left in its state if and only if it had ended so, this one counted, is
      not past the age limit, and fewer than `keep` jobs ended after it; `keep` 0 takes the job that
      ends and no other, and without `keep` and age all stay. */
  lemma SurvivesExactly(db: Db, a: FinishArgs, y: Key)
    requires Sane(db) && Finishes(db, a) && y.queue == a.key.queue
    ensures Survives(db, a, y) <==>
      && EndsUp(db, a, y)
      && if a.keep == Some(0) then y != a.key
         else !PastAge(db, a, y) && (a.keep.Some? ==> |Ahead(db, a, y)| < a.keep.value)
  {
    hide DoFinish, Sane, Newest, Recorded, EndsUp, Ahead, RowNumber, Before, TooOld, Survives, EndedRows;
    var db1, st := Recorded(db, a), FinalState(a.ok);
    SurvivesMeans(db, a, y);
    RecordedEnded(db, a, y);
    if a.keep == Some(0) || (a.keep.None? && !(a.age.Some? && a.age.value > 0)) {
      UncountedSurvive(db, a);
    } else {
      KeepsNewest(db, a);
      DoomedIsRest(db1, a.key.queue, st, a.keep, a.age);
      if EndsUp(db, a, y) {
        EndsUpThere(db, a, y);
        AheadCount(db, a, y);
        RecordedRows(db, a, y, y);
      }
    }
  }

  lemma KeepsNewest(db: Db, a: FinishArgs)
    requires Sane(db) && Finishes(db, a) && a.keep != Some(0) && (a.keep.Some? || (a.age.Some? && a.age.value > 0))
    ensures var st := FinalState(a.ok); var db1 := Recorded(db, a);
      var rows := EndedRows(db1, a.key.queue, st);
      rows <= db1.jobs.Keys && db1.now == db.now
      && EndedRows(DoFinish(db, a), a.key.queue, st) == Newest(db1.jobs, rows, a.keep, a.age, db1.now)
  {
    hide DoFinish, Newest, EndedRow;
    FinishKeepsNewest(db, a);
  }

  /** Of two jobs within the age limit of which the finish leaves one, that one ended later, or
      together under the higher primary key. */
  lemma NewerSurvives(db: Db, a: FinishArgs, x: Key, y: Key)
    requires Sane(db) && Finishes(db, a) && a.keep != Some(0) && x.queue == y.queue == a.key.queue
    requires EndsUp(db, a, y) && !PastAge(db, a, y) && Survives(db, a, x) && !Survives(db, a, y)
    ensures EndsUp(db, a, x) && (Newer(db, a, x, y) || (!Newer(db, a, y, x) && db.jobs[x].pk == db.jobs[y].pk))
  {
    hide DoFinish, Sane, Survives, EndsUp, PastAge;
    SurvivesExactly(db, a, x);
    SurvivesExactly(db, a, y);
    EndsUpThere(db, a, x);
    EndsUpThere(db, a, y);
    if Newer(db, a, y, x) {
      forall z | z in Ahead(db, a, y) ensures z in Ahead(db, a, x) {}
      SmallerSet(Ahead(db, a, y), Ahead(db, a, x));
    }
  }

  /** The job that has just ended is left when any are and none ended later, or at the same time under
      a primary key not lower than its own. */
  lemma LatestSurvives(db: Db, a: FinishArgs)
    requires Sane(db) && Finishes(db, a) && (a.keep.Some? ==> a.keep.value >= 1)
    requires forall y | EndsUp(db, a, y) && y != a.key :: Newer(db, a, a.key, y)
    ensures Survives(db, a, a.key)
  {
    hide DoFinish, Sane, Survives;
    SurvivesExactly(db, a, a.key);
    assert Ahead(db, a, a.key) == {};
  }
}

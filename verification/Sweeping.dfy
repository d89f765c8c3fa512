/** The stalled sweep, said in columns: which rows it takes, what becomes of each, and in what
    order they go back. */
module Sweeping {
  import opened Rows
  import opened Ordering
  import opened Tables
  import opened Ending
  import opened Machine
  import opened Routing

  /** Active in queue `q` under a lease that has run out. */
  ghost predicate Expired(db: Db, q: QueueId, k: Key) {
    k in db.jobs && k.queue == q && db.jobs[k].state == Active
    && db.jobs[k].lockExpires.Some? && db.jobs[k].lockExpires.value < db.now
  }

  ghost predicate GoesBack(db: Db, q: QueueId, m: int, k: Key) {
    Expired(db, q, k) && db.jobs[k].stalled + 1 <= m
  }

  /** The row after the sweep: an expired one has lost its lease, counts one more stall, and has
      failed or stands in its list under a new sequence; any other is what it was. */
  ghost predicate SweptAs(db: Db, db': Db, q: QueueId, m: int, k: Key) {
    k in db.jobs && k in db'.jobs
    && var j, j', row := db.jobs[k], db'.jobs[k], QueueOf(db, q);
       if !Expired(db, q, k) then j' == j
       else if j.stalled + 1 > m then
         j' == j.(state := Failed, finishedOn := Some(db.now), delayMs := 0, stalled := j.stalled + 1,
                  deferred := false, lockToken := None, lockExpires := None)
       else
         && j'.waitSeq.Some? && row.waitNum < j'.waitSeq.value <= QueueOf(db', q).waitNum
         && j' == j.(state := if row.paused then Paused else Wait, waitSeq := j'.waitSeq, stalled := j.stalled + 1,
                     deferred := false, lockToken := None, lockExpires := None)
  }

  lemma GoingBack(db: Db, q: QueueId, m: int, k: Key)
    ensures k in Stalled(db, q) <==> Expired(db, q, k)
    ensures k in Requeued(db, q, m) <==> GoesBack(db, q, m, k)
  {}

  /** The sweep takes exactly the expired rows, and as many wait sequences as rows go back. */
  lemma SweepsExactly(db: Db, q: QueueId, m: int, k: Key)
    requires k in db.jobs
    ensures var db' := Step(db, OpSweep(q, m)); var back := set x | x in db.jobs && GoesBack(db, q, m, x);
      && SweptAs(db, db', q, m, k)
      && db' == db.(jobs := db'.jobs, queues := db'.queues) && db'.jobs.Keys == db.jobs.Keys
      && QueueOf(db', q) == QueueOf(db, q).(waitNum := QueueOf(db, q).waitNum + |back|)
      && (forall o | o != q :: QueueOf(db', o) == QueueOf(db, o))
  {
    hide SweepNumber, Stalled, Requeued;
    var back := set x | x in db.jobs && GoesBack(db, q, m, x);
    forall x ensures x in back <==> x in Requeued(db, q, m) { GoingBack(db, q, m, x); }
    assert back == Requeued(db, q, m);
    GoingBack(db, q, m, k);
    if k in back {
      SweepNumberFits(db, back, k);
      assert back != {};
    }
  }

  /** Of two rows that go back together the younger one goes in front. */
  lemma SweepsYoungestFirst(db: Db, q: QueueId, m: int, x: Key, y: Key)
    requires GoesBack(db, q, m, x) && GoesBack(db, q, m, y) && db.jobs[x].pk > db.jobs[y].pk
    ensures var db' := Step(db, OpSweep(q, m));
      && db'.jobs[x].waitSeq.Some? && db'.jobs[y].waitSeq.Some?
      && db'.jobs[x].waitSeq.value < db'.jobs[y].waitSeq.value
  {
    hide SweepNumber;
    var back := Requeued(db, q, m);
    GoingBack(db, q, m, x);
    GoingBack(db, q, m, y);
    assert Before(ByNewestPk, db.jobs, x, y);
    SweepNumberOwn(db, back, x, y);
  }
}

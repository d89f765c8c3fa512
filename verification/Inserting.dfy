/** What an add writes, said in columns: the new row of each kind, when a job is let in at all,
    what `replace` removes, and how long a deduplication id is held. */
module Inserting {
  import opened Rows
  import opened Tables
  import opened Linking
  import opened Adding
  import opened Frames
  import opened Machine
  import opened Waiting
  import opened Trees
  import opened Turns

  // ---------------------------------------------------------------- the new row

  /** Another row of the queue that stands in one of the lists under a sequence. */
  ghost predicate ListPeer(db: Db, k: Key, lists: set<JobState>, x: Key) {
    x in db.jobs && x != k && x.queue == k.queue && db.jobs[x].state in lists && db.jobs[x].waitSeq.Some?
  }

  /** One below the least sequence of the row's peers in the lists; without peers, `next`. */
  ghost predicate TopOfList(db': Db, k: Key, lists: set<JobState>, next: int)
    requires k in db'.jobs
  {
    if exists x :: ListPeer(db', k, lists, x) then
      && db'.jobs[k].waitSeq.Some?
      && (forall x | ListPeer(db', k, lists, x) :: db'.jobs[k].waitSeq.value < db'.jobs[x].waitSeq.value)
      && (exists x :: ListPeer(db', k, lists, x) && db'.jobs[k].waitSeq.value + 1 == db'.jobs[x].waitSeq.value)
    else db'.jobs[k].waitSeq == Some(next)
  }

  /** The head of the lists for LIFO, and otherwise `next`. */
  ghost predicate TakesSeq(db': Db, k: Key, lifo: bool, next: int)
    requires k in db'.jobs
  {
    if lifo then TopOfList(db', k, {Wait, Paused}, next) else db'.jobs[k].waitSeq == Some(next)
  }

  /** A row that has never run, with the columns the request and the kind of add say. */
  ghost predicate AddedAs(db: Db, db': Db, r: Request, k: Key) {
    k in db'.jobs
    && var j, o, row := db'.jobs[k], r.payload.opts, QueueOf(db, r.queue);
       && j == Job(db.nextPk, r.payload, j.state, o.priority, j.waitSeq, j.prioSeq, j.processAt, o.delay,
                   0, 0, o.attempts, 0, None, None, None, r.parent, r.dedup, false)
       && match r.kind
          case Later =>
            j.state == Delayed && j.processAt == Some(r.timestamp + o.delay) && j.waitSeq.None? && j.prioSeq.None?
          case FlowParent => j.state == Parked && j.processAt.None? && j.waitSeq.None? && j.prioSeq.None?
          case Prio =>
            j.state == Prioritized && j.processAt.None? && j.waitSeq.None? && j.prioSeq == Some(row.prioNum + 1)
          case Standard =>
            && j.state == (if row.paused then Paused else Wait) && j.processAt.None? && j.prioSeq.None?
            && TakesSeq(db', k, o.lifo, row.waitNum + 1)
  }

  lemma InsertRowColumns(db: Db, k: Key, r: Request)
    requires k !in db.jobs && k.queue == r.queue
    ensures AddedAs(db, InsertRow(db, k, r), r, k)
  {
    hide Least, WaitSeqs;
    if r.kind == Standard { StandardSeq(db.(nextPk := db.nextPk + 1), k, NewRow(db, r)); }
  }

  /** The least sequence of some lists, less one, is the top of them. */
  lemma LeastIsTop(db: Db, db': Db, k: Key, lists: set<JobState>, except: Option<Key>, next: int)
    requires k in db'.jobs && db'.jobs == db.jobs[k := db'.jobs[k]]
    requires except == Some(k) || k !in db.jobs || db.jobs[k].state !in lists
    requires db'.jobs[k].waitSeq ==
      var m := Least(WaitSeqs(db, k.queue, lists, except)); Some(if m.Some? then m.value - 1 else next)
    requires except == None || except == Some(k)
    ensures TopOfList(db', k, lists, next)
  {
    var seqs := WaitSeqs(db, k.queue, lists, except);
    forall x ensures ListPeer(db', k, lists, x) <==> ListPeer(db, k, lists, x) {}
    forall x | ListPeer(db, k, lists, x) ensures db.jobs[x].waitSeq.value in seqs {}
    if seqs != {} {
      var m := Least(seqs).value;
      var x :| ListPeer(db, k, lists, x) && db.jobs[x].waitSeq.value == m;
      assert ListPeer(db', k, lists, x);
    }
  }

  lemma StandardSeq(db: Db, k: Key, j: Job)
    requires k !in db.jobs && j.state == Delayed
    ensures var db' := InsertStandard(db, k, j);
      && k in db'.jobs && TakesSeq(db', k, j.payload.opts.lifo, QueueOf(db, k.queue).waitNum + 1)
      && db'.jobs[k] == j.(state := if QueueOf(db, k.queue).paused then Paused else Wait,
                           waitSeq := db'.jobs[k].waitSeq)
  {
    hide WaitSeqs, Least, TopOfList;
    var db' := InsertStandard(db, k, j);
    if j.payload.opts.lifo {
      LeastIsTop(db, db', k, {Wait, Paused}, None, QueueOf(db, k.queue).waitNum + 1);
    }
  }

  lemma InsertedRows(db: Db, r: Request, key: Key, k: Key)
    requires key.queue in db.queues && k !in db.jobs && k in Insert(db, r, key).0.jobs
    ensures k == key
    ensures var db1 := if r.dedup.Some? then ClearStale(db, r.queue, r.dedup.value) else db;
      key !in db1.jobs && db1 == db.(jobs := db1.jobs) && Insert(db, r, key).0.jobs == InsertRow(db1, key, r).jobs
  {
    hide InsertRow, Link, InsertConflict;
    InsertNewRow(db, r, key, k);
    var db1 := if r.dedup.Some? then ClearStale(db, r.queue, r.dedup.value) else db;
    InsertRowGains(db1, key, r);
    var db3 := HoldDedup(InsertRow(db1, key, r), r, key.id);
    if r.parent.Some? { LinkKeepsParked(db3, r.parent.value, key); }
  }

  lemma InsertColumns(db: Db, r: Request, key: Key, k: Key)
    requires r.queue == key.queue && key.queue in db.queues && k !in db.jobs && k in Insert(db, r, key).0.jobs
    ensures k == key && AddedAs(db, Insert(db, r, key).0, r, k)
  {
    hide InsertRow, Insert, ClearStale;
    InsertedRows(db, r, key, k);
    var db1 := if r.dedup.Some? then ClearStale(db, r.queue, r.dedup.value) else db;
    InsertRowColumns(db1, key, r);
    SameRowsAdded(db1, InsertRow(db1, key, r), db, Insert(db, r, key).0, r, k);
  }

  /** Only the rows, the next primary key and the queue matter. */
  lemma SameRowsAdded(db: Db, db': Db, e: Db, e': Db, r: Request, k: Key)
    requires AddedAs(db, db', r, k) && e'.jobs == db'.jobs && e.nextPk == db.nextPk
    requires SameNumbers(QueueOf(db, r.queue), QueueOf(e, r.queue))
    ensures AddedAs(e, e', r, k)
  {
    forall x ensures ListPeer(e', k, {Wait, Paused}, x) <==> ListPeer(db', k, {Wait, Paused}, x) {}
  }

  predicate SameNumbers(q: Queue, q': Queue) {
    q'.waitNum == q.waitNum && q'.prioNum == q.prioNum && q'.paused == q.paused
  }

  lemma ReplaceColumns(db: Db, r: Request, key: Key, k: Key)
    requires Replaces(r) && r.queue == key.queue && key.queue in db.queues && k !in db.jobs
    requires k in Replace(db, r, key).0.jobs
    ensures k == key && AddedAs(db, Replace(db, r, key).0, r, k)
  {
    hide Insert, AddedAs;
    var dk := DedupKey(r.queue, r.dedup.value);
    if dk !in db.dedups {
      InsertColumns(db, r, key, k);
    } else {
      var h := Key(r.queue, db.dedups[dk].job);
      if h in db.jobs && db.jobs[h].state in Replaceable(r.kind) {
        var db1 := DeleteDedups(DeleteJobs(db, {h}), {dk});
        InsertColumns(db1, r, key, k);
        SameRowsAdded(db1, Replace(db, r, key).0, db, Replace(db, r, key).0, r, k);
      }
    }
  }

  /** The key an add would use: the caller's id, or the next number of the queue. */
  ghost function AddKey(db: Db, r: Request): Key {
    Key(r.queue, if r.custom.Some? then r.custom.value else QueueOf(db, r.queue).jobNum + 1)
  }

  /** Whenever an add brings a new row it is under the id asked for or the next number, and a row of
      its kind in every column. */
  lemma AddWrites(db: Db, r: Request, k: Key)
    requires k !in db.jobs && k in Step(db, OpAdd(r)).jobs
    ensures k == AddKey(db, r) && AddedAs(db, Step(db, OpAdd(r)), r, k)
  {
    hide Insert, Replace, AddExisting, AddedAs;
    if r.queue in db.queues {
      var q := db.queues[r.queue];
      var key := AddKey(db, r);
      var db1 := if r.custom.Some? then db else PutQueue(db, r.queue, q.(jobNum := q.jobNum + 1));
      var db' := Add(db, r).0;
      if r.parent.Some? && r.parent.value !in db1.jobs {
      } else if r.custom.Some? && key in db1.jobs {
        ExistingKeys(db1, r, key);
      } else if Suppressed(db1, r) {
      } else {
        if Replaces(r) { ReplaceColumns(db1, r, key, k); } else { InsertColumns(db1, r, key, k); }
        SameRowsAdded(db1, db', db, db', r, k);
      }
    }
  }

  // ---------------------------------------------------------------- whether it gets in

  /** The deduplication id is held: its row is there and has not expired, and so is its job. */
  ghost predicate IdHeld(db: Db, q: QueueId, d: DedupId) {
    var dk := DedupKey(q, d);
    dk in db.dedups && (db.dedups[dk].expires.Some? ==> db.dedups[dk].expires.value > db.now)
    && Key(q, db.dedups[dk].job) in db.jobs
  }

  predicate AsksReplace(r: Request) {
    r.payload.opts.dedup.Some? && r.payload.opts.dedup.value.replace
  }

  /** The state a job must be in to make room for an add of the given kind. */
  predicate MakesRoom(kind: Kind, state: JobState) {
    || (kind == Standard && (state == Wait || state == Paused))
    || (kind == Prio && state == Prioritized)
    || (kind == Later && state == Delayed)
    || (kind == FlowParent && state == Parked)
  }

  ghost predicate RoomMade(db: Db, r: Request, h: Key) {
    h in db.jobs && MakesRoom(r.kind, db.jobs[h].state)
  }

  /** Folded into the job that holds its id, or turned away by a holder it may not replace. */
  ghost predicate TurnedAway(db: Db, r: Request) {
    r.dedup.Some?
    && var dk := DedupKey(r.queue, r.dedup.value);
       if AsksReplace(r) then dk in db.dedups && !RoomMade(db, r, Key(r.queue, db.dedups[dk].job))
       else IdHeld(db, r.queue, r.dedup.value)
  }

  lemma InsertPutsKey(db: Db, r: Request, k: Key)
    requires k !in db.jobs && k.queue in db.queues
    ensures k in Insert(db, r, k).0.jobs
    ensures forall x | x in Insert(db, r, k).0.jobs && x !in db.jobs :: x == k
    ensures forall x | x in db.jobs :: x in Insert(db, r, k).0.jobs
  {
    hide InsertRow, Link, InsertConflict;
    var db1 := if r.dedup.Some? then ClearStale(db, r.queue, r.dedup.value) else db;
    InsertRowGains(db1, k, r);
    var db3 := HoldDedup(InsertRow(db1, k, r), r, k.id);
    if r.parent.Some? { LinkKeepsParked(db3, r.parent.value, k); }
  }

  /** `replace` under a free key: the holder goes and the job comes in, or a holder that may not be
      replaced stays, nothing changes, and the answer is its id. */
  ghost predicate Replaced(db: Db, db': Db, out: Outcome, r: Request, k: Key)
    requires r.dedup.Some?
  {
    var dk := DedupKey(r.queue, r.dedup.value);
    if dk !in db.dedups then k in db'.jobs && out == Added(k.id)
    else
      var h := Key(r.queue, db.dedups[dk].job);
      if RoomMade(db, r, h) then h !in db'.jobs && k in db'.jobs && out == Added(k.id)
      else db' == db && out == Added(h.id)
  }

  lemma ReplaceExactly(db: Db, r: Request, k: Key)
    requires Replaces(r) && r.queue == k.queue && k.queue in db.queues && k !in db.jobs
    ensures Replaced(db, Replace(db, r, k).0, Replace(db, r, k).1, r, k)
  {
    hide Insert;
    InsertPutsKey(db, r, k);
    InsertAdds(db, r, k);
    var dk := DedupKey(r.queue, r.dedup.value);
    if dk in db.dedups {
      var h := Key(r.queue, db.dedups[dk].job);
      var db1 := DeleteDedups(DeleteJobs(db, {h}), {dk});
      InsertPutsKey(db1, r, k);
      InsertAdds(db1, r, k);
    }
  }

  /** An add under a free id or number brings its row if and only if the queue and the parent are
      there and neither a holder of its deduplication id nor one that may not be replaced stands in
      the way; otherwise no row changes and the answer names the holder. */
  lemma AddsExactly(db: Db, r: Request)
    requires AddKey(db, r) !in db.jobs
    ensures var db', out := Step(db, OpAdd(r)), Add(db, r).1;
      if r.queue !in db.queues then db' == db && out == NoQueue
      else if r.parent.Some? && r.parent.value !in db.jobs then db'.jobs == db.jobs && out == ParentMissing
      else if TurnedAway(db, r) then
        db'.jobs == db.jobs && out == Added(db.dedups[DedupKey(r.queue, r.dedup.value)].job)
      else AddKey(db, r) in db'.jobs && out == Added(AddKey(db, r).id)
  {
    hide Insert, Replace;
    if r.queue in db.queues && (r.parent.Some? ==> r.parent.value in db.jobs) {
      var q := db.queues[r.queue];
      var k := AddKey(db, r);
      var db1 := if r.custom.Some? then db else PutQueue(db, r.queue, q.(jobNum := q.jobNum + 1));
      assert db1.jobs == db.jobs && db1.dedups == db.dedups && db1.now == db.now;
      if !Suppressed(db1, r) {
        if Replaces(r) {
          ReplaceExactly(db1, r, k);
        } else {
          InsertPutsKey(db1, r, k);
          InsertAdds(db1, r, k);
        }
      }
    }
  }

  /** The numbers for generated ids stand where they stood. */
  ghost predicate SameIds(db: Db, db': Db) {
    forall q :: QueueOf(db', q).jobNum == QueueOf(db, q).jobNum
  }

  lemma LinkSameIds(db: Db, p: Key, c: Key)
    ensures SameIds(db, Link(db, p, c))
  {}

  lemma InsertSameIds(db: Db, r: Request, k: Key)
    ensures SameIds(db, Insert(db, r, k).0)
  {
    hide Link, InsertRow;
    var db1 := if r.dedup.Some? then ClearStale(db, r.queue, r.dedup.value) else db;
    assert SameIds(db1, InsertRow(db1, k, r)) by { InsertRowSameIds(db1, k, r); }
    var db3 := HoldDedup(InsertRow(db1, k, r), r, k.id);
    assert SameIds(db, db3);
    if k !in db1.jobs && r.parent.Some? {
      LinkSameIds(db3, r.parent.value, k);
      assert SameIds(db, Link(db3, r.parent.value, k));
    }
  }

  lemma InsertRowSameIds(db: Db, k: Key, r: Request)
    ensures SameIds(db, InsertRow(db, k, r))
  {}

  /** Every add without an id of its own to a queue that is there takes the next number, whether or not a
      job comes in; an add with one takes none, and no other queue is counted on. */
  lemma AddTakesNumber(db: Db, r: Request, q: QueueId)
    requires r.queue in db.queues
    ensures QueueOf(Step(db, OpAdd(r)), q).jobNum ==
      QueueOf(db, q).jobNum + (if q == r.queue && r.custom.None? then 1 else 0)
  {
    hide Insert, Link, Replace, Suppressed;
    var row := db.queues[r.queue];
    var k := AddKey(db, r);
    var db1 := if r.custom.Some? then db else PutQueue(db, r.queue, row.(jobNum := row.jobNum + 1));
    assert QueueOf(db1, q).jobNum == QueueOf(db, q).jobNum + (if q == r.queue && r.custom.None? then 1 else 0);
    InsertSameIds(db1, r, k);
    if r.parent.Some? { LinkSameIds(db1, r.parent.value, k); }
    if Replaces(r) { ReplaceSameIds(db1, r, k); }
  }

  lemma ReplaceSameIds(db: Db, r: Request, k: Key)
    requires Replaces(r)
    ensures SameIds(db, Replace(db, r, k).0)
  {
    hide Insert;
    InsertSameIds(db, r, k);
    var dk := DedupKey(r.queue, r.dedup.value);
    if dk in db.dedups {
      InsertSameIds(DeleteDedups(DeleteJobs(db, {Key(r.queue, db.dedups[dk].job)}), {dk}), r, k);
    }
  }

  /** Some row of the queue waits or is paused under a sequence. */
  ghost predicate SomeoneQueued(db: Db, q: QueueId) {
    exists x :: x in db.jobs && x.queue == q && (db.jobs[x].state == Wait || db.jobs[x].state == Paused)
      && db.jobs[x].waitSeq.Some?
  }

  /** An add without deduplication whose next number is taken by a custom id changes no row, but the numbers
      it has drawn are gone. */
  lemma TakenNumberWrites(db: Db, r: Request)
    requires r.queue in db.queues && r.custom.None? && AddKey(db, r) in db.jobs && r.dedup.None?
    requires r.parent.Some? ==> r.parent.value in db.jobs
    ensures var db', q := Step(db, OpAdd(r)), db.queues[r.queue];
      db' == db.(queues := db.queues[r.queue := q.(jobNum := q.jobNum + 1,
        waitNum := if r.kind == Standard && !(r.payload.opts.lifo && SomeoneQueued(db, r.queue)) then q.waitNum + 1
                   else q.waitNum,
        prioNum := if r.kind == Prio then q.prioNum + 1 else q.prioNum)])
  {
    var seqs := WaitSeqs(db, r.queue, {Wait, Paused}, None);
    forall x | x in db.jobs && x.queue == r.queue && Queued(db.jobs[x]) && db.jobs[x].waitSeq.Some?
      ensures db.jobs[x].waitSeq.value in seqs
    {
      assert db.jobs[x].state in {Wait, Paused};
    }
  }

  /** An add whose id is taken answers with the id, unless the row belongs to another parent that is
      still there. */
  lemma TakenIdAnswers(db: Db, r: Request)
    requires r.queue in db.queues && r.custom.Some? && AddKey(db, r) in db.jobs
    requires r.parent.Some? ==> r.parent.value in db.jobs
    ensures var former := db.jobs[AddKey(db, r)].parent;
      Add(db, r).1 ==
        if r.parent.Some? && former.Some? && former.value in db.jobs && former != r.parent then ParentConflict
        else Added(r.custom.value)
  {
    hide Link;
  }

  // ---------------------------------------------------------------- how long an id is held

  /** The time to live an add gives its id, 0 for none: kept-last ids have none. */
  function TtlOf(r: Request): int {
    var de := r.payload.opts.dedup;
    if de.Some? && de.value.ttl > 0 && (r.kind == FlowParent || !de.value.keepLast) then de.value.ttl else 0
  }

  /** The id of an add that got in names its job, and expires when its time to live, if any, is over. Nothing
      is stashed under it, but a flow parent leaves a stash that is there. */
  ghost predicate HeldAs(db: Db, db': Db, r: Request, k: Key) {
    r.dedup.Some? ==>
      var dk := DedupKey(r.queue, r.dedup.value);
      && dk in db'.dedups && db'.dedups[dk].job == k.id
      && db'.dedups[dk].expires == (if TtlOf(r) > 0 then Some(db.now + TtlOf(r)) else None)
      && if r.kind == FlowParent && dk in db.dedups && !AsksReplace(r) then
           db'.dedups[dk].pending == db.dedups[dk].pending && db'.dedups[dk].keepLast == db.dedups[dk].keepLast
         else db'.dedups[dk].pending.None? && (db'.dedups[dk].keepLast <==> r.kind != FlowParent && AsksToKeep(r))
  }

  predicate AsksToKeep(r: Request) {
    r.payload.opts.dedup.Some? && r.payload.opts.dedup.value.keepLast
  }

  lemma InsertHolds(db: Db, r: Request, key: Key, k: Key)
    requires key.queue in db.queues && k !in db.jobs && k in Insert(db, r, key).0.jobs
    requires r.dedup.Some? && AsksReplace(r) ==> DedupKey(r.queue, r.dedup.value) !in db.dedups
    ensures HeldAs(db, Insert(db, r, key).0, r, k)
  {
    hide InsertRow, Link, InsertConflict;
    InsertNewRow(db, r, key, k);
    var db1 := if r.dedup.Some? then ClearStale(db, r.queue, r.dedup.value) else db;
    var db3 := HoldDedup(InsertRow(db1, key, r), r, key.id);
    InsertRowNow(db1, key, r);
    if r.parent.Some? { LinkKeepsDedups(db3, r.parent.value, key); }
  }

  lemma InsertRowNow(db: Db, k: Key, r: Request)
    ensures InsertRow(db, k, r).now == db.now && InsertRow(db, k, r).dedups == db.dedups
  {}

  lemma LinkKeepsDedups(db: Db, p: Key, c: Key)
    ensures Link(db, p, c).dedups == db.dedups && Link(db, p, c).now == db.now
  {}

  lemma ReplaceHolds(db: Db, r: Request, key: Key, k: Key)
    requires Replaces(r) && key.queue in db.queues && k !in db.jobs && k in Replace(db, r, key).0.jobs
    ensures HeldAs(db, Replace(db, r, key).0, r, k)
  {
    hide Insert, HeldAs;
    var dk := DedupKey(r.queue, r.dedup.value);
    if dk !in db.dedups {
      InsertHolds(db, r, key, k);
    } else {
      var h := Key(r.queue, db.dedups[dk].job);
      if h in db.jobs && db.jobs[h].state in Replaceable(r.kind) {
        var db1 := DeleteDedups(DeleteJobs(db, {h}), {dk});
        InsertHolds(db1, r, key, k);
        SameNowHeld(db1, db, Replace(db, r, key).0, r, k);
      }
    }
  }

  lemma SameNowHeld(db: Db, e: Db, db': Db, r: Request, k: Key)
    requires HeldAs(db, db', r, k) && e.now == db.now && (AsksReplace(r) || e.dedups == db.dedups)
    ensures HeldAs(e, db', r, k)
  {}

  lemma AddHolds(db: Db, r: Request, k: Key)
    requires k !in db.jobs && k in Step(db, OpAdd(r)).jobs
    ensures HeldAs(db, Step(db, OpAdd(r)), r, k)
  {
    hide Insert, Replace, AddExisting, HeldAs, Suppressed;
    if r.queue in db.queues {
      var q := db.queues[r.queue];
      var key := AddKey(db, r);
      var db1 := if r.custom.Some? then db else PutQueue(db, r.queue, q.(jobNum := q.jobNum + 1));
      var db' := Add(db, r).0;
      if r.parent.Some? && r.parent.value !in db1.jobs {
      } else if r.custom.Some? && key in db1.jobs {
        ExistingKeys(db1, r, key);
      } else if Suppressed(db1, r) {
      } else {
        if Replaces(r) { ReplaceHolds(db1, r, key, k); } else { InsertHolds(db1, r, key, k); }
        SameNowHeld(db1, db, db', r, k);
      }
    }
  }

  lemma AddNow(db: Db, r: Request)
    ensures Step(db, OpAdd(r)).now == db.now
  {
    hide Add, RowsCalm, EdgesCalm, StaysListed;
    AddGentle(db, r);
  }

  /** An id is held for its time to live: of two adds under one id, the first of which got in, the
      second, `ms` milliseconds later and under a free number, gets in if and only if the first gave
      the id a time to live and it is over. */
  lemma SecondAddWaits(db: Db, r1: Request, ms: nat, r2: Request, k: Key)
    requires k !in db.jobs && k in Step(db, OpAdd(r1)).jobs
    requires r1.dedup.Some? && r2.dedup == r1.dedup && r2.queue == r1.queue && !AsksReplace(r2)
    ensures var db1 := Step(Step(db, OpAdd(r1)), OpTick(ms)); var db2 := Step(db1, OpAdd(r2));
      AddKey(db1, r2) !in db1.jobs && r2.queue in db1.queues && (r2.parent.Some? ==> r2.parent.value in db1.jobs) ==>
        (AddKey(db1, r2) in db2.jobs <==> TtlOf(r1) > 0 && ms >= TtlOf(r1))
        && (AddKey(db1, r2) !in db2.jobs ==> db2.jobs == db1.jobs && Add(db1, r2).1 == Added(k.id))
  {
    hide Add, HeldAs, AddedAs;
    AddWrites(db, r1, k);
    AddHolds(db, r1, k);
    AddNow(db, r1);
    var db0 := Step(db, OpAdd(r1));
    var db1 := Step(db0, OpTick(ms));
    HeldMeans(db, db0, db1, r1, k);
    if AddKey(db1, r2) !in db1.jobs { AddsExactly(db1, r2); }
  }

  lemma HeldMeans(db: Db, db': Db, db1: Db, r: Request, k: Key)
    requires HeldAs(db, db', r, k) && r.dedup.Some? && k in db'.jobs && k.queue == r.queue && db'.now == db.now
    requires db1 == db'.(now := db1.now)
    ensures IdHeld(db1, r.queue, r.dedup.value) <==> TtlOf(r) <= 0 || db1.now < db.now + TtlOf(r)
    ensures DedupKey(r.queue, r.dedup.value) in db1.dedups
      && db1.dedups[DedupKey(r.queue, r.dedup.value)].job == k.id
  {}

  /** Kept for when the holder, active now, has ended. */
  ghost predicate KeepsForLater(db: Db, r: Request, holder: Key) {
    r.kind != FlowParent && r.payload.opts.dedup.Some? && r.payload.opts.dedup.value.keepLast
    && holder in db.jobs && db.jobs[holder].state == Active
  }

  predicate Prolongs(r: Request) {
    r.payload.opts.dedup.Some? && r.payload.opts.dedup.value.extend && r.payload.opts.dedup.value.ttl > 0
  }

  /** An add folded into the holder of its id changes nothing but the row of the id: it is stashed there
      without expiry, or it prolongs the hold from the present time, or it leaves it as it is. */
  lemma FoldWrites(db: Db, r: Request)
    requires r.queue in db.queues && AddKey(db, r) !in db.jobs && (r.parent.Some? ==> r.parent.value in db.jobs)
    requires r.dedup.Some? && !AsksReplace(r) && IdHeld(db, r.queue, r.dedup.value)
    ensures var db' := Step(db, OpAdd(r)); var dk := DedupKey(r.queue, r.dedup.value);
      var row := db.dedups[dk];
      && db' == db.(dedups := db'.dedups, queues := db'.queues)
      && db'.dedups == db.dedups[dk :=
           if KeepsForLater(db, r, Key(r.queue, row.job)) then Dedup(row.job, None, true, Some(r.payload))
           else if Prolongs(r) then row.(expires := Some(db.now + r.payload.opts.dedup.value.ttl))
           else row]
  {}
}

/** The four ways a job row is inserted: standard, prioritized, delayed, and parked flow
    parent. They share one shape and differ where `Kind` is consulted. */
module Adding {
  import opened Rows
  import opened Tables
  import opened Linking

  datatype Kind = Standard | Prio | Later | FlowParent

  datatype Outcome = Added(id: JobId) | ParentMissing | ParentConflict | NoQueue

  datatype Request = Request(
    kind: Kind, queue: QueueId, custom: Option<JobId>, payload: Payload, timestamp: Millis,
    parent: Option<Key>, dedup: Option<DedupId>)

  ghost predicate LiveDedup(db: Db, q: QueueId, d: DedupId) {
    var dk := DedupKey(q, d);
    dk in db.dedups && (db.dedups[dk].expires.None? || db.dedups[dk].expires.value > db.now)
  }

  /** The row an add is folded into, when its deduplication id is held. */
  ghost predicate Suppressed(db: Db, r: Request) {
    r.dedup.Some?
    && !(r.payload.opts.dedup.Some? && r.payload.opts.dedup.value.replace)
    && LiveDedup(db, r.queue, r.dedup.value)
    && Key(r.queue, db.dedups[DedupKey(r.queue, r.dedup.value)].job) in db.jobs
  }

  function Expiry(now: Millis, ttl: int): Option<Millis> {
    if ttl > 0 then Some(now + ttl) else None
  }

  /** A suppressed add: it may extend the time to live, and with `keepLastIfActive` it is
      stashed while the holder is active. */
  ghost function Suppress(db: Db, r: Request): Db
    requires Suppressed(db, r)
  {
    var dk := DedupKey(r.queue, r.dedup.value);
    var row := db.dedups[dk];
    var de := r.payload.opts.dedup;
    var stash := r.kind != FlowParent && de.Some? && de.value.keepLast
      && db.jobs[Key(r.queue, row.job)].state == Active;
    var extend := de.Some? && de.value.extend && de.value.ttl > 0;
    var row' := if stash then Dedup(row.job, None, true, Some(r.payload))
                else if extend then row.(expires := Expiry(db.now, de.value.ttl))
                else row;
    db.(dedups := db.dedups[dk := row'])
  }

  /** The states in which `replace` may remove the previous holder. */
  function Replaceable(kind: Kind): set<JobState> {
    match kind
    case Standard => {Wait, Paused}
    case Prio => {Prioritized}
    case Later => {Delayed}
    case FlowParent => {Parked}
  }

  predicate Replaces(r: Request) {
    r.dedup.Some? && r.payload.opts.dedup.Some? && r.payload.opts.dedup.value.replace
  }

  /** Rows still carrying the id whose deduplication row no longer counts lose it. */
  ghost function ClearStale(db: Db, q: QueueId, d: DedupId): Db {
    db.(jobs := map k | k in db.jobs ::
      if k.queue == q && db.jobs[k].dedup == Some(d) && !(LiveDedup(db, q, d) && db.dedups[DedupKey(q, d)].job == k.id)
      then db.jobs[k].(dedup := None) else db.jobs[k])
  }

  ghost function NewRow(db: Db, r: Request): Job {
    Job(db.nextPk, r.payload, Delayed, r.payload.opts.priority, None, None, None, r.payload.opts.delay,
        0, 0, r.payload.opts.attempts, 0, None, None, None, r.parent, r.dedup, false)
  }

  /** The sequence number of a standard add: fresh, or one below every waiting row for LIFO. */
  ghost function InsertStandard(db: Db, k: Key, j: Job): Db {
    var q := QueueOf(db, k.queue);
    var head := Least(WaitSeqs(db, k.queue, {Wait, Paused}, None));
    if j.payload.opts.lifo && head.Some?
    then Put(db, k, j.(state := Route(q), waitSeq := Some(head.value - 1)))
    else Enqueue(db, k, j)
  }

  ghost function InsertRow(db: Db, k: Key, r: Request): Db {
    var j := NewRow(db, r);
    var db1 := db.(nextPk := db.nextPk + 1);
    match r.kind
    case Standard => InsertStandard(db1, k, j)
    case Prio => Prioritize(db1, k, j, Prioritized)
    case Later => Put(db1, k, j.(processAt := Some(r.timestamp + j.delayMs)))
    case FlowParent => Put(db1, k, j.(state := Parked))
  }

  /** The counters an insert takes even when the row turns out to exist. */
  ghost function InsertConflict(db: Db, k: Key, r: Request): Db {
    match r.kind
    case Standard =>
      if r.payload.opts.lifo && WaitSeqs(db, k.queue, {Wait, Paused}, None) != {} then db else BumpWait(db, k.queue)
    case Prio => BumpPrio(db, k.queue)
    case _ => db
  }

  /** The deduplication row now points at the new job. A flow parent overwrites only the
      holder and the expiry of a row that is already there. */
  ghost function HoldDedup(db: Db, r: Request, id: JobId): Db {
    if r.dedup.None? then db
    else
      var dk := DedupKey(r.queue, r.dedup.value);
      var de := r.payload.opts.dedup;
      var ttl := if de.Some? then de.value.ttl else 0;
      var keep := de.Some? && de.value.keepLast;
      var row :=
        if r.kind == FlowParent then
          if dk in db.dedups then db.dedups[dk].(job := id, expires := Expiry(db.now, ttl))
          else Dedup(id, Expiry(db.now, ttl), false, None)
        else Dedup(id, if keep then None else Expiry(db.now, ttl), keep, None);
      db.(dedups := db.dedups[dk := row])
  }

  ghost function LinkUp(db: Db, r: Request, k: Key): Db {
    if r.parent.Some? then Link(db, r.parent.value, k) else db
  }

  /** An add whose custom id is taken: re-links the existing row, unless it belongs to
      another parent that still exists. */
  ghost function AddExisting(db: Db, r: Request, k: Key): (Db, Outcome)
    requires k in db.jobs
  {
    var former := db.jobs[k].parent;
    if r.parent.Some? && former.Some? && former != r.parent && former.value in db.jobs then (db, ParentConflict)
    else if r.parent.Some? then
      var db1 := Link(db, r.parent.value, k);
      ((if k in db1.jobs then Put(db1, k, db1.jobs[k].(parent := r.parent)) else db1), Added(k.id))
    else (db, Added(k.id))
  }

  ghost function InsertCleared(db: Db, r: Request, k: Key): Db {
    if k in db.jobs then InsertConflict(db, k, r)
    else LinkUp(HoldDedup(InsertRow(db, k, r), r, k.id), r, k)
  }

  /** The insert proper, after deduplication has let the request through. */
  ghost function Insert(db: Db, r: Request, k: Key): (Db, Outcome) {
    (InsertCleared(if r.dedup.Some? then ClearStale(db, r.queue, r.dedup.value) else db, r, k), Added(k.id))
  }

  /** `replace`: the previous holder makes room, or keeps its place. */
  ghost function Replace(db: Db, r: Request, k: Key): (Db, Outcome)
    requires Replaces(r)
  {
    var dk := DedupKey(r.queue, r.dedup.value);
    if dk !in db.dedups then Insert(db, r, k)
    else
      var h := Key(r.queue, db.dedups[dk].job);
      if h in db.jobs && db.jobs[h].state in Replaceable(r.kind)
      then Insert(DeleteDedups(DeleteJobs(db, {h}), {dk}), r, k)
      else (db, Added(h.id))
  }

  ghost function Add(db: Db, r: Request): (Db, Outcome) {
    if r.queue !in db.queues then (db, NoQueue)
    else
      var q := db.queues[r.queue];
      var id := if r.custom.Some? then r.custom.value else q.jobNum + 1;
      var db1 := if r.custom.Some? then db else PutQueue(db, r.queue, q.(jobNum := q.jobNum + 1));
      var k := Key(r.queue, id);
      if r.parent.Some? && r.parent.value !in db1.jobs then (db1, ParentMissing)
      else if r.custom.Some? && k in db1.jobs then AddExisting(db1, r, k)
      else if Suppressed(db1, r) then
        (Suppress(db1, r), Added(db1.dedups[DedupKey(r.queue, r.dedup.value)].job))
      else if Replaces(r) then Replace(db1, r, k)
      else Insert(db1, r, k)
  }
}

/** How a claim ends or is kept alive: finish, retry, delay, wait for children, voluntary
    release, stalled sweep, and lease renewal. */
module Ending {
  import opened Rows
  import opened Ordering
  import opened Tables
  import opened Linking
  import opened Adding
  import opened Claiming

  datatype Code = Ok | Missing | LockMissing | NotActive | LockMismatch | PendingChildren | FailedChildren | NotMoved

  datatype FinishArgs = FinishArgs(
    key: Key, token: Token, ok: bool, keep: Option<nat>, age: Option<int>)

  ghost predicate HasEdge(db: Db, p: Key, status: EdgeStatus) {
    exists i :: i in db.edges && db.edges[i].parent == p && db.edges[i].status == status
  }

  function FinalState(ok: bool): JobState {
    if ok then Completed else Failed
  }

  /** Why a finish is turned away, `Ok` when it is not. */
  ghost function FinishCode(db: Db, a: FinishArgs): Code {
    if a.key !in db.jobs then (if a.ok then Ok else Missing)
    else
      var j := db.jobs[a.key];
      if j.state == FinalState(a.ok) then Ok
      else if !Unexpired(j, db.now) then LockMissing
      else if j.lockToken != Some(a.token) then LockMismatch
      else if a.ok && HasEdge(db, a.key, Pending) then PendingChildren
      else if a.ok && HasEdge(db, a.key, Broken) then FailedChildren
      else Ok
  }

  /** The finish goes through, rather than being refused or acknowledged as a repeat. */
  ghost predicate Finishes(db: Db, a: FinishArgs) {
    FinishCode(db, a) == Ok && a.key in db.jobs && db.jobs[a.key].state != FinalState(a.ok)
  }

  function EndedRow(j: Job, ok: bool, now: Millis): Job {
    var j1 := j.(state := FinalState(ok), finishedOn := Some(now), lockToken := None, lockExpires := None,
                 attemptsMade := j.attemptsMade + 1);
    if ok then j1 else j1.(delayMs := 0, deferred := false)
  }

  /** The stash of a deduplication row the job holds. */
  ghost predicate IsStash(db: Db, k: Key, d: DedupKey) {
    d in db.dedups && d.queue == k.queue && db.dedups[d].job == k.id
    && db.dedups[d].keepLast && db.dedups[d].pending.Some?
  }

  ghost predicate IsFirstStash(db: Db, k: Key, d: DedupKey) {
    IsStash(db, k, d) && forall x | IsStash(db, k, x) :: d.id <= x.id
  }

  function StashKind(p: Payload): Kind {
    if p.opts.delay > 0 then Later else if p.opts.priority > 0 then Prio else Standard
  }

  ghost function StashRequest(db: Db, d: DedupKey): Request
    requires d in db.dedups && db.dedups[d].pending.Some?
  {
    var p := db.dedups[d].pending.value;
    Request(StashKind(p), d.queue, None, p, db.now, None, Some(d.id))
  }

  /** `keepLastIfActive`: the stashed add becomes a job; otherwise the deduplication rows
      without a time to live that name the job are removed. */
  ghost function Requeue(db: Db, k: Key): Db {
    if d :| IsFirstStash(db, k, d) then Add(DeleteDedups(db, {d}), StashRequest(db, d)).0
    else
      DeleteDedups(db,
        set d | d in db.dedups && d.queue == k.queue && db.dedups[d].job == k.id && db.dedups[d].expires.None?)
  }

  ghost function EndedRows(db: Db, q: QueueId, st: JobState): set<Key> {
    set k | k in db.jobs && k.queue == q && db.jobs[k].state == st
  }

  /** Position of a finished row, counting from 1, newest finish first. */
  ghost function RowNumber(db: Db, rows: set<Key>, k: Key): nat
    requires rows <= db.jobs.Keys && k in rows
  {
    |set x | x in rows && Before(ByNewestFinish, db.jobs, x, k)| + 1
  }

  predicate TooOld(j: Job, age: Option<int>, now: Millis) {
    age.Some? && age.value > 0 && j.finishedOn.Some? && j.finishedOn.value <= now - age.value
  }

  ghost function Doomed(db: Db, q: QueueId, st: JobState, keep: Option<nat>, age: Option<int>): set<Key> {
    var rows := EndedRows(db, q, st);
    set k | k in rows && ((keep.Some? && RowNumber(db, rows, k) > keep.value) || TooOld(db.jobs[k], age, db.now))
  }

  ghost function Trim(db: Db, a: FinishArgs): Db {
    if a.keep == Some(0) then DeleteJobs(db, {a.key})
    else if a.keep.Some? || (a.age.Some? && a.age.value > 0)
    then DeleteJobs(db, Doomed(db, a.key.queue, FinalState(a.ok), a.keep, a.age))
    else db
  }

  /** The reactions of the parents of a job that has just ended. */
  ghost function NotifyParents(db: Db, a: FinishArgs, opts: JobOpts): Db {
    var ps := Sorted(ByPk, db.jobs, ParentsOf(db, a.key) * db.jobs.Keys);
    var db1 := ResolveEdges(db, a.key, opts, a.ok, a.keep == Some(0));
    var db2 := if !a.ok && opts.fpof then ForceParents(db1, ps) else db1;
    SettleParents(db2, ps, !a.ok && opts.cpof)
  }

  /** A finish that goes through. */
  ghost function DoFinish(db: Db, a: FinishArgs): Db
    requires a.key in db.jobs
  {
    var j := db.jobs[a.key];
    var db1 := if j.state == Active then Put(db, a.key, EndedRow(j, a.ok, db.now)) else db;
    Trim(NotifyParents(Requeue(db1, a.key), a, j.payload.opts), a)
  }

  ghost function Finish(db: Db, a: FinishArgs): (Db, Code) {
    if Finishes(db, a) then (DoFinish(db, a), Ok) else (db, FinishCode(db, a))
  }

  /** Immediate retry: due jobs are promoted first, then the row goes back to its list. */
  ghost function Retry(db: Db, k: Key, token: Token, lifo: bool): (Db, Code) {
    if !HeldBy(db, k, token) then (db, if k in db.jobs then NotActive else Missing)
    else
      var db1 := PromoteDue(db, k.queue);
      (RetryRow(db1, k, lifo), Ok)
  }

  ghost function RetryRow(db: Db, k: Key, lifo: bool): Db {
    if k !in db.jobs then db
    else
      var j := db.jobs[k].(attemptsMade := db.jobs[k].attemptsMade + 1, lockToken := None, lockExpires := None);
      if j.priority > 0 then
        if lifo then
          Put(db, k, j.(state := Prioritized, prioSeq := Some(PrioHead(db, k.queue, j.priority, k)), waitSeq := None))
        else Prioritize(db, k, j.(waitSeq := None), Prioritized)
      else if lifo then
        var m := Least(WaitSeqs(db, k.queue, {Wait}, None));
        Put(db, k, j.(state := Route(QueueOf(db, k.queue)),
          waitSeq := Some(if m.Some? then m.value - 1 else 0), prioSeq := None))
      else Enqueue(db, k, j.(prioSeq := None))
  }

  /** Retry with backoff (`failed`) or voluntary delay. */
  ghost function Delay(db: Db, k: Key, token: Token, processAt: Millis, delayMs: int, failed: bool): (Db, Code) {
    if k !in db.jobs then (db, Missing)
    else
      var j := db.jobs[k];
      if j.state != Active then (db, NotActive)
      else if !Unexpired(j, db.now) then (db, LockMissing)
      else if j.lockToken != Some(token) then (db, LockMismatch)
      else (Put(db, k, j.(state := Delayed, processAt := Some(processAt), delayMs := if delayMs > 0 then delayMs else 0,
                          lockToken := None, lockExpires := None,
                          attemptsMade := if failed then j.attemptsMade + 1 else j.attemptsMade)), Ok)
  }

  ghost predicate HasPendingChild(db: Db, p: Key, child: Option<Key>) {
    if child.Some? then
      child.value in db.jobs
      && exists i ::
        i in db.edges && db.edges[i].parent == p && EdgeOf(db.edges[i], child.value) && db.edges[i].status == Pending
    else HasEdge(db, p, Pending)
  }

  /** An active parent goes to wait for its children. */
  ghost function ToChildren(db: Db, k: Key, token: Token, child: Option<Key>): (Db, Code) {
    if k !in db.jobs then (db, Missing)
    else if HasEdge(db, k, Broken) then (db, FailedChildren)
    else if !HasPendingChild(db, k, child) then (db, NotMoved)
    else
      var j := db.jobs[k];
      if j.lockToken.None? then (db, LockMissing)
      else if j.lockToken != Some(token) then (db, LockMismatch)
      else if j.state != Active then (db, NotActive)
      else (Put(db, k, Unlocked(j).(state := Parked)), Ok)
  }

  /** `coalesce(min(wait_seq) - 1, next)` over one list. */
  ghost function HeadOfList(db: Db, k: Key, j: Job, state: JobState): Db {
    var m := Least(WaitSeqs(db, k.queue, {state}, None));
    if m.Some? then Put(db, k, j.(state := state, waitSeq := Some(m.value - 1)))
    else
      Put(BumpWait(db, k.queue), k, j.(state := state, waitSeq := Some(QueueOf(db, k.queue).waitNum + 1)))
  }

  /** Voluntary release back to the head of the job's own list. */
  ghost function Release(db: Db, k: Key, token: Token): (Db, Code) {
    if !HeldBy(db, k, token) then (db, Missing)
    else
      var j := Unlocked(db.jobs[k]);
      if QueueOf(db, k.queue).paused then (HeadOfList(db, k, j, Paused), Ok)
      else if j.priority > 0 then
        var head := PrioHead(db, k.queue, j.priority, k);
        (Put(db, k, j.(state := Prioritized, prioSeq := Some(head), waitSeq := None)), Ok)
      else (HeadOfList(db, k, j, Wait), Ok)
  }

  /** Active rows whose lease has run out. */
  ghost function Stalled(db: Db, q: QueueId): set<Key> {
    set k | k in db.jobs && k.queue == q && db.jobs[k].state == Active
      && db.jobs[k].lockExpires.Some? && db.jobs[k].lockExpires.value < db.now
  }

  predicate StalledTooOften(j: Job, maxStalled: int) {
    j.stalled + 1 > maxStalled
  }

  function StalledRow(j: Job): Job {
    j.(stalled := j.stalled + 1, deferred := false, lockToken := None, lockExpires := None)
  }

  /** Position among the rows requeued together, counting from 1, newest row first. */
  ghost function SweepNumber(db: Db, rows: set<Key>, k: Key): nat
    requires rows <= db.jobs.Keys && k in rows
  {
    |set x | x in rows && Before(ByNewestPk, db.jobs, x, k)| + 1
  }

  ghost function Requeued(db: Db, q: QueueId, maxStalled: int): set<Key> {
    set k | k in Stalled(db, q) && !StalledTooOften(db.jobs[k], maxStalled)
  }

  ghost function SweptRow(db: Db, q: QueueId, maxStalled: int, k: Key): Job
    requires k in Stalled(db, q)
  {
    var j := StalledRow(db.jobs[k]);
    if StalledTooOften(db.jobs[k], maxStalled) then j.(state := Failed, finishedOn := Some(db.now), delayMs := 0)
    else
      j.(state := Route(QueueOf(db, q)),
         waitSeq := Some(QueueOf(db, q).waitNum + SweepNumber(db, Requeued(db, q, maxStalled), k)))
  }

  ghost function Sweep(db: Db, q: QueueId, maxStalled: int): Db {
    var n := |Requeued(db, q, maxStalled)|;
    var db1 := db.(jobs := map k | k in db.jobs ::
      if k in Stalled(db, q) then SweptRow(db, q, maxStalled, k) else db.jobs[k]);
    if n == 0 then db1 else PutQueue(db1, q, QueueOf(db, q).(waitNum := QueueOf(db, q).waitNum + n))
  }

  /** Single renewal: only while the lease still runs. */
  ghost function Extend(db: Db, k: Key, token: Token, durationMs: int): (Db, Code) {
    if HeldBy(db, k, token) && db.jobs[k].lockExpires.Some? && db.jobs[k].lockExpires.value > db.now
    then (Put(db, k, db.jobs[k].(lockExpires := Some(db.now + durationMs))), Ok)
    else (db, LockMissing)
  }

  datatype Lease = Lease(id: JobId, token: Token)

  /** Batch renewal: any active row with the token, expired or not. */
  ghost predicate Renews(db: Db, q: QueueId, leases: seq<Lease>, k: Key) {
    k in db.jobs && k.queue == q && db.jobs[k].state == Active && db.jobs[k].lockToken.Some?
    && db.jobs[k].lockExpires.Some? && Lease(k.id, db.jobs[k].lockToken.value) in leases
  }

  ghost function ExtendMany(db: Db, q: QueueId, leases: seq<Lease>, durationMs: int): Db {
    db.(jobs := map k | k in db.jobs ::
      if Renews(db, q, leases, k) then db.jobs[k].(lockExpires := Some(db.now + durationMs)) else db.jobs[k])
  }

  /** The ids the batch renewal reports back as not renewed. */
  ghost function NotRenewed(db: Db, q: QueueId, leases: seq<Lease>): set<JobId> {
    set l | l in leases && !Renews(db, q, leases, Key(q, l.id)) :: l.id
  }
}

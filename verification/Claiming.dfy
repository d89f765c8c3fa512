/** Taking a job: promotion of due delayed jobs, the limiter, pause and concurrency gates,
    the pick, and the lease. */
module Claiming {
  import opened Rows
  import opened Ordering
  import opened Tables

  ghost function Due(db: Db, q: QueueId): set<Key> {
    set k | k in db.jobs && k.queue == q && db.jobs[k].state == Delayed
      && db.jobs[k].processAt.Some? && db.jobs[k].processAt.value <= db.now
  }

  /** One delayed row moves to the list its priority and its queue's pause flag select. */
  ghost function PromoteOne(db: Db, k: Key): Db
    requires k in db.jobs
  {
    var j := db.jobs[k].(delayMs := 0);
    if j.priority > 0 then Prioritize(db, k, j, if QueueOf(db, k.queue).paused then Paused else Prioritized)
    else Enqueue(db, k, j)
  }

  ghost function PromoteSeq(db: Db, ks: seq<Key>): (db': Db)
    ensures db'.jobs.Keys == db.jobs.Keys
  {
    if ks == [] then db
    else
      var db1 := PromoteSeq(db, ks[..|ks| - 1]);
      var k := ks[|ks| - 1];
      if k in db1.jobs then PromoteOne(db1, k) else db1
  }

  ghost function PromoteDue(db: Db, q: QueueId): Db {
    PromoteSeq(db, Sorted(ByDue, db.jobs, Due(db, q)))
  }

  /** An expired limiter window is dropped. */
  function LiveWindow(w: Option<Window>, now: Millis): Option<Window> {
    if w.Some? && w.value.expires.Some? && w.value.expires.value <= now then None else w
  }

  /** The limiter lets no claim through while its window is live and used up. */
  predicate Throttled(w: Option<Window>, limiter: Option<Limiter>, now: Millis) {
    limiter.Some? && w.Some? && w.value.expires.Some? && w.value.expires.value > now
    && w.value.tokens >= limiter.value.max
  }

  /** A claim counts one token; the first of a window sets its expiry. */
  function TakeToken(w: Option<Window>, limiter: Option<Limiter>, now: Millis): Option<Window> {
    if limiter.None? then w
    else if w.Some? then Some(w.value.(tokens := w.value.tokens + 1))
    else Some(Window(1, Some(now + limiter.value.duration)))
  }

  /** The active rows of a queue whose lease has not run out. */
  ghost function LiveLeases(db: Db, q: QueueId): set<Key> {
    set k | k in db.jobs && k.queue == q && db.jobs[k].state == Active
      && db.jobs[k].lockExpires.Some? && db.jobs[k].lockExpires.value > db.now
  }

  predicate SeqLess(x: Option<int>, y: Option<int>) {
    x.Some? && (y.None? || x.value < y.value)
  }

  predicate Claimable(j: Job) {
    j.state == Wait || j.state == Prioritized
  }

  /** The order rows are taken in: waiting rows by wait sequence, nulls last, then prioritized
      rows by priority and priority sequence. */
  predicate ClaimsBefore(x: Job, y: Job) {
    if x.state == Wait then y.state == Prioritized || (y.state == Wait && SeqLess(x.waitSeq, y.waitSeq))
    else (
      && x.state == Prioritized && y.state == Prioritized
      && (x.priority < y.priority || (x.priority == y.priority && SeqLess(x.prioSeq, y.prioSeq)))
    )
  }

  /** A row the database may return: claimable, with none strictly before it. */
  ghost predicate Picks(db: Db, q: QueueId, k: Key) {
    k in db.jobs && k.queue == q && Claimable(db.jobs[k])
    && forall x | x in db.jobs && x.queue == q && Claimable(db.jobs[x]) :: !ClaimsBefore(db.jobs[x], db.jobs[k])
  }

  datatype ClaimArgs = ClaimArgs(
    queue: QueueId, token: Token, lockMs: int, limiter: Option<Limiter>, pick: Key)

  ghost function EffectiveLimiter(db: Db, a: ClaimArgs): Option<Limiter> {
    if a.limiter.Some? then a.limiter else QueueOf(db, a.queue).limiter
  }

  ghost function DropExpiredWindow(db: Db, q: QueueId): Db {
    PutQueue(db, q, QueueOf(db, q).(window := LiveWindow(QueueOf(db, q).window, db.now)))
  }

  /** The state in which the gates are checked: window trimmed, due jobs promoted. */
  ghost function Prepared(db: Db, q: QueueId): Db {
    PromoteDue(DropExpiredWindow(db, q), q)
  }

  ghost predicate GatesOpen(db: Db, a: ClaimArgs) {
    var q := QueueOf(db, a.queue);
    && !Throttled(q.window, EffectiveLimiter(db, a), db.now)
    && !q.paused
    && (q.concurrency.Some? ==> |LiveLeases(db, a.queue)| < q.concurrency.value)
  }

  function Leased(j: Job, token: Token, expires: Millis): Job {
    j.(state := Active, lockToken := Some(token), lockExpires := Some(expires),
       attemptsStarted := j.attemptsStarted + 1)
  }

  ghost function Activate(db: Db, a: ClaimArgs): Db
    requires a.pick in db.jobs
  {
    var q := QueueOf(db, a.queue);
    PutQueue(Put(db, a.pick, Leased(db.jobs[a.pick], a.token, db.now + a.lockMs)), a.queue,
             q.(window := TakeToken(q.window, EffectiveLimiter(db, a), db.now)))
  }

  /** Whether the call takes `a.pick`. Which of several rows with equal sequences comes back
      is the database's choice, so `pick` is a parameter; one it could not return is no claim. */
  ghost predicate Takes(db: Db, a: ClaimArgs) {
    a.queue in db.queues && GatesOpen(Prepared(db, a.queue), a) && Picks(Prepared(db, a.queue), a.queue, a.pick)
  }

  ghost function Claim(db: Db, a: ClaimArgs): Db {
    if a.queue !in db.queues then db
    else
      var db1 := Prepared(db, a.queue);
      if GatesOpen(db1, a) && Picks(db1, a.queue, a.pick) then Activate(db1, a) else db1
  }
}

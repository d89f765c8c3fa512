/** The worker's lease renewal: the timer over the tracked jobs, and the bound under which no job
    of a live worker is ever swept. */
module Renewing {
  import opened Rows
  import opened Ordering
  import opened Claiming
  import opened Ending
  import opened Managing
  import opened Machine
  import opened Lives
  import opened Fencing
  import opened Limits

  /** `ts` is the time of the last renewal or of the claim, 0 when the claim carried none. */
  datatype Tracked = Tracked(token: Token, ts: Millis)

  /** More than half the renewal time has passed (doubled, so that odd times need no fraction). */
  predicate Overdue(t: Tracked, renewTime: nat, now: Millis) {
    t.ts != 0 && 2 * t.ts + renewTime < 2 * now
  }

  function Ticked(m: map<JobId, Tracked>, renewTime: nat, now: Millis): map<JobId, Tracked> {
    map id | id in m :: if m[id].ts == 0 || Overdue(m[id], renewTime, now) then m[id].(ts := now) else m[id]
  }

  function DueIds(m: map<JobId, Tracked>, renewTime: nat, now: Millis): set<JobId> {
    set id | id in m && Overdue(m[id], renewTime, now)
  }

  class LockManager {
    const renewTime: nat
    var trackedJobs: map<JobId, Tracked>
    var closed: bool

    constructor (renewTime: nat)
      ensures this.renewTime == renewTime && trackedJobs == map[] && !closed
    {
      this.renewTime := renewTime;
      trackedJobs, closed := map[], false;
    }

    method TrackJob(id: JobId, token: Token, ts: Millis)
      modifies this
      ensures trackedJobs == if old(closed) then old(trackedJobs) else old(trackedJobs)[id := Tracked(token, ts)]
      ensures closed == old(closed)
    {
      if !closed {
        trackedJobs := trackedJobs[id := Tracked(token, ts)];
      }
    }

    method UntrackJob(id: JobId)
      modifies this
      ensures trackedJobs == old(trackedJobs) - {id} && closed == old(closed)
    {
      trackedJobs := trackedJobs - {id};
    }

    method Close()
      modifies this
      ensures closed && (if old(closed) then trackedJobs == old(trackedJobs) else trackedJobs == map[])
    {
      if !closed {
        closed, trackedJobs := true, map[];
      }
    }

    /** The body of the timer, up to the call that extends the locks. */
    method Tick(now: Millis) returns (jobsToExtend: seq<JobId>)
      modifies this
      ensures trackedJobs == Ticked(old(trackedJobs), renewTime, now) && closed == old(closed)
      ensures forall id :: id in jobsToExtend <==> id in DueIds(old(trackedJobs), renewTime, now)
      ensures forall id :: id in jobsToExtend <==>
        id in old(trackedJobs) && old(trackedJobs)[id].ts != 0 && 2 * (now - old(trackedJobs)[id].ts) > renewTime
      ensures trackedJobs.Keys == old(trackedJobs).Keys
      ensures forall id | id in trackedJobs :: trackedJobs[id] == old(trackedJobs)[id].(
        ts := if id in jobsToExtend || old(trackedJobs)[id].ts == 0 then now else old(trackedJobs)[id].ts)
    {
      jobsToExtend := [];
      var keys := trackedJobs.Keys;
      ghost var before := trackedJobs;
      while keys != {}
        invariant keys <= before.Keys && trackedJobs.Keys == before.Keys && closed == old(closed)
        invariant forall id | id in before ::
          trackedJobs[id] == if id in keys then before[id] else Ticked(before, renewTime, now)[id]
        invariant forall id :: id in jobsToExtend <==> id in DueIds(before, renewTime, now) && id !in keys
        decreases keys
      {
        var id :| id in keys;
        keys := keys - {id};
        var tracked := trackedJobs[id];
        if tracked.ts == 0 {
          trackedJobs := trackedJobs[id := Tracked(tracked.token, now)];
        } else if 2 * tracked.ts + renewTime < 2 * now {
          trackedJobs := trackedJobs[id := Tracked(tracked.token, now)];
          jobsToExtend := jobsToExtend + [id];
        }
      }
    }
  }

  // ---------------------------------------------------------------- the worker and the queue together

  /** A worker on queue `queue`: what it tracks, the time of its last tick, the renewals of that tick
      that have not reached the database yet, and the jobs it has given up and not yet untracked. */
  datatype World = World(
    db: Db, queue: QueueId, tracked: map<JobId, Tracked>, tick: Millis, sent: set<JobId>, ended: set<JobId>)

  /** Ticks follow one another within half the renewal time plus `late`; a renewal is under way for
      at most `latency`, which is part of `late` because the timer is set again only after it. */
  datatype Timing = Timing(renewTime: nat, late: nat, latency: nat, lockMs: int)

  datatype Move =
    | Others(op: Op)
    | Own(id: JobId, op: Op)
    | Ticks
    | Arrives(leases: seq<Lease>)
    | Tracks(id: JobId, token: Token, ts: Millis)
    | Untracks(id: JobId)

  function LeaseOf(w: World, id: JobId): Lease
    requires id in w.tracked
  {
    Lease(id, w.tracked[id].token)
  }

  /** The jobs the worker tracks and has not given up. */
  function Kept(w: World): set<JobId> {
    w.tracked.Keys - w.ended
  }

  ghost predicate Leads(db: Db, k: Key, t: Token) {
    Holds(db, k, t) && db.jobs[k].state == Active && db.jobs[k].lockExpires.Some?
  }

  /** When the lease was written, under a lock duration of `lockMs`. */
  ghost function LeasedAt(db: Db, k: Key, t: Token, lockMs: int): Millis
    requires Leads(db, k, t)
  {
    db.jobs[k].lockExpires.value - lockMs
  }

  /** Clock time may pass only up to the next tick, or to the arrival of what is under way. */
  predicate OnTime(w: World, t: Timing, now: Millis) {
    if w.sent != {} then now <= w.tick + t.latency else 2 * (now - w.tick) <= t.renewTime + 2 * t.late
  }

  /** The renewal under way for the id, if there is one, is under this token. */
  predicate SentAs(w: World, id: JobId, token: Token) {
    id in w.sent && id in w.tracked && w.tracked[id].token == token
  }

  /** What a move may be. Steps of others leave the leases of this worker alone, and its own calls
      other than renewals are about a job it tracks. Ticks wait for the renewals under way. A job is
      tracked with a time not after its lease was written, and that less than half a renewal time
      before the last tick; tracked again, it meets this by itself. */
  ghost predicate Allowed(w: World, t: Timing, m: Move) {
    match m
    case Others(op) =>
      && (forall id | id in Kept(w) :: !CallUnder(op, Key(w.queue, id), w.tracked[id].token))
      && (op.OpExtendMany? && op.queue == w.queue ==> forall id | id in Kept(w) :: LeaseOf(w, id) !in op.leases)
      && (op.OpTick? ==> OnTime(w, t, w.db.now + op.ms))
    case Own(id, op) => id in w.tracked && CallUnder(op, Key(w.queue, id), w.tracked[id].token) && !op.OpExtend?
    case Ticks => w.sent == {}
    case Arrives(ls) =>
      && (forall id | id in Kept(w) && id in w.sent :: LeaseOf(w, id) in ls)
      && (forall id | id in Kept(w) && id !in w.sent :: LeaseOf(w, id) !in ls)
    case Tracks(id, token, ts) =>
      var k := Key(w.queue, id);
      && 0 < ts <= w.db.now && Leads(w.db, k, token) && ts <= LeasedAt(w.db, k, token, t.lockMs)
      && (id !in Kept(w) || w.tracked[id].token != token ==>
            2 * w.tick <= 2 * LeasedAt(w.db, k, token, t.lockMs) + t.renewTime)
    case Untracks(id) => true
  }

  ghost function After(w: World, t: Timing, m: Move): World {
    match m
    case Others(op) => w.(db := Step(w.db, op))
    case Own(id, op) =>
      var db' := Step(w.db, op);
      w.(db := db',
         ended :=
           if id in w.tracked && !Holds(db', Key(w.queue, id), w.tracked[id].token) then w.ended + {id} else w.ended)
    case Ticks =>
      w.(tracked := Ticked(w.tracked, t.renewTime, w.db.now), tick := w.db.now,
         sent := DueIds(w.tracked, t.renewTime, w.db.now))
    case Arrives(ls) => w.(db := Step(w.db, OpExtendMany(w.queue, ls, t.lockMs)), sent := {})
    case Tracks(id, token, ts) =>
      w.(tracked := w.tracked[id := Tracked(token, ts)], ended := w.ended - {id},
         sent := if SentAs(w, id, token) && id !in w.ended then w.sent else w.sent - {id})
    case Untracks(id) => w.(tracked := w.tracked - {id}, sent := w.sent - {id}, ended := w.ended - {id})
  }

  /** The lease of a tracked job outlasts what may still happen before its next renewal. */
  ghost predicate Backed(w: World, t: Timing, id: JobId)
    requires id in w.tracked
  {
    var k, e := Key(w.queue, id), w.tracked[id];
    && Leads(w.db, k, e.token) && 0 < e.ts <= w.db.now
    && var at := LeasedAt(w.db, k, e.token, t.lockMs);
       if id in w.sent then at >= w.tick - t.renewTime - t.late
       else e.ts <= at && 2 * w.tick <= 2 * at + t.renewTime
  }

  ghost predicate Safe(w: World, t: Timing) {
    && LeasesSound(w.db) && w.tick <= w.db.now && OnTime(w, t, w.db.now)
    && forall id | id in Kept(w) :: Backed(w, t, id)
  }

  predicate Ample(t: Timing) {
    t.renewTime + t.late + t.latency < t.lockMs && t.latency <= t.late
  }

  /** While the worker is safe, none of the leases it has not given up has run out. */
  lemma BackedIsLive(w: World, t: Timing, id: JobId)
    requires Safe(w, t) && Ample(t) && id in Kept(w)
    ensures var k := Key(w.queue, id);
      k in w.db.jobs && w.db.jobs[k].lockExpires.Some? && w.db.jobs[k].lockExpires.value > w.db.now
  {
    assert Backed(w, t, id);
  }

  /** A step of others neither takes nor shortens a live lease. */
  lemma LeaseUntouched(db: Db, op: Op, k: Key, token: Token)
    requires LeasesSound(db) && Leads(db, k, token) && db.jobs[k].lockExpires.value > db.now
    requires !CallUnder(op, k, token)
    requires op.OpExtendMany? && op.queue == k.queue ==> Lease(k.id, token) !in op.leases
    ensures Leads(Step(db, op), k, token) && Step(db, op).jobs[k].lockExpires == db.jobs[k].lockExpires
  {
    hide Step, CallUnder, Takes;
    var db', e := Step(db, op), EffectOf(db, op);
    if !Holds(db', k, token) {
      ClaimEndsOnlyBy(db, op, k, token);
    }
    StepLife(db, op);
    EffectWellAimed(db, op);
    LeaseCarried(db, e, db', k);
    NotRenewedBy(db, op, k, token);
  }

  lemma LeaseCarried(db: Db, e: Effect, db': Db, k: Key)
    requires AllLiveOn(db, e, db') && WellAimed(db, e) && LeasesSound(db) && k in db.jobs && db.jobs[k].state == Active
    requires k in db'.jobs && db'.jobs[k].lockToken == db.jobs[k].lockToken
    ensures db'.jobs[k].state == Active
    ensures !(e.Extends? && k in e.keys) ==> db'.jobs[k].lockExpires == db.jobs[k].lockExpires
  {
    assert Sound(LifeOf(db.jobs[k]));
    LeaseCarriedAt(db, e, db', k);
  }

  lemma LeaseCarriedAt(db: Db, e: Effect, db': Db, k: Key)
    requires AllLiveOn(db, e, db') && k in db'.jobs && k in db.jobs && db.jobs[k].state == Active
    ensures CarriedBy(db, e, db', k) || (e.Ends? && e.key == k && LivesOn(db, e, db', k))
  {}

  lemma NotRenewedBy(db: Db, op: Op, k: Key, token: Token)
    requires Leads(db, k, token) && !CallUnder(op, k, token)
    requires op.OpExtendMany? && op.queue == k.queue ==> Lease(k.id, token) !in op.leases
    ensures !(EffectOf(db, op).Extends? && k in EffectOf(db, op).keys)
  {
    hide Takes, Sorted, Movable, HasEdge, HasPendingChild;
  }

  lemma OthersSafe(w: World, t: Timing, op: Op)
    requires Safe(w, t) && Ample(t) && Allowed(w, t, Others(op))
    ensures Safe(After(w, t, Others(op)), t)
  {
    hide Step, CallUnder;
    var w' := After(w, t, Others(op));
    StepSound(w.db, op);
    NowAfter(w.db, op);
    forall id | id in Kept(w) ensures Backed(w', t, id) {
      assert Backed(w, t, id);
      BackedIsLive(w, t, id);
      LeaseUntouched(w.db, op, Key(w.queue, id), w.tracked[id].token);
    }
  }

  /** A call of the worker on one of its jobs touches no other, and one that is refused not even that. */
  lemma OwnSafe(w: World, t: Timing, id: JobId, op: Op)
    requires Safe(w, t) && Ample(t) && Allowed(w, t, Own(id, op))
    ensures Safe(After(w, t, Own(id, op)), t)
  {
    hide Step;
    var w' := After(w, t, Own(id, op));
    StepSound(w.db, op);
    NowAfter(w.db, op);
    forall x | x in Kept(w') ensures Backed(w', t, x) {
      assert Backed(w, t, x);
      BackedIsLive(w, t, x);
      if x == id {
        LeaseRefused(w.db, op, Key(w.queue, id), w.tracked[id].token);
      } else {
        LeaseUntouched(w.db, op, Key(w.queue, x), w.tracked[x].token);
      }
    }
  }

  /** A call that leaves the lease with its token leaves the expiry as well. */
  lemma LeaseRefused(db: Db, op: Op, k: Key, token: Token)
    requires LeasesSound(db) && Leads(db, k, token) && CallUnder(op, k, token) && !op.OpExtend?
    requires Holds(Step(db, op), k, token)
    ensures Leads(Step(db, op), k, token) && Step(db, op).jobs[k].lockExpires == db.jobs[k].lockExpires
  {
    hide Step, Takes;
    StepLife(db, op);
    EffectWellAimed(db, op);
    LeaseCarried(db, EffectOf(db, op), Step(db, op), k);
    CallExtendsNone(db, op, k, token);
  }

  lemma CallExtendsNone(db: Db, op: Op, k: Key, token: Token)
    requires CallUnder(op, k, token) && !op.OpExtend?
    ensures !EffectOf(db, op).Extends?
  {
    hide Takes, HasEdge, HasPendingChild;
  }

  lemma NowAfter(db: Db, op: Op)
    requires LeasesSound(db)
    ensures Step(db, op).now == if op.OpTick? then db.now + op.ms else db.now
  {
    hide Step;
    StepNow(db, op);
  }

  lemma TicksSafe(w: World, t: Timing)
    requires Safe(w, t) && Ample(t) && Allowed(w, t, Ticks)
    ensures Safe(After(w, t, Ticks), t)
  {
    var w' := After(w, t, Ticks);
    forall id | id in Kept(w') ensures Backed(w', t, id) { assert Backed(w, t, id); }
  }

  lemma RenewedLease(w: World, t: Timing, ls: seq<Lease>, id: JobId)
    requires id in w.tracked && Leads(w.db, Key(w.queue, id), w.tracked[id].token)
    ensures var k := Key(w.queue, id); var db' := ExtendMany(w.db, w.queue, ls, t.lockMs);
      Leads(db', k, w.tracked[id].token)
      && db'.jobs[k].lockExpires == if LeaseOf(w, id) in ls then Some(w.db.now + t.lockMs) else w.db.jobs[k].lockExpires
  {}

  lemma ArrivesSafe(w: World, t: Timing, ls: seq<Lease>)
    requires Safe(w, t) && Ample(t) && Allowed(w, t, Arrives(ls))
    ensures Safe(After(w, t, Arrives(ls)), t)
  {
    hide LeasesSound;
    var w' := After(w, t, Arrives(ls));
    StepSound(w.db, OpExtendMany(w.queue, ls, t.lockMs));
    forall id | id in Kept(w') ensures Backed(w', t, id) {
      assert Backed(w, t, id);
      RenewedLease(w, t, ls, id);
    }
  }

  /** Whatever the worker and everybody else do, in any order, the worker stays safe. */
  lemma MoveSafe(w: World, t: Timing, m: Move)
    requires Safe(w, t) && Ample(t) && Allowed(w, t, m)
    ensures Safe(After(w, t, m), t)
  {
    hide Safe, Allowed, After;
    match m
    case Others(op) => OthersSafe(w, t, op);
    case Own(id, op) => OwnSafe(w, t, id, op);
    case Ticks => TicksSafe(w, t);
    case Arrives(ls) => ArrivesSafe(w, t, ls);
    case Tracks(_, _, _) => TracksSafe(w, t, m);
    case Untracks(_) => UntracksSafe(w, t, m);
  }

  lemma TracksSafe(w: World, t: Timing, m: Move)
    requires Safe(w, t) && Ample(t) && Allowed(w, t, m) && m.Tracks?
    ensures Safe(After(w, t, m), t)
  {
    hide LeasesSound;
    var w' := After(w, t, m);
    forall x | x in Kept(w') ensures Backed(w', t, x) {
      if x in Kept(w) { assert Backed(w, t, x); }
    }
  }

  lemma UntracksSafe(w: World, t: Timing, m: Move)
    requires Safe(w, t) && Ample(t) && m.Untracks?
    ensures Safe(After(w, t, m), t)
  {
    hide LeasesSound;
    var w' := After(w, t, m);
    forall x | x in Kept(w') ensures Backed(w', t, x) { assert Backed(w, t, x); }
  }

  ghost predicate AllowedRun(w: World, t: Timing, ms: seq<Move>)
    decreases |ms|
  {
    ms == [] || (AllowedRun(w, t, ms[..|ms| - 1]) && Allowed(AfterAll(w, t, ms[..|ms| - 1]), t, ms[|ms| - 1]))
  }

  ghost function AfterAll(w: World, t: Timing, ms: seq<Move>): World {
    if ms == [] then w else After(AfterAll(w, t, ms[..|ms| - 1]), t, ms[|ms| - 1])
  }

  lemma {:induction false} RunSafe(w: World, t: Timing, ms: seq<Move>)
    requires Safe(w, t) && Ample(t) && AllowedRun(w, t, ms)
    ensures Safe(AfterAll(w, t, ms), t)
  {
    if ms != [] {
      hide Safe, Allowed, After;
      RunSafe(w, t, ms[..|ms| - 1]);
      MoveSafe(AfterAll(w, t, ms[..|ms| - 1]), t, ms[|ms| - 1]);
    }
  }

  lemma RenewedLately(w: World, t: Timing, id: JobId)
    requires Safe(w, t) && Ample(t) && id in Kept(w)
    ensures var k, token := Key(w.queue, id), w.tracked[id].token;
      Leads(w.db, k, token)
      && w.db.now - LeasedAt(w.db, k, token, t.lockMs) <= t.renewTime + t.late + (if w.sent == {} then 0 else t.latency)
  {
    assert Backed(w, t, id);
  }

  /** In every run the lease of a tracked job was written at most the renewal time plus the lateness
      of the timer ago, and the latency of a renewal while one is under way. */
  lemma RenewedWithin(w: World, t: Timing, ms: seq<Move>, id: JobId)
    requires Safe(w, t) && Ample(t) && AllowedRun(w, t, ms) && id in Kept(AfterAll(w, t, ms))
    ensures var end := AfterAll(w, t, ms); var k, token := Key(end.queue, id), end.tracked[id].token;
      Leads(end.db, k, token)
      && end.db.now - LeasedAt(end.db, k, token, t.lockMs) <= t.renewTime + t.late
        + (if end.sent == {} then 0 else t.latency)
  {
    hide Safe, Ample, AllowedRun;
    RunSafe(w, t, ms);
    RenewedLately(AfterAll(w, t, ms), t, id);
  }

  /** In any run in which renewal time, lateness and latency stay below the lock duration, no job
      a live worker tracks and has not given up itself is ever swept: it is not among the stalled
      rows of any state. */
  lemma LiveWorkerIsNeverSwept(w: World, t: Timing, ms: seq<Move>, id: JobId)
    requires Safe(w, t) && Ample(t) && AllowedRun(w, t, ms) && id in Kept(AfterAll(w, t, ms))
    ensures var end := AfterAll(w, t, ms);
      Key(w.queue, id) !in Stalled(end.db, w.queue) && end.db.jobs.Keys >= {Key(w.queue, id)}
      && end.db.jobs[Key(w.queue, id)].lockToken == Some(end.tracked[id].token)
  {
    hide Safe, Ample, AllowedRun;
    RunSafe(w, t, ms);
    SameQueueAlong(w, t, ms);
    BackedIsLive(AfterAll(w, t, ms), t, id);
    BackedToken(AfterAll(w, t, ms), t, id);
  }

  lemma BackedToken(w: World, t: Timing, id: JobId)
    requires Safe(w, t) && id in Kept(w)
    ensures Holds(w.db, Key(w.queue, id), w.tracked[id].token)
  {
    assert Backed(w, t, id);
  }

  lemma {:induction false} SameQueueAlong(w: World, t: Timing, ms: seq<Move>)
    ensures AfterAll(w, t, ms).queue == w.queue
  {
    if ms != [] {
      hide Step;
      SameQueueAlong(w, t, ms[..|ms| - 1]);
    }
  }
}

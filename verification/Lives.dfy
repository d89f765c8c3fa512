/** The life of a row: its phase, its lease and its attempt counters. Every step has one
    `Effect` on the lives of all rows; `StepLife` proves that it has no other. */
module Lives {
  import opened Rows
  import opened Ordering
  import opened Tables
  import opened Linking
  import opened Adding
  import opened Claiming
  import opened Ending
  import opened Managing
  import opened Flows
  import opened Machine
  import opened Frames

  datatype Life = Life(
    phase: Phase, token: Option<Token>, expires: Option<Millis>, made: nat, started: nat, stalls: nat)

  function LifeOf(j: Job): Life {
    Life(PhaseOf(j), j.lockToken, j.lockExpires, j.attemptsMade, j.attemptsStarted, j.stalled)
  }

  /** A lease is a token with an expiry, and exactly the running rows have one. */
  predicate Sound(l: Life) {
    (l.phase == Running <==> l.token.Some?) && (l.phase == Running <==> l.expires.Some?)
  }

  ghost predicate LeasesSound(db: Db) {
    forall k | k in db.jobs :: Sound(LifeOf(db.jobs[k]))
  }

  function Freed(l: Life, phase: Phase): Life {
    l.(phase := phase, token := None, expires := None)
  }

  /** What one step does to leases and counters. */
  datatype Effect =
    | Still
    | Claims(key: Key, token: Token, expires: Millis)
    | Ends(key: Key, phase: Phase, counted: bool)
    | Sweeps(dead: set<Key>, back: set<Key>)
    | Extends(keys: set<Key>, expires: Millis)
    | Revives(key: Key, resetMade: bool, resetStarted: bool)
    | MovesBack(keys: set<Key>)

  function Applied(l: Life, k: Key, e: Effect): Life {
    match e
    case Still => l
    case Claims(x, t, until) =>
      if k == x then Life(Running, Some(t), Some(until), l.made, l.started + 1, l.stalls) else l
    case Ends(x, phase, counted) =>
      if k == x then Freed(l, phase).(made := if counted then l.made + 1 else l.made) else l
    case Sweeps(dead, back) =>
      if k in dead then Freed(l, Dead).(stalls := l.stalls + 1)
      else if k in back then Freed(l, Idle).(stalls := l.stalls + 1) else l
    case Extends(keys, until) => if k in keys then l.(expires := Some(until)) else l
    case Revives(x, m, s) =>
      if k == x then l.(phase := Idle, made := if m then 0 else l.made, started := if s then 0 else l.started) else l
    case MovesBack(keys) => if k in keys then l.(phase := Idle) else l
  }

  ghost function Moved(db: Db, q: QueueId, from: JobState, count: nat, upTo: Millis): set<Key> {
    var st := SourceState(from);
    Elements(FirstN(Sorted(BatchOrder(st), db.jobs, Movable(db, q, st, upTo)), count))
  }

  ghost function TooStalled(db: Db, q: QueueId, m: int): set<Key> {
    set k | k in Stalled(db, q) && StalledTooOften(db.jobs[k], m)
  }

  ghost function Renewed(db: Db, q: QueueId, ls: seq<Lease>): set<Key> {
    set k | k in db.jobs && Renews(db, q, ls, k)
  }

  /** The effect of a step, read off the state it starts in. */
  ghost function EffectOf(db: Db, op: Op): Effect {
    match op
    case OpClaim(a) => if Takes(db, a) then Claims(a.pick, a.token, db.now + a.lockMs) else Still
    case OpFinish(a) => if Finishes(db, a) then Ends(a.key, if a.ok then Succeeded else Dead, true) else Still
    case OpRetry(k, t, _) => if HeldBy(db, k, t) then Ends(k, Idle, true) else Still
    case OpDelay(k, t, at, ms, failed) =>
      if Delay(db, k, t, at, ms, failed).1 == Ok then Ends(k, Idle, failed) else Still
    case OpToChildren(k, t, c) => if ToChildren(db, k, t, c).1 == Ok then Ends(k, Idle, false) else Still
    case OpRelease(k, t) => if HeldBy(db, k, t) then Ends(k, Idle, false) else Still
    case OpSweep(q, m) => Sweeps(TooStalled(db, q, m), Requeued(db, q, m))
    case OpExtend(k, t, ms) => if Extend(db, k, t, ms).1 == Ok then Extends({k}, db.now + ms) else Still
    case OpExtendMany(q, ls, ms) => Extends(Renewed(db, q, ls), db.now + ms)
    case OpReprocess(k, m, s, t) => if Reprocess(db, k, m, s, t).1 == Ok then Revives(k, m, s) else Still
    case OpMoveBatch(q, from, n, t) => MovesBack(Moved(db, q, from, n, t))
    case _ => Still
  }

  predicate SameJob(j: Job, j': Job) {
    j'.pk == j.pk && j'.payload == j.payload && j'.maxAttempts == j.maxAttempts
  }

  /** Row `k` of `db'` is row `k` of `db` with the effect applied to its life. */
  ghost predicate CarriedBy(db: Db, e: Effect, db': Db, k: Key) {
    && k in db.jobs && k in db'.jobs
    && SameJob(db.jobs[k], db'.jobs[k]) && LifeOf(db'.jobs[k]) == Applied(LifeOf(db.jobs[k]), k, e)
  }

  ghost predicate LivesOn(db: Db, e: Effect, db': Db, k: Key)
    requires k in db'.jobs
  {
    CarriedBy(db, e, db', k) || (db.nextPk <= db'.jobs[k].pk < db'.nextPk && Newborn(db'.jobs[k]))
  }

  /** Every row of the new state is accounted for, and a leased row is removed only by the
      finish that ends it. */
  ghost predicate AllLiveOn(db: Db, e: Effect, db': Db) {
    && db'.nextPk >= db.nextPk
    && (forall k | k in db'.jobs :: LivesOn(db, e, db', k))
    && (forall k | k in db.jobs && db.jobs[k].state == Active :: CarriedBy(db, e, db', k) || (e.Ends? && e.key == k))
  }

  lemma CalmLives(db: Db, db': Db)
    requires Calm(db, db')
    ensures AllLiveOn(db, Still, db')
  {
    forall k | k in db'.jobs ensures LivesOn(db, Still, db', k) { assert KeptOrNew(db, db', k); }
  }

  /** The shared shape of the steps that rewrite one row: calm up to `db1`, in which row `k`
      becomes `j`. */
  lemma SubjectLives(db: Db, e: Effect, k: Key, db1: Db, j: Job, db': Db)
    requires k in db.jobs && k in db1.jobs && Calm(db, db1) && CalmRow(db.jobs[k], db1.jobs[k])
    requires SameJob(db.jobs[k], j) && LifeOf(j) == Applied(LifeOf(db.jobs[k]), k, e)
    requires forall x, l | x != k :: Applied(l, x, e) == l
    requires db'.jobs == db1.jobs[k := j] && db'.nextPk == db1.nextPk
    ensures AllLiveOn(db, e, db')
  {
    forall x | x in db'.jobs ensures LivesOn(db, e, db', x) {
      if x != k { assert KeptOrNew(db, db1, x); }
    }
  }

  /** A step that rewrites rows in place. */
  lemma MappedLives(db: Db, e: Effect, db': Db)
    requires db'.jobs.Keys == db.jobs.Keys && db'.nextPk == db.nextPk
    requires forall k | k in db.jobs ::
      SameJob(db.jobs[k], db'.jobs[k]) && LifeOf(db'.jobs[k]) == Applied(LifeOf(db.jobs[k]), k, e)
    ensures AllLiveOn(db, e, db')
  {}

  // ---------------------------------------------------------------- step by step

  /** Dropping the window and promoting changes rows calmly, and only due ones. */
  lemma PreparedRows(db: Db, q: QueueId)
    ensures Prepared(db, q).jobs.Keys == db.jobs.Keys && Prepared(db, q).now == db.now
    ensures Prepared(db, q).nextPk == db.nextPk
    ensures forall k | k in db.jobs :: CalmRow(db.jobs[k], Prepared(db, q).jobs[k])
    ensures forall k | k in db.jobs && k !in Due(db, q) :: Prepared(db, q).jobs[k] == db.jobs[k]
  {
    var db0 := DropExpiredWindow(db, q);
    assert Due(db0, q) == Due(db, q);
    PromoteDueCalm(db0, q);
  }

  lemma ActivateLives(db: Db, a: ClaimArgs, db1: Db)
    requires db1.jobs.Keys == db.jobs.Keys && db1.now == db.now && db1.nextPk == db.nextPk && a.pick in db.jobs
    requires forall k | k in db.jobs :: CalmRow(db.jobs[k], db1.jobs[k])
    ensures AllLiveOn(db, Claims(a.pick, a.token, db.now + a.lockMs), Activate(db1, a))
  {
    var db' := Activate(db1, a);
    assert db'.jobs == db1.jobs[a.pick := Leased(db1.jobs[a.pick], a.token, db1.now + a.lockMs)];
    MappedLives(db, Claims(a.pick, a.token, db.now + a.lockMs), db');
  }

  lemma ClaimLives(db: Db, a: ClaimArgs)
    ensures AllLiveOn(db, if Takes(db, a) then Claims(a.pick, a.token, db.now + a.lockMs) else Still, Claim(db, a))
  {
    if a.queue in db.queues {
      var db1 := Prepared(db, a.queue);
      PreparedRows(db, a.queue);
      if Takes(db, a) {
        assert Claim(db, a) == Activate(db1, a);
        ActivateLives(db, a, db1);
      } else {
        assert Claim(db, a) == db1;
        MappedLives(db, Still, db1);
      }
    } else {
      MappedLives(db, Still, db);
    }
  }

  lemma RequeueCalm(db: Db, k: Key)
    ensures Calm(db, Requeue(db, k))
  {
    hide Calm, Add;
    if d :| IsFirstStash(db, k, d) {
      forall x | IsFirstStash(db, k, x) ensures x == d { assert IsStash(db, k, x) && IsStash(db, k, d); }
      var db1 := DeleteDedups(db, {d});
      SameRowsCalm(db, db1);
      AddGentle(db1, StashRequest(db, d));
      CalmTrans(db, db1, Add(db1, StashRequest(db, d)).0);
    } else {
      SameRowsCalm(db, Requeue(db, k));
    }
  }

  lemma NotifyParentsCalm(db: Db, a: FinishArgs, opts: JobOpts)
    ensures Calm(db, NotifyParents(db, a, opts))
  {
    hide Calm, ForceParents, SettleParents;
    var ps := Sorted(ByPk, db.jobs, ParentsOf(db, a.key) * db.jobs.Keys);
    var db1 := ResolveEdges(db, a.key, opts, a.ok, a.keep == Some(0));
    SameRowsCalm(db, db1);
    CalmRefl(db1);
    ForceParentsCalm(db1, ps);
    var db2 := if !a.ok && opts.fpof then ForceParents(db1, ps) else db1;
    CalmTrans(db, db1, db2);
    SettleParentsCalm(db2, ps, !a.ok && opts.cpof);
    CalmTrans(db, db2, NotifyParents(db, a, opts));
  }

  /** Trimming removes only finished rows. */
  lemma TrimCalm(db: Db, a: FinishArgs)
    requires a.key in db.jobs ==> db.jobs[a.key].state != Active
    ensures Calm(db, Trim(db, a))
  {
    DeleteGentle(db, {a.key});
    DeleteGentle(db, Doomed(db, a.key.queue, FinalState(a.ok), a.keep, a.age));
    CalmRefl(db);
  }

  lemma CalmStaysIdle(db: Db, db': Db, k: Key)
    requires Calm(db, db') && k in db.jobs && db.jobs[k].state != Active
    ensures k in db'.jobs ==> db'.jobs[k].state != Active
  {
    assert k in db'.jobs ==> KeptOrNew(db, db', k);
  }

  /** After the row itself is rewritten, the rest of a finish is calm. */
  lemma FinishTailCalm(db: Db, a: FinishArgs, opts: JobOpts)
    requires a.key in db.jobs && Finished(db.jobs[a.key])
    ensures Calm(db, Trim(NotifyParents(Requeue(db, a.key), a, opts), a))
  {
    hide Calm, Requeue, NotifyParents, Trim;
    var db2 := Requeue(db, a.key);
    var db3 := NotifyParents(db2, a, opts);
    RequeueCalm(db, a.key);
    NotifyParentsCalm(db2, a, opts);
    CalmTrans(db, db2, db3);
    CalmStaysIdle(db, db3, a.key);
    TrimCalm(db3, a);
    CalmTrans(db, db3, Trim(db3, a));
  }

  lemma FinishLives(db: Db, a: FinishArgs)
    requires LeasesSound(db) && Finishes(db, a)
    ensures AllLiveOn(db, Ends(a.key, if a.ok then Succeeded else Dead, true), DoFinish(db, a))
  {
    hide Requeue, NotifyParents, Trim, Calm;
    var j := db.jobs[a.key];
    assert Sound(LifeOf(j)) && j.state == Active;
    var db1 := Put(db, a.key, EndedRow(j, a.ok, db.now));
    FinishTailCalm(db1, a, j.payload.opts);
    EndingLives(db, Ends(a.key, if a.ok then Succeeded else Dead, true), a.key,
      EndedRow(j, a.ok, db.now), DoFinish(db, a));
  }

  lemma EndingLives(db: Db, e: Effect, k: Key, j: Job, db': Db)
    requires e.Ends? && e.key == k && k in db.jobs
    requires SameJob(db.jobs[k], j) && LifeOf(j) == Applied(LifeOf(db.jobs[k]), k, e)
    requires Calm(Put(db, k, j), db')
    ensures AllLiveOn(db, e, db')
  {
    var db1 := Put(db, k, j);
    forall x | x in db'.jobs ensures LivesOn(db, e, db', x) { assert KeptOrNew(db1, db', x); }
    forall x | x in db.jobs && db.jobs[x].state == Active && x != k ensures CarriedBy(db, e, db', x) {
      assert db1.jobs[x] == db.jobs[x];
    }
  }

  /** A row rewritten only in its list, its place there, and `made` more attempts. */
  predicate Relisted(j: Job, j': Job, made: nat) {
    && j' == j.(attemptsMade := j.attemptsMade + made, lockToken := None, lockExpires := None,
                state := j'.state, waitSeq := j'.waitSeq, prioSeq := j'.prioSeq)
    && (Queued(j') || j'.state == Prioritized)
  }

  lemma RetryRowShape(db: Db, k: Key, lifo: bool)
    requires k in db.jobs
    ensures var db' := RetryRow(db, k, lifo);
      && OneRow(db, db', k)
      && Relisted(db.jobs[k], db'.jobs[k], 1)
  {}

  lemma HeadOfListShape(db: Db, k: Key, j: Job, state: JobState)
    ensures var db' := HeadOfList(db, k, j, state);
      && OneRow(db, db', k)
      && db'.jobs[k] == j.(state := state, waitSeq := db'.jobs[k].waitSeq)
  {}

  lemma ReleaseShape(db: Db, k: Key, t: Token)
    requires HeldBy(db, k, t)
    ensures var db' := Release(db, k, t).0;
      && OneRow(db, db', k)
      && Relisted(db.jobs[k], db'.jobs[k], 0)
  {
    var j := Unlocked(db.jobs[k]);
    HeadOfListShape(db, k, j, Paused);
    HeadOfListShape(db, k, j, Wait);
  }

  lemma RetryLives(db: Db, k: Key, t: Token, lifo: bool)
    requires HeldBy(db, k, t)
    ensures AllLiveOn(db, Ends(k, Idle, true), Retry(db, k, t, lifo).0)
  {
    hide Calm, PromoteDue, RetryRow, AllLiveOn;
    PromoteDueCalm(db, k.queue);
    var db1 := PromoteDue(db, k.queue);
    assert k !in Due(db, k.queue);
    RetryRowShape(db1, k, lifo);
    SubjectLives(db, Ends(k, Idle, true), k, db1, RetryRow(db1, k, lifo).jobs[k], RetryRow(db1, k, lifo));
  }

  lemma DelayLives(db: Db, k: Key, t: Token, at: Millis, ms: int, failed: bool)
    requires Delay(db, k, t, at, ms, failed).1 == Ok
    ensures AllLiveOn(db, Ends(k, Idle, failed), Delay(db, k, t, at, ms, failed).0)
  {
    var db' := Delay(db, k, t, at, ms, failed).0;
    CalmRefl(db);
    SubjectLives(db, Ends(k, Idle, failed), k, db, db'.jobs[k], db');
  }

  lemma ToChildrenLives(db: Db, k: Key, t: Token, c: Option<Key>)
    requires ToChildren(db, k, t, c).1 == Ok
    ensures AllLiveOn(db, Ends(k, Idle, false), ToChildren(db, k, t, c).0)
  {
    var db' := ToChildren(db, k, t, c).0;
    CalmRefl(db);
    SubjectLives(db, Ends(k, Idle, false), k, db, db'.jobs[k], db');
  }

  lemma ReleaseLives(db: Db, k: Key, t: Token)
    requires HeldBy(db, k, t)
    ensures AllLiveOn(db, Ends(k, Idle, false), Release(db, k, t).0)
  {
    var db' := Release(db, k, t).0;
    CalmRefl(db);
    ReleaseShape(db, k, t);
    SubjectLives(db, Ends(k, Idle, false), k, db, db'.jobs[k], db');
  }

  lemma SweepLives(db: Db, q: QueueId, m: int)
    ensures AllLiveOn(db, Sweeps(TooStalled(db, q, m), Requeued(db, q, m)), Sweep(db, q, m))
  {
    var db' := Sweep(db, q, m);
    var e := Sweeps(TooStalled(db, q, m), Requeued(db, q, m));
    hide Sweep, TooStalled, Requeued;
    SweepKeeps(db, q, m);
    forall k | k in db.jobs
      ensures SameJob(db.jobs[k], db'.jobs[k]) && LifeOf(db'.jobs[k]) == Applied(LifeOf(db.jobs[k]), k, e)
    {
      SweptLife(db, q, m, k);
    }
    MappedLives(db, e, db');
  }

  lemma SweepKeeps(db: Db, q: QueueId, m: int)
    ensures Sweep(db, q, m).jobs.Keys == db.jobs.Keys && Sweep(db, q, m).nextPk == db.nextPk
  {}

  lemma SweptLife(db: Db, q: QueueId, m: int, k: Key)
    requires k in db.jobs
    ensures var db' := Sweep(db, q, m);
      k in db'.jobs && SameJob(db.jobs[k], db'.jobs[k])
      && LifeOf(db'.jobs[k]) == Applied(LifeOf(db.jobs[k]), k, Sweeps(TooStalled(db, q, m), Requeued(db, q, m)))
  {
    hide SweepNumber;
    if k in Stalled(db, q) { assert Sweep(db, q, m).jobs[k] == SweptRow(db, q, m, k); }
  }

  lemma ExtendLives(db: Db, k: Key, t: Token, ms: int)
    requires Extend(db, k, t, ms).1 == Ok
    ensures AllLiveOn(db, Extends({k}, db.now + ms), Extend(db, k, t, ms).0)
  {
    var db' := Extend(db, k, t, ms).0;
    CalmRefl(db);
    SubjectLives(db, Extends({k}, db.now + ms), k, db, db'.jobs[k], db');
  }

  lemma ExtendManyLives(db: Db, q: QueueId, ls: seq<Lease>, ms: int)
    ensures AllLiveOn(db, Extends(Renewed(db, q, ls), db.now + ms), ExtendMany(db, q, ls, ms))
  {
    MappedLives(db, Extends(Renewed(db, q, ls), db.now + ms), ExtendMany(db, q, ls, ms));
  }

  lemma PauseLives(db: Db, q: QueueId, p: bool)
    ensures AllLiveOn(db, Still, Pause(db, q, p))
  {
    MappedLives(db, Still, Pause(db, q, p));
  }

  lemma EnqueueShape(db: Db, k: Key, j: Job)
    ensures var db' := Enqueue(db, k, j);
      && OneRow(db, db', k) && Queued(db'.jobs[k])
        && db'.jobs[k] == j.(state := db'.jobs[k].state, waitSeq := db'.jobs[k].waitSeq)
  {}

  lemma PrioritizeShape(db: Db, k: Key, j: Job, state: JobState)
    ensures var db' := Prioritize(db, k, j, state);
      && OneRow(db, db', k) && db'.jobs[k] == j.(state := state, prioSeq := db'.jobs[k].prioSeq)
  {}

  lemma ChangePriorityShape(db: Db, k: Key, p: int, h: bool)
    requires k in db.jobs
    ensures var db' := ChangePriority(db, k, p, h).0; var j := db.jobs[k];
      && OneRow(db, db', k)
      && db'.jobs[k] == j.(priority := db'.jobs[k].priority, state := db'.jobs[k].state,
                           waitSeq := db'.jobs[k].waitSeq, prioSeq := db'.jobs[k].prioSeq)
      && PhaseOf(db'.jobs[k]) == PhaseOf(j) && (db'.jobs[k].state == Parked <==> j.state == Parked)
  {
    hide Enqueue, Prioritize, PrioHead, WaitSeqs, Least;
    var j := db.jobs[k];
    EnqueueShape(db, k, j.(priority := 0, prioSeq := None));
    PrioritizeShape(db, k, j.(priority := p, waitSeq := None), Prioritized);
  }

  lemma ChangePriorityLives(db: Db, k: Key, p: int, h: bool)
    requires k in db.jobs
    ensures AllLiveOn(db, Still, ChangePriority(db, k, p, h).0)
  {
    var db' := ChangePriority(db, k, p, h).0;
    CalmRefl(db);
    ChangePriorityShape(db, k, p, h);
    SubjectLives(db, Still, k, db, db'.jobs[k], db');
  }

  lemma ReprocessLives(db: Db, k: Key, m: bool, s: bool, t: Option<bool>)
    requires LeasesSound(db) && Reprocess(db, k, m, s, t).1 == Ok
    ensures AllLiveOn(db, Revives(k, m, s), Reprocess(db, k, m, s, t).0)
  {
    var db' := Reprocess(db, k, m, s, t).0;
    CalmRefl(db);
    assert Sound(LifeOf(db.jobs[k]));
    SubjectLives(db, Revives(k, m, s), k, db, db'.jobs[k], db');
  }

  predicate MovedRow(j: Job, j': Job) {
    SameJob(j, j') && LifeOf(j') == LifeOf(j).(phase := Idle) && (Queued(j') || j'.state == Prioritized)
  }

  lemma MoveOneShape(db: Db, k: Key, from: JobState)
    requires k in db.jobs
    ensures var db' := MoveOne(db, k, from);
      && OneRow(db, db', k)
      && MovedRow(db.jobs[k], db'.jobs[k]) && db'.jobs[k].dedup == db.jobs[k].dedup
  {}

  lemma {:induction false} MoveSeqRows(db: Db, ks: seq<Key>, from: JobState)
    requires forall i | 0 <= i < |ks| :: ks[i] in db.jobs
    requires Distinct(ks)
    ensures var db' := MoveSeq(db, ks, from);
      && SomeRows(db, db')
      && (forall k | k in db.jobs && k !in ks :: db'.jobs[k] == db.jobs[k])
      && (forall k | k in ks :: MovedRow(db.jobs[k], db'.jobs[k]))
  {
    if ks != [] {
      var front, k := ks[..|ks| - 1], ks[|ks| - 1];
      MoveSeqRows(db, front, from);
      assert ks == front + [k] && k !in front;
      MoveOneShape(MoveSeq(db, front, from), k, from);
    }
  }

  lemma MovedListed(db: Db, q: QueueId, st: JobState, count: nat, upTo: Millis)
    ensures var ks := FirstN(Sorted(BatchOrder(st), db.jobs, Movable(db, q, st, upTo)), count);
      Distinct(ks) && (forall i | 0 <= i < |ks| :: ks[i] in db.jobs && ks[i] in Movable(db, q, st, upTo))
  {
    var all := Sorted(BatchOrder(st), db.jobs, Movable(db, q, st, upTo));
    SortedInOrder(BatchOrder(st), db.jobs, Movable(db, q, st, upTo));
    forall i | 0 <= i < |all| ensures all[i] in Movable(db, q, st, upTo) { assert all[i] in all; }
    forall i, j | 0 <= i < j < |all| ensures all[i] != all[j] { InOrderDistinct(BatchOrder(st), db.jobs, all, i, j); }
  }

  lemma MovedBackLives(db: Db, ks: seq<Key>, db': Db)
    requires db'.jobs.Keys == db.jobs.Keys && db'.nextPk == db.nextPk
    requires forall i | 0 <= i < |ks| :: ks[i] in db.jobs
    requires forall k | k in db.jobs && k !in ks :: db'.jobs[k] == db.jobs[k]
    requires forall k | k in ks :: MovedRow(db.jobs[k], db'.jobs[k])
    ensures AllLiveOn(db, MovesBack(Elements(ks)), db')
  {
    MappedLives(db, MovesBack(Elements(ks)), db');
  }

  lemma MoveBatchLives(db: Db, q: QueueId, from: JobState, n: nat, t: Millis)
    ensures AllLiveOn(db, MovesBack(Moved(db, q, from, n, t)), MoveBatch(db, q, from, n, t))
  {
    hide AllLiveOn, Movable, Sorted, FirstN, MoveSeq;
    var st := SourceState(from);
    var ks := FirstN(Sorted(BatchOrder(st), db.jobs, Movable(db, q, st, t)), n);
    MovedListed(db, q, st, n, t);
    MoveSeqRows(db, ks, st);
    MovedBackLives(db, ks, MoveSeq(db, ks, st));
  }

  lemma PromoteLives(db: Db, k: Key)
    ensures AllLiveOn(db, Still, Promote(db, k).0)
  {
    var db' := Promote(db, k).0;
    CalmRefl(db);
    if Promote(db, k).1 == Ok {
      SubjectLives(db, Still, k, db, db'.jobs[k], db');
    } else {
      CalmLives(db, db);
    }
  }

  lemma CutEdgeLives(db: Db, c: Key, p: Key)
    ensures AllLiveOn(db, Still, CutEdge(db, c, p).0)
  {
    MappedLives(db, Still, CutEdge(db, c, p).0);
  }

  /** Every step does to every row exactly what its effect says. */
  lemma StepLife(db: Db, op: Op)
    requires LeasesSound(db)
    ensures AllLiveOn(db, EffectOf(db, op), Step(db, op))
  {
    hide AllLiveOn, Calm, AddNode, Add, Claim, Takes, DoFinish, PromoteDue, RetryRow, Sweep, Pause, Promote;
    hide CutEdge, MoveBatch, HeadOfList, PrioHead, ExtendMany;
    hide HeldBy, Moved;
    CalmRefl(db);
    CalmLives(db, db);
    match op
    case OpTick(_) => MappedLives(db, Still, Step(db, op));
    case OpQueue(q) => EnsureQueueGentle(db, q); CalmLives(db, EnsureQueue(db, q));
    case OpAdd(r) => AddGentle(db, r); CalmLives(db, Add(db, r).0);
    case OpFlow(n, p) => AddFlowGentle(db, n, p); CalmLives(db, AddFlow(db, n, p));
    case OpClaim(a) => ClaimLives(db, a);
    case OpFinish(a) => if Finishes(db, a) { FinishLives(db, a); }
    case OpRetry(k, t, l) => if HeldBy(db, k, t) { RetryLives(db, k, t, l); }
    case OpDelay(k, t, at, ms, f) => if Delay(db, k, t, at, ms, f).1 == Ok { DelayLives(db, k, t, at, ms, f); }
    case OpToChildren(k, t, c) => if ToChildren(db, k, t, c).1 == Ok { ToChildrenLives(db, k, t, c); }
    case OpRelease(k, t) => if HeldBy(db, k, t) { ReleaseLives(db, k, t); }
    case OpSweep(q, m) => SweepLives(db, q, m);
    case OpExtend(k, t, ms) => if Extend(db, k, t, ms).1 == Ok { ExtendLives(db, k, t, ms); }
    case OpExtendMany(q, ls, ms) => ExtendManyLives(db, q, ls, ms);
    case OpPause(q, p) => PauseLives(db, q, p);
    case OpPromote(k) => PromoteLives(db, k);
    case OpChangePriority(k, p, h) => if k in db.jobs { ChangePriorityLives(db, k, p, h); }
    case OpReprocess(k, m, s, t) => if Reprocess(db, k, m, s, t).1 == Ok { ReprocessLives(db, k, m, s, t); }
    case OpCutEdge(c, p) => CutEdgeLives(db, c, p);
    case OpMoveBatch(q, f, n, t) => MoveBatchLives(db, q, f, n, t);
  }

  ghost function AllStalled(db: Db): set<Key> {
    set k | k in db.jobs && db.jobs[k].state == Active
      && db.jobs[k].lockExpires.Some? && db.jobs[k].lockExpires.value < db.now
  }

  /** The rows an effect names are in the phase it starts from. */
  ghost predicate WellAimed(db: Db, e: Effect) {
    match e
    case Still => true
    case Claims(k, _, _) => k in db.jobs && PhaseOf(db.jobs[k]) == Idle
    case Ends(k, phase, _) => k in db.jobs && db.jobs[k].state == Active && phase != Running
    case Sweeps(dead, back) => dead !! back && dead + back <= AllStalled(db)
    case Extends(keys, _) => forall k | k in keys :: k in db.jobs && db.jobs[k].state == Active
    case Revives(k, _, _) => k in db.jobs && Finished(db.jobs[k])
    case MovesBack(keys) => forall k | k in keys ::
      k in db.jobs && (Finished(db.jobs[k]) || db.jobs[k].state == Delayed)
  }

  lemma ClaimAimed(db: Db, a: ClaimArgs)
    requires Takes(db, a)
    ensures a.pick in db.jobs && PhaseOf(db.jobs[a.pick]) == Idle
  {
    PreparedRows(db, a.queue);
  }

  lemma EffectWellAimed(db: Db, op: Op)
    requires LeasesSound(db)
    ensures WellAimed(db, EffectOf(db, op))
  {
    hide Takes, Sorted, Movable, HasEdge, HasPendingChild;
    match op
    case OpClaim(a) => if Takes(db, a) { ClaimAimed(db, a); }
    case OpFinish(a) => if Finishes(db, a) { assert Sound(LifeOf(db.jobs[a.key])); }
    case OpMoveBatch(q, from, n, t) => MovedAimed(db, q, from, n, t);
    case _ =>
  }

  lemma MovedAimed(db: Db, q: QueueId, from: JobState, n: nat, t: Millis)
    ensures forall k | k in Moved(db, q, from, n, t) ::
      k in db.jobs && (Finished(db.jobs[k]) || db.jobs[k].state == Delayed)
  {
    MovedListed(db, q, SourceState(from), n, t);
  }

  lemma StepSound(db: Db, op: Op)
    requires LeasesSound(db)
    ensures LeasesSound(Step(db, op))
  {
    StepLife(db, op);
    EffectWellAimed(db, op);
    SoundKept(db, EffectOf(db, op), Step(db, op));
  }

  lemma SoundKept(db: Db, e: Effect, db': Db)
    requires LeasesSound(db) && WellAimed(db, e) && AllLiveOn(db, e, db')
    ensures LeasesSound(db')
  {
    forall k | k in db'.jobs ensures Sound(LifeOf(db'.jobs[k])) {
      assert LivesOn(db, e, db', k);
      if k in db.jobs { assert Sound(LifeOf(db.jobs[k])); }
    }
  }

  /** In every reachable state a job has a token and an expiry exactly when it is active. */
  lemma {:induction false} RunSound(db: Db, ops: seq<Op>)
    requires LeasesSound(db)
    ensures LeasesSound(Run(db, ops))
  {
    if ops != [] {
      RunSound(db, ops[..|ops| - 1]);
      StepSound(Run(db, ops[..|ops| - 1]), ops[|ops| - 1]);
    }
  }

  /** Primary keys are handed out in order. */
  ghost predicate PksBounded(db: Db) {
    forall k | k in db.jobs :: db.jobs[k].pk < db.nextPk
  }

  lemma StepPks(db: Db, op: Op)
    requires LeasesSound(db) && PksBounded(db)
    ensures PksBounded(Step(db, op))
  {
    hide Step, EffectOf;
    StepLife(db, op);
    forall k | k in Step(db, op).jobs ensures Step(db, op).jobs[k].pk < Step(db, op).nextPk {
      assert LivesOn(db, EffectOf(db, op), Step(db, op), k);
    }
  }

  lemma {:induction false} RunPks(db: Db, ops: seq<Op>)
    requires LeasesSound(db) && PksBounded(db)
    ensures PksBounded(Run(db, ops))
  {
    if ops != [] {
      hide Step;
      RunPks(db, ops[..|ops| - 1]);
      RunSound(db, ops[..|ops| - 1]);
      StepPks(Run(db, ops[..|ops| - 1]), ops[|ops| - 1]);
    }
  }
}

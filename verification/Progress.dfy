/** Bounded work: a measure that every claim, every end of a claim and every sweep of a job makes
    smaller, so a run without new jobs does only so many of them. */
module Progress {
  import opened Rows
  import opened Tables
  import opened Linking
  import opened Adding
  import opened Ending
  import opened Machine
  import opened Frames
  import opened Lives
  import opened Attempts
  import opened Releasing
  import opened KeepLast

  // ---------------------------------------------------------------- sums over tables

  ghost function Sum<K>(m: map<K, nat>): nat
    decreases |m|
  {
    if m == map[] then 0
    else
      var k :| k in m;
      assert |m - {k}| < |m| by { assert m.Keys == (m - {k}).Keys + {k}; }
      m[k] + Sum(m - {k})
  }

  lemma {:induction false} SumWithout<K>(m: map<K, nat>, k: K)
    requires k in m
    ensures Sum(m) == m[k] + Sum(m - {k})
    decreases |m|
  {
    var x :| x in m && Sum(m) == m[x] + Sum(m - {x});
    if x != k {
      assert m.Keys == (m - {x}).Keys + {x};
      SumWithout(m - {x}, k);
      assert m - {x} - {k} == m - {k} - {x};
      assert m.Keys == (m - {k}).Keys + {k};
      SumWithout(m - {k}, x);
    }
  }

  /** Rows gone or grown smaller: the sum is no larger, and smaller if a positive one is. */
  lemma {:induction false} SumShrinks<K>(m: map<K, nat>, m': map<K, nat>)
    requires forall k | k in m' :: k in m && m'[k] <= m[k]
    ensures Sum(m') <= Sum(m)
    ensures forall k | k in m :: (if k in m' then m'[k] < m[k] else m[k] > 0) ==> Sum(m') < Sum(m)
    decreases |m|
  {
    if m == map[] {
      assert m' == map[];
    } else {
      var x :| x in m;
      assert m.Keys == (m - {x}).Keys + {x};
      SumWithout(m, x);
      SumShrinks(m - {x}, m' - {x});
      if x in m' { SumWithout(m', x); } else { assert m' - {x} == m'; }
      forall k | k in m && (if k in m' then m'[k] < m[k] else m[k] > 0) ensures Sum(m') < Sum(m) {
        if k != x { assert k in m - {x}; }
      }
    }
  }

  // ---------------------------------------------------------------- the measure

  /** Two for every claim the job may still see, one more while it is running. */
  function WorkLeft(l: Life, limit: nat, maxStalled: nat): nat {
    if l.phase == Succeeded || l.phase == Dead || l.started > limit + maxStalled then 0
    else 2 * (limit + maxStalled - l.started) + (if l.phase == Running then 1 else 0)
  }

  ghost function WorkMap(db: Db, maxStalled: nat): map<Key, nat> {
    map k | k in db.jobs :: WorkLeft(LifeOf(db.jobs[k]), Limit(db.jobs[k].payload), maxStalled)
  }

  /** A stash is one more job to come, with all its claims ahead of it. */
  ghost function StashMap(db: Db, maxStalled: nat): map<DedupKey, nat> {
    map d | d in db.dedups && db.dedups[d].pending.Some? :: 2 * (Limit(db.dedups[d].pending.value) + maxStalled)
  }

  ghost function Work(db: Db, maxStalled: nat): nat {
    Sum(WorkMap(db, maxStalled)) + Sum(StashMap(db, maxStalled))
  }

  /** The step claims a job, ends a claim, or sweeps at least one job. */
  predicate Advances(e: Effect) {
    match e
    case Claims(_, _, _) => true
    case Ends(_, _, _) => true
    case Sweeps(dead, back) => dead + back != {}
    case _ => false
  }

  predicate Hits(e: Effect, k: Key) {
    (e.Claims? && e.key == k) || (e.Ends? && e.key == k) || (e.Sweeps? && k in e.dead + e.back)
  }

  lemma SomeHit(e: Effect) returns (k: Key)
    requires Advances(e)
    ensures Hits(e, k)
  {
    if e.Sweeps? {
      var x :| x in e.dead + e.back;
      k := x;
    } else {
      k := e.key;
    }
  }

  /** The work left of one life under an effect. */
  lemma LifeWork(l: Life, k: Key, e: Effect, limit: nat, maxStalled: nat)
    requires Bounded(l, limit, maxStalled) && !e.Revives?
    requires e.Claims? && e.key == k ==> l.phase == Idle
    requires e.Ends? && e.key == k ==> l.phase == Running && e.phase != Running
    requires e.Sweeps? && k in e.dead + e.back ==> l.phase == Running
    requires e.MovesBack? && k in e.keys ==> l.phase == Idle
    ensures WorkLeft(Applied(l, k, e), limit, maxStalled) <= WorkLeft(l, limit, maxStalled)
    ensures Hits(e, k) ==> WorkLeft(Applied(l, k, e), limit, maxStalled) < WorkLeft(l, limit, maxStalled)
  {}

  lemma RowWork(db: Db, e: Effect, db': Db, maxStalled: nat, k: Key)
    requires AllBounded(db, maxStalled) && WellAimed(db, e) && MildEffect(db, e, maxStalled)
    requires CarriedBy(db, e, db', k)
    ensures WorkMap(db', maxStalled)[k] <= WorkMap(db, maxStalled)[k]
    ensures Hits(e, k) ==> WorkMap(db', maxStalled)[k] < WorkMap(db, maxStalled)[k]
  {
    hide WorkLeft, Bounded, Applied;
    assert Bounded(LifeOf(db.jobs[k]), Limit(db.jobs[k].payload), maxStalled);
    LifeWork(LifeOf(db.jobs[k]), k, e, Limit(db.jobs[k].payload), maxStalled);
  }

  lemma RunningHasWork(db: Db, maxStalled: nat, k: Key)
    requires AllBounded(db, maxStalled) && k in db.jobs && (db.jobs[k].state == Active || PhaseOf(db.jobs[k]) == Idle)
    ensures WorkMap(db, maxStalled)[k] > 0
  {
    assert Bounded(LifeOf(db.jobs[k]), Limit(db.jobs[k].payload), maxStalled);
  }

  /** The rows the effect finds lose work; those in `born` are counted apart. */
  lemma EffectWork(db: Db, e: Effect, db': Db, maxStalled: nat, born: set<Key>)
    requires AllBounded(db, maxStalled) && WellAimed(db, e) && MildEffect(db, e, maxStalled) && born !! db.jobs.Keys
    requires forall k | k in db'.jobs :: k in born || CarriedBy(db, e, db', k)
    ensures Sum(WorkMap(db', maxStalled) - born) <= Sum(WorkMap(db, maxStalled))
    ensures Advances(e) ==> Sum(WorkMap(db', maxStalled) - born) < Sum(WorkMap(db, maxStalled))
  {
    hide WorkLeft, AllBounded, MildEffect, CarriedBy;
    var m, m' := WorkMap(db, maxStalled), WorkMap(db', maxStalled) - born;
    forall k | k in m' ensures k in m && m'[k] <= m[k] {
      CarriedThere(db, e, db', k);
      RowWork(db, e, db', maxStalled, k);
    }
    SumShrinks(m, m');
    if Advances(e) {
      var k := SomeHit(e);
      AimedAt(db, e, k);
      RunningHasWork(db, maxStalled, k);
      if k in m' { RowWork(db, e, db', maxStalled, k); }
    }
  }

  lemma CarriedThere(db: Db, e: Effect, db': Db, k: Key)
    requires CarriedBy(db, e, db', k)
    ensures k in db.jobs
  {}

  lemma AimedAt(db: Db, e: Effect, k: Key)
    requires WellAimed(db, e)
    requires Hits(e, k)
    ensures k in db.jobs && (db.jobs[k].state == Active || PhaseOf(db.jobs[k]) == Idle)
  {}

  // ---------------------------------------------------------------- steps without new jobs

  ghost predicate NoStash(db: Db) {
    forall d | d in db.dedups :: db.dedups[d].pending.None?
  }

  predicate Barren(op: Op) {
    !op.OpAdd? && !op.OpFlow?
  }

  /** Every stash was there before, outside `gone`. */
  ghost predicate StashesFrom(db: Db, db': Db, gone: set<DedupKey>) {
    forall d | d in db'.dedups && db'.dedups[d].pending.Some? ::
      d in db.dedups && d !in gone && db.dedups[d].pending == db'.dedups[d].pending
  }

  lemma StashWork(db: Db, db': Db, maxStalled: nat, gone: set<DedupKey>)
    requires StashesFrom(db, db', gone)
    ensures Sum(StashMap(db', maxStalled)) <= Sum(StashMap(db, maxStalled) - gone)
    ensures Sum(StashMap(db', maxStalled)) <= Sum(StashMap(db, maxStalled))
  {
    SumShrinks(StashMap(db, maxStalled) - gone, StashMap(db', maxStalled));
    SumShrinks(StashMap(db, maxStalled), StashMap(db', maxStalled));
  }

  /** Rows that stay keep their primary keys. */
  ghost predicate PksStay(db: Db, db': Db) {
    forall k | k in db.jobs && k in db'.jobs :: db'.jobs[k].pk == db.jobs[k].pk
  }

  lemma {:induction false} SettleBarren(db: Db, ps: seq<Key>, cpof: bool)
    ensures var db' := SettleParents(db, ps, cpof);
      db'.nextPk == db.nextPk && db'.jobs.Keys == db.jobs.Keys && PksStay(db, db')
  {
    if ps != [] {
      hide HasBlockingEdge, ReleaseParent;
      var db1 := SettleParents(db, ps[..|ps| - 1], cpof);
      SettleBarren(db, ps[..|ps| - 1], cpof);
      if ps[|ps| - 1] in db1.jobs { ReleaseParentShape(db1, ps[|ps| - 1]); }
    }
  }

  lemma NotifyBarren(db: Db, a: FinishArgs, opts: JobOpts)
    ensures var db' := NotifyParents(db, a, opts);
      db'.nextPk == db.nextPk && db'.jobs.Keys == db.jobs.Keys && PksStay(db, db')
  {
    hide SettleParents, ForceParents;
    NotifySplit(db, a, opts);
    var db1 := ResolveEdges(db, a.key, opts, a.ok, a.keep == Some(0));
    ForceParentsShape(db1, Notified(db, a));
    SettleBarren(Resolved(db, a, opts), Notified(db, a), !a.ok && opts.cpof);
  }

  lemma TrimBarren(db: Db, a: FinishArgs)
    ensures var db' := Trim(db, a);
      db'.nextPk == db.nextPk && db'.jobs.Keys <= db.jobs.Keys && PksStay(db, db')
  {
    hide Doomed;
  }

  /** After the requeue a finish brings no row and no deduplication row. */
  lemma FinishTailBarren(db: Db, a: FinishArgs, opts: JobOpts)
    ensures var db' := Trim(NotifyParents(db, a, opts), a);
      && db'.nextPk == db.nextPk && db'.jobs.Keys <= db.jobs.Keys && PksStay(db, db') && db'.dedups == db.dedups
  {
    hide NotifyParents, Trim;
    NotifyBarren(db, a, opts);
    NotifyTags(db, a, opts);
    TrimBarren(NotifyParents(db, a, opts), a);
    TrimTags(NotifyParents(db, a, opts), a);
  }

  /** What the requeue adds to the deduplication rows: at most the row of the stash, without one. */
  lemma RequeueStashes(db: Db, d: DedupKey)
    requires d in db.dedups && db.dedups[d].pending.Some? && d.queue in db.queues
    ensures StashesFrom(db, Add(DeleteDedups(db, {d}), StashRequest(db, d)).0, {d})
  {
    hide InsertRow, InsertConflict, ClearStale;
    var db1, r := DeleteDedups(db, {d}), StashRequest(db, d);
    var db2 := PutQueue(db1, d.queue, db.queues[d.queue].(jobNum := db.queues[d.queue].jobNum + 1));
    var k := NextOf(db, d.queue);
    StashInsert(db, d);
    var db3 := ClearStale(db2, d.queue, d.id);
    ClearStaleDedups(db2, d.queue, d.id);
    InsertRowDedups(db3, k, r);
    ConflictTags(db3, k, r);
  }

  /** A finish that turns a stash into a job, or drops it: the job it may bring, and the stash gone. */
  lemma StashFinish(db: Db, a: FinishArgs, d: DedupKey)
    requires Sane(db) && Finishes(db, a) && IsFirstStash(db, a.key, d)
    ensures var db' := DoFinish(db, a);
      && StashesFrom(db, db', {d}) && PksStay(db, db')
      && (forall k | k in db'.jobs && k !in db.jobs ::
        k == NextOf(db, d.queue) && db'.jobs[k].payload == db.dedups[d].pending.value)
  {
    hide Requeue, NotifyParents, Trim, Sane, Add, EndedRow, DoFinish, Keeps;
    StashBecomesJob(db, a, d);
    var j := db.jobs[a.key];
    var db1 := if j.state == Active then Put(db, a.key, EndedRow(j, a.ok, db.now)) else db;
    var db2 := Requeue(db1, a.key);
    assert DoFinish(db, a) == Trim(NotifyParents(db2, a, j.payload.opts), a) by { FinishUnfolds(db, a); }
    EndedPk(db, a);
    SameStashes(db, db1, a.key, d);
    FirstStashUnique(db1, a.key, d);
    assert d.queue in db1.queues by { SaneQueue(db, a.key); }
    RequeueStashes(db1, d);
    RequeueKeeps(db1, a.key);
    KeepsPks(db1, db2);
    FinishTailBarren(db2, a, j.payload.opts);
  }

  lemma FinishUnfolds(db: Db, a: FinishArgs)
    requires a.key in db.jobs
    ensures var j := db.jobs[a.key];
      var db1 := if j.state == Active then Put(db, a.key, EndedRow(j, a.ok, db.now)) else db;
      DoFinish(db, a) == Trim(NotifyParents(Requeue(db1, a.key), a, j.payload.opts), a)
  {
    hide Requeue, NotifyParents, Trim;
  }

  lemma EndedPk(db: Db, a: FinishArgs)
    requires a.key in db.jobs
    ensures EndedRow(db.jobs[a.key], a.ok, db.now).pk == db.jobs[a.key].pk
  {}

  lemma SaneQueue(db: Db, k: Key)
    requires Sane(db) && k in db.jobs
    ensures k.queue in db.queues
  {}

  lemma KeepsPks(db: Db, db': Db)
    requires Keeps(db, db')
    ensures PksStay(db, db') && db.jobs.Keys <= db'.jobs.Keys
  {}

  /** A finish without a stash brings nothing. */
  lemma PlainFinish(db: Db, a: FinishArgs)
    requires Finishes(db, a) && forall d :: !IsFirstStash(db, a.key, d)
    ensures DoFinish(db, a).nextPk == db.nextPk && StashesFrom(db, DoFinish(db, a), {})
  {
    hide NotifyParents, Trim;
    var j := db.jobs[a.key];
    var db1 := if j.state == Active then Put(db, a.key, EndedRow(j, a.ok, db.now)) else db;
    forall d ensures !IsFirstStash(db1, a.key, d) {
      if IsFirstStash(db1, a.key, d) { SameStashes(db1, db, a.key, d); }
    }
    FinishTailBarren(Requeue(db1, a.key), a, j.payload.opts);
  }

  /** The step of such a finish: the new job and the lost stash cancel out. */
  lemma StashFinishWork(db: Db, op: Op, maxStalled: nat, d: DedupKey)
    requires Sane(db) && AllBounded(db, maxStalled) && op.OpFinish? && Finishes(db, op.finish)
    requires IsFirstStash(db, op.finish.key, d) && Disciplined(db, op, maxStalled)
    ensures Work(Step(db, op), maxStalled) < Work(db, maxStalled)
    ensures StashesFrom(db, Step(db, op), {})
  {
    hide DoFinish, Sane, AllBounded, EffectOf, WorkMap, StashMap, NextOf, PksStay, Finishes, Disciplined, StashesFrom;
    var e, db' := EffectOf(db, op), Step(db, op);
    SaneSound(db);
    StepLife(db, op);
    EffectWellAimed(db, op);
    DisciplinedIsMild(db, op, maxStalled);
    FinishesThere(db, op.finish);
    FinishAdvances(db, op);
    assert db' == DoFinish(db, op.finish);
    StashFinish(db, op.finish, d);
    FewerStashes(db, db', {d});
    var born := db'.jobs.Keys - db.jobs.Keys;
    forall k | k in db'.jobs ensures k in born || CarriedBy(db, e, db', k) {
      if k in db.jobs { OldRowCarried(db, e, db', k); }
    }
    EffectWork(db, e, db', maxStalled, born);
    StashWork(db, db', maxStalled, {d});
    StashCounts(db, op.finish.key, d, maxStalled);
    NewbornWork(db, e, db', maxStalled, born, NextOf(db, d.queue), db.dedups[d].pending.value);
  }

  lemma FewerStashes(db: Db, db': Db, gone: set<DedupKey>)
    requires StashesFrom(db, db', gone)
    ensures StashesFrom(db, db', {})
  {}

  lemma FinishAdvances(db: Db, op: Op)
    requires op.OpFinish? && Finishes(db, op.finish)
    ensures Advances(EffectOf(db, op)) && Step(db, op) == DoFinish(db, op.finish)
  {
    hide DoFinish;
  }

  lemma OldRowCarried(db: Db, e: Effect, db': Db, k: Key)
    requires AllLiveOn(db, e, db') && PksBounded(db) && PksStay(db, db') && k in db.jobs && k in db'.jobs
    ensures CarriedBy(db, e, db', k)
  {
    assert LivesOn(db, e, db', k);
  }

  lemma StashCounts(db: Db, k: Key, d: DedupKey, maxStalled: nat)
    requires IsFirstStash(db, k, d)
    ensures Sum(StashMap(db, maxStalled)) ==
      2 * (Limit(db.dedups[d].pending.value) + maxStalled) + Sum(StashMap(db, maxStalled) - {d})
  {
    assert IsStash(db, k, d);
    SumWithout(StashMap(db, maxStalled), d);
  }

  /** The one row that is new has all its claims ahead of it. */
  lemma NewbornWork(db: Db, e: Effect, db': Db, maxStalled: nat, born: set<Key>, k: Key, p: Payload)
    requires AllLiveOn(db, e, db') && born == db'.jobs.Keys - db.jobs.Keys
    requires forall x | x in born :: x == k && db'.jobs[x].payload == p
    ensures Sum(WorkMap(db', maxStalled)) <= Sum(WorkMap(db', maxStalled) - born) + 2 * (Limit(p) + maxStalled)
  {
    var m := WorkMap(db', maxStalled);
    if k in born {
      assert born == {k};
      assert LivesOn(db, e, db', k);
      SumWithout(m, k);
    } else {
      assert (forall x: Key :: x !in born) ==> born == {};
      assert m - born == m;
    }
  }

  predicate RevivesNone(op: Op) {
    !op.OpReprocess? && (op.OpMoveBatch? ==> op.from == Delayed)
  }

  /** A step that neither adds nor revives brings no row, unless it ends the holder of a stash. */
  lemma StepBarren(db: Db, op: Op)
    requires Sane(db) && Barren(op) && RevivesNone(op)
    requires op.OpFinish? && Finishes(db, op.finish) ==> forall d :: !IsFirstStash(db, op.finish.key, d)
    ensures Step(db, op).nextPk == db.nextPk && StashesFrom(db, Step(db, op), {})
  {
    hide Sane, DoFinish, Finishes;
    if op.OpFinish? {
      if Finishes(db, op.finish) { PlainFinish(db, op.finish); }
    } else {
      StepTags(db, op);
      if PlacidOp(op) {
        hide Step;
        StepPlacid(db, op);
      } else {
        RootedOthers(db, op);
      }
    }
  }

  lemma RootedOthers(db: Db, op: Op)
    requires op.OpToChildren? || op.OpCutEdge?
    ensures Step(db, op).nextPk == db.nextPk
  {
    hide HasEdge, HasPendingChild, Linked;
  }

  lemma BarrenWork(db: Db, op: Op, maxStalled: nat)
    requires Sane(db) && AllBounded(db, maxStalled) && Disciplined(db, op, maxStalled)
    requires Step(db, op).nextPk == db.nextPk && StashesFrom(db, Step(db, op), {})
    ensures Work(Step(db, op), maxStalled) <= Work(db, maxStalled)
    ensures Advances(EffectOf(db, op)) ==> Work(Step(db, op), maxStalled) < Work(db, maxStalled)
  {
    hide Step, EffectOf, Disciplined, Sane, AllBounded, WorkMap, StashMap, StashesFrom;
    var e, db' := EffectOf(db, op), Step(db, op);
    SaneSound(db);
    StepLife(db, op);
    EffectWellAimed(db, op);
    DisciplinedIsMild(db, op, maxStalled);
    forall k | k in db'.jobs ensures CarriedBy(db, e, db', k) { NoneBorn(db, e, db', k); }
    EffectWork(db, e, db', maxStalled, {});
    assert WorkMap(db', maxStalled) - {} == WorkMap(db', maxStalled);
    StashWork(db, db', maxStalled, {});
  }

  lemma NoneBorn(db: Db, e: Effect, db': Db, k: Key)
    requires AllLiveOn(db, e, db') && db'.nextPk == db.nextPk && k in db'.jobs
    ensures CarriedBy(db, e, db', k)
  {
    assert LivesOn(db, e, db', k);
  }

  // ---------------------------------------------------------------- whole runs

  /** How many steps of the run claim, end or sweep something. */
  ghost function Progressed(db: Db, ops: seq<Op>): nat {
    if ops == [] then 0
    else
      var prev, op := Run(db, ops[..|ops| - 1]), ops[|ops| - 1];
      Progressed(db, ops[..|ops| - 1]) + (if Advances(EffectOf(prev, op)) then 1 else 0)
  }

  lemma StepWork(db: Db, op: Op, maxStalled: nat)
    requires Sane(db) && AllBounded(db, maxStalled) && Disciplined(db, op, maxStalled) && Barren(op)
    ensures Work(Step(db, op), maxStalled) <= Work(db, maxStalled)
    ensures Advances(EffectOf(db, op)) ==> Work(Step(db, op), maxStalled) < Work(db, maxStalled)
    ensures NoStash(db) ==> NoStash(Step(db, op))
  {
    hide Step, EffectOf, Sane, AllBounded, Work, Finishes, IsFirstStash;
    DisciplinedTag(db, op, maxStalled);
    if op.OpFinish? && Finishes(db, op.finish) && exists d :: IsFirstStash(db, op.finish.key, d) {
      var d :| IsFirstStash(db, op.finish.key, d);
      StashFinishWork(db, op, maxStalled, d);
    } else {
      StepBarren(db, op);
      BarrenWork(db, op, maxStalled);
    }
  }

  /** Under the worker policy and without new jobs, every claim, end and sweep uses up some of a
      finite amount of work, the jobs still to come of stashes included: the system comes to rest. */
  lemma {:induction false} WorkRunsOut(db: Db, ops: seq<Op>, maxStalled: nat)
    requires Sane(db) && AllBounded(db, maxStalled) && DisciplinedRun(db, ops, maxStalled)
    requires forall i | 0 <= i < |ops| :: Barren(ops[i])
    ensures Progressed(db, ops) + Work(Run(db, ops), maxStalled) <= Work(db, maxStalled)
    ensures NoStash(db) ==> NoStash(Run(db, ops))
  {
    if ops != [] {
      hide Step, EffectOf, Disciplined, Sane, AllBounded, Work, NoStash;
      var front, op := ops[..|ops| - 1], ops[|ops| - 1];
      DisciplinedFront(db, ops, maxStalled);
      WorkRunsOut(db, front, maxStalled);
      RunSane(db, front);
      SaneSound(db);
      RunBounded(db, front, maxStalled);
      StepWork(Run(db, front), op, maxStalled);
    }
  }

  lemma DisciplinedTag(db: Db, op: Op, maxStalled: nat)
    requires Disciplined(db, op, maxStalled)
    ensures RevivesNone(op)
  {}
}

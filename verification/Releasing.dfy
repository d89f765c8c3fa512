/** The end of a child and its parents: which parked parents a finish releases, and where to. */
module Releasing {
  import opened Rows
  import opened Ordering
  import opened Tables
  import opened Places
  import opened Linking
  import opened Adding
  import opened Claiming
  import opened Ending
  import opened Managing
  import opened Flows
  import opened Machine
  import opened Frames
  import opened Lives
  import opened Waiting
  import opened Parents
  import opened Routing

  // ---------------------------------------------------------------- the requeue keeps every row

  /** Rows stay, at most losing a stale deduplication id; edges stay; queues only count on. */
  ghost predicate Keeps(db: Db, db': Db) {
    && (forall x | x in db.jobs :: x in db'.jobs && db'.jobs[x] == db.jobs[x].(dedup := db'.jobs[x].dedup))
    && db'.edges == db.edges && db'.nextEdge == db.nextEdge && QueuesCalm(db, db')
  }

  lemma KeepsTrans(a: Db, b: Db, c: Db)
    requires Keeps(a, b) && Keeps(b, c)
    ensures Keeps(a, c)
  {
    hide QueuesCalm;
    assert QueuesCalm(a, c) by { QueuesCalmTrans(a, b, c); }
  }

  lemma QueuesCalmTrans(a: Db, b: Db, c: Db)
    requires QueuesCalm(a, b) && QueuesCalm(b, c)
    ensures QueuesCalm(a, c)
  {}

  /** An insert with neither parent nor live deduplication row removes nothing. */
  lemma UnheldAddKeeps(db: Db, r: Request)
    requires r.parent.None? && r.custom.None? && r.dedup.Some? && DedupKey(r.queue, r.dedup.value) !in db.dedups
    ensures Keeps(db, Add(db, r).0)
  {
    hide Insert;
    if r.queue in db.queues {
      var q := db.queues[r.queue];
      var db1 := PutQueue(db, r.queue, q.(jobNum := q.jobNum + 1));
      InsertKeeps(db1, r, Key(r.queue, q.jobNum + 1));
      KeepsTrans(db, db1, Insert(db1, r, Key(r.queue, q.jobNum + 1)).0);
    }
  }

  lemma InsertKeeps(db: Db, r: Request, k: Key)
    requires r.parent.None? && k.queue in db.queues
    ensures Keeps(db, Insert(db, r, k).0)
  {
    hide InsertRow, InsertConflict, ClearStale, Keeps, HoldDedup;
    var db1 := db;
    SameRowsKeep(db, db);
    if r.dedup.Some? {
      db1 := ClearStale(db, r.queue, r.dedup.value);
      ClearStaleKeeps(db, r.queue, r.dedup.value);
    }
    if k in db1.jobs {
      InsertConflictKeeps(db1, k, r);
      KeepsTrans(db, db1, InsertConflict(db1, k, r));
    } else {
      InsertRowKeeps(db1, k, r);
      var db2 := InsertRow(db1, k, r);
      KeepsTrans(db, db1, db2);
      HoldKeeps(db2, r, k.id);
      KeepsTrans(db, db2, HoldDedup(db2, r, k.id));
    }
  }

  lemma HoldKeeps(db: Db, r: Request, id: JobId)
    ensures Keeps(db, HoldDedup(db, r, id))
  {}

  lemma ClearStaleKeeps(db: Db, q: QueueId, d: DedupId)
    ensures Keeps(db, ClearStale(db, q, d)) && ClearStale(db, q, d).queues == db.queues
  {}

  lemma InsertConflictKeeps(db: Db, k: Key, r: Request)
    ensures Keeps(db, InsertConflict(db, k, r))
  {
    hide Least;
  }

  lemma InsertRowKeeps(db: Db, k: Key, r: Request)
    requires k.queue in db.queues && k !in db.jobs
    ensures Keeps(db, InsertRow(db, k, r))
  {
    hide InsertStandard;
    var db1 := db.(nextPk := db.nextPk + 1);
    if r.kind == Standard { InsertStandardShape(db1, k, NewRow(db, r)); }
  }

  lemma RequeueKeeps(db: Db, k: Key)
    ensures Keeps(db, Requeue(db, k)) && OnlyParks(db, Requeue(db, k), {}) && Gentle(db, Requeue(db, k))
  {
    hide Gentle, Add, Keeps, OnlyParks;
    if d :| IsFirstStash(db, k, d) {
      forall x | IsFirstStash(db, k, x) ensures x == d { assert IsStash(db, k, x) && IsStash(db, k, d); }
      var db1 := DeleteDedups(db, {d});
      var r := StashRequest(db, d);
      SameRowsGentle(db, db1);
      AddGentle(db1, r);
      GentleTrans(db, db1, Add(db1, r).0);
      SameRowsKeep(db, db1);
      UnheldAddKeeps(db1, r);
      KeepsTrans(db, db1, Add(db1, r).0);
      PlainAddParks(db1, r);
      OnlyParksTrans(db, db1, Add(db1, r).0, {});
    } else {
      SameRowsGentle(db, Requeue(db, k));
      SameRowsKeep(db, Requeue(db, k));
    }
  }

  lemma SameRowsKeep(db: Db, db': Db)
    requires db'.jobs == db.jobs && db'.queues == db.queues && db'.now == db.now && db'.edges == db.edges
    requires db'.nextEdge == db.nextEdge
    ensures Keeps(db, db') && OnlyParks(db, db', {})
  {}

  // ---------------------------------------------------------------- settling the parents

  /** Where a released parent goes: by its own delay, its own priority, its queue's pause flag. */
  ghost predicate Released(db: Db, p: Key, j: Job, j': Job) {
    if j.delayMs > 0 then j'.state == Delayed && j'.processAt == Some(db.now + j.delayMs)
    else if j.priority > 0 then j'.state == Prioritized
    else j'.state == Route(QueueOf(db, p.queue))
  }

  /** Only rows and counters change, never the pause flags. */
  ghost predicate RowsOnly(db: Db, db': Db) {
    SomeRows(db, db') && QueuesCalm(db, db') && (forall k | k in db.jobs :: db'.jobs[k].pk == db.jobs[k].pk)
  }

  ghost predicate Lets(db: Db, p: Key, cpof: bool) {
    ParkedIn(db.jobs, p) && (cpof || !HasBlockingEdge(db, p))
  }

  lemma ReleaseParentRows(db: Db, p: Key)
    requires p in db.jobs && db.jobs[p].state == Parked && p.queue in db.queues
    ensures var db' := ReleaseParent(db, p);
      RowsOnly(db, db') && (forall x | x in db.jobs && x != p :: db'.jobs[x] == db.jobs[x])
      && Released(db, p, db.jobs[p], db'.jobs[p]) && db'.jobs[p].state != Parked
  {}

  lemma RowsOnlyTrans(a: Db, b: Db, c: Db)
    requires RowsOnly(a, b) && RowsOnly(b, c)
    ensures RowsOnly(a, c)
  {
    hide QueuesCalm;
    QueuesCalmTrans(a, b, c);
  }

  lemma ReleasedLater(db: Db, db1: Db, p: Key, j: Job, j': Job)
    requires Released(db1, p, j, j') && QueuesCalm(db, db1) && p.queue in db.queues
    ensures Released(db, p, j, j')
  {}

  lemma SameEdgesSameBlock(db: Db, db': Db, p: Key)
    requires db'.edges == db.edges
    ensures HasBlockingEdge(db', p) == HasBlockingEdge(db, p)
  {}

  /** Row `p` after the listed parents have been settled. */
  ghost predicate SettledRow(db: Db, db': Db, ps: seq<Key>, cpof: bool, p: Key)
    requires p in db.jobs && p in db'.jobs
  {
    if p in ps && Lets(db, p, cpof) then Released(db, p, db.jobs[p], db'.jobs[p]) && db'.jobs[p].state != Parked
    else db'.jobs[p] == db.jobs[p]
  }

  lemma SettleOne(db: Db, db1: Db, p: Key, cpof: bool)
    requires RowsOnly(db, db1) && p in db.jobs && p in db1.jobs && p.queue in db.queues && db1.jobs[p] == db.jobs[p]
    ensures var db' := SettleParent(db1, p, cpof);
      && RowsOnly(db, db') && (forall x | x in db1.jobs && x != p :: x in db'.jobs && db'.jobs[x] == db1.jobs[x])
      && p in db'.jobs && SettledRow(db, db', [p], cpof, p)
  {
    hide ReleaseParent, HasBlockingEdge, Released, RowsOnly;
    RowsOnlyFacts(db, db1, p.queue);
    SameEdgesSameBlock(db, db1, p);
    if Lets(db1, p, cpof) {
      ReleaseParentRows(db1, p);
      RowsOnlyFacts(db1, ReleaseParent(db1, p), p.queue);
      ReleasedLater(db, db1, p, db1.jobs[p], ReleaseParent(db1, p).jobs[p]);
      RowsOnlyTrans(db, db1, ReleaseParent(db1, p));
    }
  }

  lemma NotListed(db: Db, db': Db, ps: seq<Key>, cpof: bool, p: Key)
    requires p in db.jobs && p in db'.jobs && SettledRow(db, db', ps, cpof, p) && p !in ps
    ensures db'.jobs[p] == db.jobs[p]
  {}

  lemma SettledOther(db: Db, db1: Db, db': Db, front: seq<Key>, p: Key, cpof: bool, x: Key)
    requires x in db.jobs && x in db1.jobs && x in db'.jobs && x != p && db'.jobs[x] == db1.jobs[x]
    requires SettledRow(db, db1, front, cpof, x)
    ensures SettledRow(db, db', front + [p], cpof, x)
  {
    hide Lets, Released;
  }

  lemma SettledLast(db: Db, db': Db, front: seq<Key>, p: Key, cpof: bool)
    requires p in db.jobs && p in db'.jobs && SettledRow(db, db', [p], cpof, p)
    ensures SettledRow(db, db', front + [p], cpof, p)
  {
    hide Lets, Released;
  }

  /** Exactly the listed parents that nothing blocks any more move, each to its own place. */
  lemma {:induction false} SettleParentsExactly(db: Db, ps: seq<Key>, cpof: bool)
    requires Distinct(ps) && forall k | k in db.jobs :: k.queue in db.queues
    ensures var db' := SettleParents(db, ps, cpof);
      && RowsOnly(db, db')
      && (forall p | p in db.jobs :: SettledRow(db, db', ps, cpof, p))
  {
    if ps != [] {
      hide SettleParent, Lets, Released, RowsOnly, SettledRow;
      var front, p := ps[..|ps| - 1], ps[|ps| - 1];
      SettleParentsExactly(db, front, cpof);
      var db1, db' := SettleParents(db, front, cpof), SettleParents(db, ps, cpof);
      assert ps == front + [p] && p !in front && db1.jobs.Keys == db.jobs.Keys;
      if p in db.jobs {
        assert db1.jobs[p] == db.jobs[p] by { NotListed(db, db1, front, cpof, p); }
        SettleOne(db, db1, p, cpof);
      }
      forall x | x in db.jobs ensures SettledRow(db, db', ps, cpof, x) {
        assert SettledRow(db, db1, front, cpof, x);
        if x != p { SettledOther(db, db1, db', front, p, cpof, x); } else { SettledLast(db, db', front, p, cpof); }
      }
    } else {
      RowsOnlyRefl(db);
    }
  }

  lemma RowsOnlyRefl(db: Db)
    ensures RowsOnly(db, db)
  {}

  lemma RowsOnlyFacts(db: Db, db': Db, q: QueueId)
    requires RowsOnly(db, db')
    ensures db'.edges == db.edges && QueuesCalm(db, db') && (q in db.queues ==> q in db'.queues)
    ensures db'.jobs.Keys == db.jobs.Keys
  {}

  // ---------------------------------------------------------------- the finish

  /** Rows stay themselves; edges stay or go, and keep their ends. */
  ghost predicate Rooted(db: Db, db': Db) {
    && db'.jobs.Keys == db.jobs.Keys && db'.nextPk == db.nextPk && db'.nextEdge == db.nextEdge
    && (forall k | k in db.jobs :: db'.jobs[k].pk == db.jobs[k].pk)
    && (forall i | i in db'.edges :: i in db.edges && SameEnds(db.edges[i], db'.edges[i]))
  }

  predicate SameEnds(e: Edge, e': Edge) {
    e' == e.(status := e'.status)
  }

  lemma RootedStanding(db: Db, db': Db)
    requires Rooted(db, db') && Standing(db)
    ensures Standing(db')
  {
    forall i | i in db'.edges
      ensures db'.edges[i].parent in db'.jobs && (db'.edges[i].linked ==> db'.edges[i].child in db'.jobs)
    {
      assert SameEnds(db.edges[i], db'.edges[i]);
    }
  }

  ghost function Notified(db: Db, a: FinishArgs): seq<Key> {
    Sorted(ByPk, db.jobs, ParentsOf(db, a.key) * db.jobs.Keys)
  }

  lemma NotifiedListed(db: Db, a: FinishArgs)
    requires Grounded(db)
    ensures Distinct(Notified(db, a))
    ensures forall p :: p in Notified(db, a) <==> Linked(db, p, a.key)
  {
    var s := ParentsOf(db, a.key) * db.jobs.Keys;
    SortedInOrder(ByPk, db.jobs, s);
    var r := Notified(db, a);
    forall i, j | 0 <= i < j < |r| ensures r[i] != r[j] { InOrderDistinct(ByPk, db.jobs, r, i, j); }
    forall p ensures p in r <==> Linked(db, p, a.key) {
      if Linked(db, p, a.key) {
        var i :| i in db.edges && db.edges[i].parent == p && EdgeOf(db.edges[i], a.key);
        assert p in s;
      }
    }
  }

  lemma ResolveRooted(db: Db, child: Key, opts: JobOpts, ok: bool, none: bool)
    ensures Rooted(db, ResolveEdges(db, child, opts, ok, none))
    ensures ResolveEdges(db, child, opts, ok, none) == db.(edges := ResolveEdges(db, child, opts, ok, none).edges)
    ensures forall i | i in db.edges && !EdgeOf(db.edges[i], child) ::
      i in ResolveEdges(db, child, opts, ok, none).edges
        && ResolveEdges(db, child, opts, ok, none).edges[i] == db.edges[i]
  {}

  lemma ForceParentShape(db: Db, p: Key)
    requires p in db.jobs
    ensures OneRow(db, ForceParent(db, p), p) && ForceParent(db, p).jobs[p].pk == db.jobs[p].pk
    ensures ForceParent(db, p).jobs[p].dedup == db.jobs[p].dedup
    ensures ForceParent(db, p).jobs[p].state != Parked
  {
    hide Enqueue;
    var j := db.jobs[p].(deferred := true);
    EnqueueShape(db, p, j);
    EnqueueShape(db, p, j.(delayMs := 0, processAt := None));
  }

  lemma {:induction false} ForceParentsShape(db: Db, ps: seq<Key>)
    ensures var db' := ForceParents(db, ps);
      && SomeRows(db, db') && OnlyParks(db, db', {})
      && (forall k | k in db.jobs :: db'.jobs[k].pk == db.jobs[k].pk)
      && (forall k | k in db.jobs && k !in ps :: db'.jobs[k] == db.jobs[k])
  {
    if ps != [] {
      hide ForceParent;
      var front, p := ps[..|ps| - 1], ps[|ps| - 1];
      ForceParentsShape(db, front);
      assert ps == front + [p];
      var db1 := ForceParents(db, front);
      if p in db1.jobs { ForceParentShape(db1, p); }
    }
  }

  ghost predicate QueuesExist(db: Db) {
    forall k | k in db.jobs :: k.queue in db.queues
  }

  lemma CalmQueuesExist(db: Db, db': Db)
    requires Calm(db, db') && InPlace(db)
    ensures InPlace(db') && QueuesExist(db')
  {}

  /** The state in which the listed parents are settled: edges resolved, `fpof` parents armed. */
  ghost function Resolved(db: Db, a: FinishArgs, opts: JobOpts): Db {
    var db1 := ResolveEdges(db, a.key, opts, a.ok, a.keep == Some(0));
    if !a.ok && opts.fpof then ForceParents(db1, Notified(db, a)) else db1
  }

  lemma NotifySplit(db: Db, a: FinishArgs, opts: JobOpts)
    ensures NotifyParents(db, a, opts) == SettleParents(Resolved(db, a, opts), Notified(db, a), !a.ok && opts.cpof)
  {
    hide SettleParents, ForceParents, ResolveEdges, ParentsOf;
  }

  lemma ResolvedWaits(db: Db, a: FinishArgs, opts: JobOpts)
    requires Standing(db) && Waits(db, {}) && InPlace(db)
    ensures var db2 := Resolved(db, a, opts);
      Standing(db2) && Waits(db2, Elements(Notified(db, a))) && QueuesExist(db2)
  {
    hide ForceParents, ResolveEdges, InPlace, Calm, Standing, Waits, Notified, OnlyParks, Rooted, SomeRows;
    var ps := Notified(db, a);
    NotifiedListed(db, a) by { StandsGrounded(db); }
    var db1 := ResolveEdges(db, a.key, opts, a.ok, a.keep == Some(0));
    ResolveRooted(db, a.key, opts, a.ok, a.keep == Some(0));
    RootedStanding(db, db1);
    ResolveWaits(db, db1, a.key, Elements(ps));
    SameRowsCalm(db, db1);
    CalmQueuesExist(db, db1);
    if !a.ok && opts.fpof {
      var db2 := ForceParents(db1, ps);
      ForceParentsShape(db1, ps);
      ForceParentsCalm(db1, ps);
      CalmQueuesExist(db1, db2);
      SomeRowsRooted(db1, db2);
      RootedStanding(db1, db2);
      SomeRowsWaits(db1, db2, Elements(ps));
    }
  }

  lemma StandsPks(db: Db)
    requires Standing(db)
    ensures PksBounded(db)
  {}

  lemma ResolvedPks(db: Db, a: FinishArgs, opts: JobOpts)
    ensures var db2 := Resolved(db, a, opts);
      db2.jobs.Keys == db.jobs.Keys && forall k | k in db.jobs :: db2.jobs[k].pk == db.jobs[k].pk
  {
    hide ForceParents, ResolveEdges, Notified;
    ResolveRooted(db, a.key, opts, a.ok, a.keep == Some(0));
    ForceParentsShape(ResolveEdges(db, a.key, opts, a.ok, a.keep == Some(0)), Notified(db, a));
  }

  lemma SomeRowsRooted(db: Db, db': Db)
    requires SomeRows(db, db') && forall k | k in db.jobs :: db'.jobs[k].pk == db.jobs[k].pk
    ensures Rooted(db, db')
  {}

  lemma NotifyWaits(db: Db, a: FinishArgs, opts: JobOpts)
    requires Standing(db) && Waits(db, {}) && InPlace(db)
    ensures var db' := NotifyParents(db, a, opts); Standing(db') && Waits(db', {})
  {
    hide SettleParents, Resolved, InPlace, Standing, Waits, Lets, Notified, SomeRows, QueuesCalm, Rooted, Released;
    var ps, cpof := Notified(db, a), !a.ok && opts.cpof;
    NotifySplit(db, a, opts);
    NotifiedListed(db, a) by { StandsGrounded(db); }
    ResolvedWaits(db, a, opts);
    var db2 := Resolved(db, a, opts);
    SettleParentsExactly(db2, ps, cpof);
    var db3 := SettleParents(db2, ps, cpof);
    SomeRowsRooted(db2, db3);
    RootedStanding(db2, db3);
    SettledAll(db2, db3, ps, cpof);
  }

  lemma StandsGrounded(db: Db)
    requires Standing(db)
    ensures Grounded(db)
  {}

  lemma ResolveWaits(db: Db, db1: Db, child: Key, ps: set<Key>)
    requires Waits(db, {}) && db1.jobs == db.jobs
    requires forall p :: p in ps <==> Linked(db, p, child)
    requires forall i | i in db.edges && !EdgeOf(db.edges[i], child) :: i in db1.edges && db1.edges[i] == db.edges[i]
    ensures Waits(db1, ps)
  {
    forall p | ParkedIn(db1.jobs, p) && p !in ps ensures HasBlockingEdge(db1, p) {
      assert ParkedIn(db.jobs, p);
      var i :| i in db.edges && db.edges[i].parent == p && Blocking(db.edges[i]);
      assert !Linked(db, p, child);
      assert i in db1.edges && db1.edges[i] == db.edges[i];
    }
  }

  lemma SomeRowsWaits(db: Db, db': Db, except: set<Key>)
    requires SomeRows(db, db') && OnlyParks(db, db', {}) && Waits(db, except)
    ensures Waits(db', except)
  {
    forall p | ParkedIn(db'.jobs, p) && p !in except ensures HasBlockingEdge(db', p) {
      assert ParkedIn(db.jobs, p);
      SameEdgesSameBlock(db, db', p);
    }
  }

  lemma SettledAll(db: Db, db': Db, ps: seq<Key>, cpof: bool)
    requires Waits(db, Elements(ps)) && RowsOnly(db, db')
    requires forall p | p in db.jobs :: SettledRow(db, db', ps, cpof, p)
    ensures Waits(db', {})
  {
    forall p | ParkedIn(db'.jobs, p) ensures HasBlockingEdge(db', p) {
      SameEdgesSameBlock(db, db', p);
      assert ParkedIn(db.jobs, p);
    }
  }

  lemma TrimGentle(db: Db, a: FinishArgs)
    requires a.key in db.jobs ==> db.jobs[a.key].state != Active
    ensures Gentle(db, Trim(db, a)) && OnlyParks(db, Trim(db, a), {})
  {
    hide RowNumber, TooOld, Gentle;
    DeleteGentle(db, {a.key});
    DeleteGentle(db, Doomed(db, a.key.queue, FinalState(a.ok), a.keep, a.age));
    GentleRefl(db);
  }

  lemma FinishWaits(db: Db, a: FinishArgs)
    requires Standing(db) && Waits(db, {}) && InPlace(db) && LeasesSound(db) && Finishes(db, a)
    ensures Standing(DoFinish(db, a)) && Waits(DoFinish(db, a), {})
  {
    hide Requeue, NotifyParents, Trim, Calm, Standing, Waits, InPlace, EdgesCalm, OnlyParks, SamePlace;
    var j := db.jobs[a.key];
    assert Sound(LifeOf(j)) && j.state == Active;
    var db1 := Put(db, a.key, EndedRow(j, a.ok, db.now));
    EndedPlacid(db, a);
    PlacidWaits(db, db1);
    EndedInPlace(db, a);
    var db2 := Requeue(db1, a.key);
    RequeueKeeps(db1, a.key);
    GentleStanding(db1, db2);
    GentleWaits(db1, db2, {}, {});
    var none: set<Key> := {};
    assert none + none == none;
    CalmQueuesExist(db1, db2);
    CalmStaysIdle(db1, db2, a.key);
    var db3 := NotifyParents(db2, a, j.payload.opts);
    NotifyWaits(db2, a, j.payload.opts);
    NotifyParentsCalm(db2, a, j.payload.opts);
    CalmTrans(db1, db2, db3);
    CalmStaysIdle(db1, db3, a.key);
    TrimGentle(db3, a);
    GentleStanding(db3, Trim(db3, a));
    GentleWaits(db3, Trim(db3, a), {}, {});
  }

  lemma EndedPlacid(db: Db, a: FinishArgs)
    requires a.key in db.jobs && db.jobs[a.key].state == Active
    ensures Placid(db, Put(db, a.key, EndedRow(db.jobs[a.key], a.ok, db.now)))
  {}

  lemma EndedInPlace(db: Db, a: FinishArgs)
    requires a.key in db.jobs && InPlace(db)
    ensures InPlace(Put(db, a.key, EndedRow(db.jobs[a.key], a.ok, db.now)))
  {
    SubsetInPlace(db, Put(db, a.key, EndedRow(db.jobs[a.key], a.ok, db.now)));
  }

  // ---------------------------------------------------------------- when a parent goes, and where

  /** An edge that blocks `p` and does not wait for `child`. */
  ghost predicate OtherBlock(db: Db, p: Key, child: Key) {
    exists i :: i in db.edges && db.edges[i].parent == p && Blocking(db.edges[i]) && !EdgeOf(db.edges[i], child)
  }

  /** An edge on the ended child that goes on blocking: the child failed, none of `idof`, `cpof`
      and `rdof` is set, and its row stays or the edge had already failed. */
  ghost predicate OwnBlock(db: Db, p: Key, a: FinishArgs, opts: JobOpts) {
    !a.ok && !opts.idof && !opts.cpof && !opts.rdof
    && exists i :: i in db.edges && db.edges[i].parent == p && EdgeOf(db.edges[i], a.key) && Blocking(db.edges[i])
         && (a.keep != Some(0) || db.edges[i].status == Broken)
  }

  /** The ended child leaves `p` where it is. */
  ghost predicate StaysParked(db: Db, p: Key, a: FinishArgs, opts: JobOpts) {
    !(!a.ok && opts.cpof && Linked(db, p, a.key)) && (OtherBlock(db, p, a.key) || OwnBlock(db, p, a, opts))
  }

  lemma ResolvedBlocks(db: Db, a: FinishArgs, opts: JobOpts, p: Key)
    requires a.ok || !opts.fpof
    ensures Resolved(db, a, opts).jobs == db.jobs && Resolved(db, a, opts).queues == db.queues
    ensures Resolved(db, a, opts).now == db.now
    ensures HasBlockingEdge(Resolved(db, a, opts), p) <==> OtherBlock(db, p, a.key) || OwnBlock(db, p, a, opts)
  {
    var db1 := Resolved(db, a, opts);
    forall i | i in db.edges && db.edges[i].parent == p && Blocking(db.edges[i]) && !EdgeOf(db.edges[i], a.key)
      ensures i in db1.edges && db1.edges[i] == db.edges[i]
    {}
    forall i | i in db1.edges && db1.edges[i].parent == p && Blocking(db1.edges[i])
      ensures i in db.edges && db.edges[i].parent == p && Blocking(db.edges[i])
    {}
    if OwnBlock(db, p, a, opts) {
      var i :| i in db.edges && db.edges[i].parent == p && EdgeOf(db.edges[i], a.key) && Blocking(db.edges[i])
         && (a.keep != Some(0) || db.edges[i].status == Broken);
      assert i in db1.edges && Blocking(db1.edges[i]);
    }
  }

  /** A parked parent before the finish, the same row after it, either as it was or released. */
  ghost predicate Answered(db: Db, db': Db, p: Key, stays: bool)
    requires p in db.jobs
  {
    p in db'.jobs
    && (if stays then ParkedIn(db'.jobs, p) else !ParkedIn(db'.jobs, p) && Released(db, p, db.jobs[p], db'.jobs[p]))
  }

  lemma NotifyAnswers(db: Db, a: FinishArgs, opts: JobOpts, p: Key)
    requires (a.ok || !opts.fpof) && Grounded(db) && QueuesExist(db) && ParkedIn(db.jobs, p) && HasBlockingEdge(db, p)
    ensures Answered(db, NotifyParents(db, a, opts), p, StaysParked(db, p, a, opts))
  {
    hide SettleParents, Resolved, Notified, HasBlockingEdge, OtherBlock, OwnBlock, RowsOnly, Released;
    var ps, db2, cpof := Notified(db, a), Resolved(db, a, opts), !a.ok && opts.cpof;
    NotifySplit(db, a, opts);
    NotifiedListed(db, a);
    ResolvedBlocks(db, a, opts, p);
    SettleParentsExactly(db2, ps, cpof);
    var db3 := SettleParents(db2, ps, cpof);
    RowsOnlyKeys(db2, db3, p);
    assert SettledRow(db2, db3, ps, cpof, p);
    if !OtherBlock(db, p, a.key) { OnlyBlockedBy(db, p, a.key); }
    if !StaysParked(db, p, a, opts) { ReleasedSame(db2, db, p, db.jobs[p], db3.jobs[p]); }
  }

  lemma RowsOnlyKeys(db: Db, db': Db, p: Key)
    requires RowsOnly(db, db')
    ensures p in db.jobs <==> p in db'.jobs
  {}

  lemma ReleasedSame(db: Db, db': Db, p: Key, j: Job, j': Job)
    requires db.queues == db'.queues && db.now == db'.now && Released(db, p, j, j')
    ensures Released(db', p, j, j')
  {}

  lemma OnlyBlockedBy(db: Db, p: Key, child: Key)
    requires HasBlockingEdge(db, p) && !OtherBlock(db, p, child)
    ensures Linked(db, p, child)
  {
    var i :| i in db.edges && db.edges[i].parent == p && Blocking(db.edges[i]);
    assert EdgeOf(db.edges[i], child);
  }

  lemma KeepsParked(db: Db, db': Db, p: Key)
    requires Keeps(db, db') && ParkedIn(db.jobs, p)
    ensures ParkedIn(db'.jobs, p) && db'.jobs[p].delayMs == db.jobs[p].delayMs
    ensures db'.jobs[p].priority == db.jobs[p].priority
    ensures HasBlockingEdge(db', p) == HasBlockingEdge(db, p)
    ensures QueuesCalm(db, db') && db'.edges == db.edges
  {}

  lemma SameEdgesSameStay(db: Db, db': Db, p: Key, a: FinishArgs, opts: JobOpts)
    requires db'.edges == db.edges
    ensures StaysParked(db', p, a, opts) == StaysParked(db, p, a, opts)
  {}

  lemma AnsweredEarlier(db: Db, db1: Db, db': Db, p: Key, stays: bool)
    requires ParkedIn(db.jobs, p) && ParkedIn(db1.jobs, p) && QueuesCalm(db, db1) && p.queue in db.queues
    requires db1.jobs[p].delayMs == db.jobs[p].delayMs && db1.jobs[p].priority == db.jobs[p].priority
    requires Answered(db1, db', p, stays)
    ensures Answered(db, db', p, stays)
  {}

  lemma TrimSpares(db: Db, a: FinishArgs, p: Key)
    requires p in db.jobs && p != a.key && db.jobs[p].state != FinalState(a.ok)
    ensures p in Trim(db, a).jobs && Trim(db, a).jobs[p] == db.jobs[p]
  {
    hide RowNumber, TooOld;
  }

  lemma AnsweredUnfinished(db: Db, db': Db, p: Key, stays: bool)
    requires p in db.jobs && Answered(db, db', p, stays)
    ensures p in db'.jobs && !Finished(db'.jobs[p])
  {}

  /** When a job ends, in success or without `fpof` in failure, a parked parent is released
      exactly if no other edge of it is unsettled and the job's own edge no longer blocks, or
      outright by `cpof`; and it goes where its own delay, priority and queue say. */
  lemma EndReleases(db: Db, a: FinishArgs, p: Key)
    requires Standing(db) && Waits(db, {}) && InPlace(db) && LeasesSound(db)
    requires Finishes(db, a) && (a.ok || !db.jobs[a.key].payload.opts.fpof) && ParkedIn(db.jobs, p)
    ensures Answered(db, DoFinish(db, a), p, StaysParked(db, p, a, db.jobs[a.key].payload.opts))
  {
    hide Requeue, NotifyParents, Trim, Calm, Standing, InPlace, EdgesCalm, Answered, StaysParked, Keeps, QueuesCalm;
    hide HasBlockingEdge;
    var j := db.jobs[a.key];
    var opts := j.payload.opts;
    assert Sound(LifeOf(j)) && j.state == Active;
    var db1 := Put(db, a.key, EndedRow(j, a.ok, db.now));
    EndedKeepsOthers(db, a, p);
    EndedPlacid(db, a);
    PlacidWaits(db, db1);
    EndedInPlace(db, a);
    var db2 := Requeue(db1, a.key);
    RequeueKeeps(db1, a.key);
    GentleStanding(db1, db2);
    StandsGrounded(db2);
    CalmQueuesExist(db1, db2);
    KeepsParked(db1, db2, p);
    SameEdgesSameStay(db, db2, p, a, opts);
    var db3 := NotifyParents(db2, a, opts);
    NotifyAnswers(db2, a, opts, p);
    var stays := StaysParked(db, p, a, opts);
    AnsweredUnfinished(db2, db3, p, stays);
    TrimSpares(db3, a, p);
    AnsweredTrim(db2, db3, Trim(db3, a), p, stays);
    CalmQueuesExist(db, db) by { CalmRefl(db); }
    QueuesCalmTrans(db, db1, db2);
    AnsweredEarlier(db, db2, DoFinish(db, a), p, stays);
  }

  /** What `fpof` makes of a parent: armed, and if it was waiting for children or for its time, at
      the tail of its list under a sequence not handed out before. */
  predicate ForcedRow(q: Queue, j: Job, j': Job) {
    if j.state == Parked || j.state == Delayed then
      && j'.waitSeq.Some? && j'.waitSeq.value > q.waitNum
      && j' == (if j.state == Delayed then j.(delayMs := 0, processAt := None) else j).(
                 deferred := true, state := Route(q), waitSeq := j'.waitSeq)
    else j' == j.(deferred := true)
  }

  lemma ForceParentRow(db: Db, p: Key)
    requires p in db.jobs
    ensures OneRow(db, ForceParent(db, p), p)
    ensures ForcedRow(QueueOf(db, p.queue), db.jobs[p], ForceParent(db, p).jobs[p])
  {}

  lemma ForcedLater(q: Queue, q1: Queue, j: Job, j': Job)
    requires ForcedRow(q1, j, j') && q1.paused == q.paused && q1.waitNum >= q.waitNum
    ensures ForcedRow(q, j, j')
  {}

  lemma {:induction false} ForceParentsRows(db: Db, ps: seq<Key>)
    requires Distinct(ps) && QueuesExist(db)
    ensures forall p | p in ps && p in db.jobs ::
      ForcedRow(QueueOf(db, p.queue), db.jobs[p], ForceParents(db, ps).jobs[p])
  {
    if ps != [] {
      hide ForceParent, ForcedRow, Calm, Distinct;
      var front, p := ps[..|ps| - 1], ps[|ps| - 1];
      assert ps == front + [p];
      assert Distinct(front) && p !in front by { DistinctSnoc(front, p); }
      ForceParentsRows(db, front);
      ForceParentsShape(db, front);
      var db1 := ForceParents(db, front);
      if p in db1.jobs {
        ForceParentsCalm(db, front);
        ForcedLast(db, db1, p);
      }
    }
  }

  lemma ForcedLast(db: Db, db1: Db, p: Key)
    requires Calm(db, db1) && p.queue in db.queues && p in db.jobs && p in db1.jobs && db1.jobs[p] == db.jobs[p]
    ensures ForcedRow(QueueOf(db, p.queue), db.jobs[p], ForceParent(db1, p).jobs[p])
    ensures OneRow(db1, ForceParent(db1, p), p)
  {
    hide ForceParent, ForcedRow, Calm;
    ForceParentRow(db1, p);
    CalmQueue(db, db1, p.queue);
    ForcedLater(QueueOf(db, p.queue), QueueOf(db1, p.queue), db.jobs[p], ForceParent(db1, p).jobs[p]);
  }

  lemma DistinctSnoc(front: seq<Key>, p: Key)
    requires Distinct(front + [p])
    ensures Distinct(front) && p !in front
  {
    var ks := front + [p];
    assert ks[|front|] == p;
    forall i | 0 <= i < |front| ensures front[i] == ks[i] {}
  }

  /** Row `p` after a failure under `fpof`, up to a deduplication id the requeue may have cleared. */
  ghost predicate Armed(q: Queue, j: Job, j': Job, linked: bool) {
    var j0 := j.(dedup := j'.dedup);
    if linked then ForcedRow(q, j0, j') else j' == j0
  }

  lemma NotifyArms(db: Db, a: FinishArgs, opts: JobOpts, p: Key)
    requires Grounded(db) && InPlace(db) && !a.ok && opts.fpof && p in db.jobs
    ensures var db' := NotifyParents(db, a, opts);
      p in db'.jobs && Armed(QueueOf(db, p.queue), db.jobs[p], db'.jobs[p], Linked(db, p, a.key))
  {
    hide SettleParents, ForceParents, ResolveEdges, Notified, InPlace, Released, RowsOnly, Linked, ForcedRow;
    hide Armed, SettledRow;
    var ps, db2 := Notified(db, a), Resolved(db, a, opts);
    NotifySplit(db, a, opts);
    NotifiedListed(db, a);
    var db1 := ResolveEdges(db, a.key, opts, a.ok, a.keep == Some(0));
    ResolveRooted(db, a.key, opts, a.ok, a.keep == Some(0));
    ForceParentsRows(db1, ps) by { PlacedQueues(db); }
    ForceParentsShape(db1, ps);
    ResolvedQueues(db, a, opts);
    SettleParentsExactly(db2, ps, !a.ok && opts.cpof);
    var db3 := SettleParents(db2, ps, !a.ok && opts.cpof);
    RowsOnlyKeys(db2, db3, p);
    assert QueueOf(db1, p.queue) == QueueOf(db, p.queue);
    SettledArmed(db, db2, db3, ps, !a.ok && opts.cpof, p);
  }

  /** Settling leaves armed parents where arming has put them. */
  lemma SettledArmed(db: Db, db2: Db, db3: Db, ps: seq<Key>, cpof: bool, p: Key)
    requires p in db.jobs && p in db2.jobs && p in db3.jobs && SettledRow(db2, db3, ps, cpof, p)
    requires if p in ps then ForcedRow(QueueOf(db, p.queue), db.jobs[p], db2.jobs[p]) else db2.jobs[p] == db.jobs[p]
    ensures Armed(QueueOf(db, p.queue), db.jobs[p], db3.jobs[p], p in ps)
  {
    hide Released, ForcedRow, QueueOf;
    if p in ps { ForcedUnparked(QueueOf(db, p.queue), db.jobs[p], db2.jobs[p]); }
  }

  lemma ForcedUnparked(q: Queue, j: Job, j': Job)
    requires ForcedRow(q, j, j')
    ensures j'.state != Parked && ForcedRow(q, j.(dedup := j'.dedup), j')
  {}

  lemma PlacedQueues(db: Db)
    requires InPlace(db)
    ensures QueuesExist(db)
  {}

  lemma TrimKeepsRest(db: Db, a: FinishArgs, p: Key)
    requires p in db.jobs
    ensures p in Trim(db, a).jobs ==> Trim(db, a).jobs[p] == db.jobs[p]
    ensures p != a.key && db.jobs[p].state != FinalState(a.ok) ==> p in Trim(db, a).jobs
  {
    hide RowNumber, TooOld;
  }

  lemma KeptRow(db: Db, db': Db, p: Key)
    requires Keeps(db, db') && p in db.jobs
    ensures p in db'.jobs && db'.jobs[p] == db.jobs[p].(dedup := db'.jobs[p].dedup)
    ensures db'.edges == db.edges && QueuesCalm(db, db')
  {}

  lemma ArmedEarlier(q: Queue, q1: Queue, j: Job, j1: Job, j': Job, linked: bool)
    requires j1 == j.(dedup := j1.dedup) && Armed(q1, j1, j', linked) && q1.paused == q.paused
    requires q1.waitNum >= q.waitNum
    ensures Armed(q, j, j', linked)
  {}

  lemma SameEdgesLinked(db: Db, db': Db, p: Key, k: Key)
    requires db'.edges == db.edges
    ensures Linked(db', p, k) == Linked(db, p, k)
  {}

  /** A job fails under `fpof`: a linked parent in `waiting-children` or delayed goes to the tail of
      its wait list with the deferred failure, any other linked parent is only armed, and every
      other row stays as it is. What the trim removes are rows already failed and the job itself. */
  lemma FailureArmsParents(db: Db, a: FinishArgs, p: Key)
    requires Standing(db) && InPlace(db) && LeasesSound(db) && Finishes(db, a)
    requires !a.ok && db.jobs[a.key].payload.opts.fpof && p in db.jobs
    ensures var db' := DoFinish(db, a);
      var j := if p == a.key then EndedRow(db.jobs[p], false, db.now) else db.jobs[p];
      && (p in db'.jobs ==> Armed(QueueOf(db, p.queue), j, db'.jobs[p], Linked(db, p, a.key)))
      && (p != a.key && j.state != Failed ==> p in db'.jobs)
  {
    hide Requeue, NotifyParents, Trim, Calm, Standing, InPlace, EdgesCalm, OnlyParks, Keeps, Linked, Armed, EndedRow;
    var opts := db.jobs[a.key].payload.opts;
    assert Sound(LifeOf(db.jobs[a.key])) && db.jobs[a.key].state == Active;
    var db1 := Put(db, a.key, EndedRow(db.jobs[a.key], a.ok, db.now));
    EndedRooted(db, a);
    RootedStanding(db, db1);
    EndedInPlace(db, a);
    InPlaceAt(db, p);
    var db2 := Requeue(db1, a.key);
    RequeueKeeps(db1, a.key);
    GentleStanding(db1, db2);
    StandsGrounded(db2);
    CalmQueuesExist(db1, db2);
    KeptRow(db1, db2, p);
    SameEdgesLinked(db, db2, p, a.key);
    var db3 := NotifyParents(db2, a, opts);
    NotifyArms(db2, a, opts, p);
    assert p != a.key && db.jobs[p].state != Failed ==>
      db3.jobs[p].state != Failed by { ArmedUnfailed(db2, db3, p, Linked(db2, p, a.key)); }
    TrimKeepsRest(db3, a, p);
    ArmedEarlier(QueueOf(db, p.queue), QueueOf(db2, p.queue), db1.jobs[p],
      db2.jobs[p], db3.jobs[p], Linked(db, p, a.key));
  }

  lemma ArmedUnfailed(db: Db, db': Db, p: Key, linked: bool)
    requires p in db.jobs && p in db'.jobs && Armed(QueueOf(db, p.queue), db.jobs[p], db'.jobs[p], linked)
    ensures db.jobs[p].state != Failed ==> db'.jobs[p].state != Failed
  {}

  lemma EndedKeepsOthers(db: Db, a: FinishArgs, p: Key)
    requires a.key in db.jobs && ParkedIn(db.jobs, p) && db.jobs[a.key].state == Active
    ensures var db1 := Put(db, a.key, EndedRow(db.jobs[a.key], a.ok, db.now));
      && p in db1.jobs && db1.jobs[p] == db.jobs[p] && p != a.key && QueuesCalm(db, db1)
      && db1.edges == db.edges && HasBlockingEdge(db1, p) == HasBlockingEdge(db, p)
  {}

  lemma AnsweredTrim(db: Db, db3: Db, db4: Db, p: Key, stays: bool)
    requires p in db.jobs && Answered(db, db3, p, stays) && p in db3.jobs && p in db4.jobs && db4.jobs[p] == db3.jobs[p]
    ensures Answered(db, db4, p, stays)
  {}

  // ---------------------------------------------------------------- every step, every run

  lemma ToChildrenRooted(db: Db, k: Key, t: Token, c: Option<Key>)
    ensures Rooted(db, ToChildren(db, k, t, c).0)
  {}

  lemma ReprocessRooted(db: Db, k: Key, m: bool, s: bool, t: Option<bool>)
    ensures Rooted(db, Reprocess(db, k, m, s, t).0)
  {}

  lemma CutEdgeRooted(db: Db, c: Key, p: Key)
    ensures Rooted(db, CutEdge(db, c, p).0)
  {}

  lemma NotifyRooted(db: Db, a: FinishArgs, opts: JobOpts)
    requires Standing(db) && QueuesExist(Resolved(db, a, opts))
    ensures Standing(NotifyParents(db, a, opts))
  {
    hide SettleParents, ForceParents, ResolveEdges, Standing, Notified, SomeRows, QueuesCalm, Rooted, Released, Lets;
    NotifySplit(db, a, opts);
    var ps := Notified(db, a);
    NotifiedListed(db, a) by { StandsGrounded(db); }
    var db1 := ResolveEdges(db, a.key, opts, a.ok, a.keep == Some(0));
    ResolveRooted(db, a.key, opts, a.ok, a.keep == Some(0));
    RootedStanding(db, db1);
    ForceParentsShape(db1, ps);
    SomeRowsRooted(db1, ForceParents(db1, ps));
    RootedStanding(db1, ForceParents(db1, ps));
    var db2 := Resolved(db, a, opts);
    SettleParentsExactly(db2, ps, !a.ok && opts.cpof);
    SomeRowsRooted(db2, SettleParents(db2, ps, !a.ok && opts.cpof));
    RootedStanding(db2, SettleParents(db2, ps, !a.ok && opts.cpof));
  }

  lemma ResolvedQueues(db: Db, a: FinishArgs, opts: JobOpts)
    requires InPlace(db)
    ensures QueuesExist(Resolved(db, a, opts))
  {
    hide ForceParents, ResolveEdges, InPlace, Calm, Notified;
    var db1 := ResolveEdges(db, a.key, opts, a.ok, a.keep == Some(0));
    ResolveRooted(db, a.key, opts, a.ok, a.keep == Some(0));
    SameRowsCalm(db, db1);
    CalmQueuesExist(db, db1);
    ForceParentsCalm(db1, Notified(db, a));
    CalmQueuesExist(db1, ForceParents(db1, Notified(db, a)));
  }

  lemma FinishStanding(db: Db, a: FinishArgs)
    requires Standing(db) && InPlace(db) && LeasesSound(db) && Finishes(db, a)
    ensures Standing(DoFinish(db, a))
  {
    hide Requeue, NotifyParents, Trim, Calm, Standing, InPlace, EdgesCalm, OnlyParks, Placid, Rooted, Resolved;
    var j := db.jobs[a.key];
    assert Sound(LifeOf(j)) && j.state == Active;
    var db1 := Put(db, a.key, EndedRow(j, a.ok, db.now));
    EndedRooted(db, a);
    RootedStanding(db, db1);
    EndedInPlace(db, a);
    var db2 := Requeue(db1, a.key);
    RequeueKeeps(db1, a.key);
    GentleStanding(db1, db2);
    CalmQueuesExist(db1, db2);
    ResolvedQueues(db2, a, j.payload.opts);
    var db3 := NotifyParents(db2, a, j.payload.opts);
    NotifyRooted(db2, a, j.payload.opts);
    NotifyParentsCalm(db2, a, j.payload.opts);
    CalmTrans(db1, db2, db3);
    CalmStaysIdle(db1, db3, a.key);
    TrimGentle(db3, a);
    GentleStanding(db3, Trim(db3, a));
  }

  lemma EndedRooted(db: Db, a: FinishArgs)
    requires a.key in db.jobs
    ensures Rooted(db, Put(db, a.key, EndedRow(db.jobs[a.key], a.ok, db.now)))
  {}

  lemma PlacidRooted(db: Db, db': Db)
    requires Placid(db, db')
    ensures Rooted(db, db')
  {}

  /** Steps after which no row is newly parked and every edge is as before. */
  predicate PlacidOp(op: Op) {
    op.OpTick? || op.OpQueue? || op.OpDelay? || op.OpExtend? || op.OpExtendMany?
      || op.OpPause? || op.OpClaim? || op.OpRetry?
    || op.OpRelease? || op.OpSweep? || op.OpPromote? || op.OpChangePriority? || op.OpMoveBatch?
  }

  lemma StepPlacid(db: Db, op: Op)
    requires PlacidOp(op)
    ensures Placid(db, Step(db, op))
  {
    hide Placid, Claim, Retry, Release, Sweep, Promote, ChangePriority, MoveBatch;
    match op
    case OpClaim(a) => ClaimPlacid(db, a);
    case OpRetry(k, t, l) => RetryPlacid(db, k, t, l);
    case OpRelease(k, t) => ReleasePlacid(db, k, t);
    case OpSweep(q, m) => SweepPlacid(db, q, m);
    case OpPromote(k) => PromotePlacid(db, k);
    case OpChangePriority(k, p, h) => ChangePriorityPlacid(db, k, p, h);
    case OpMoveBatch(q, f, n, t) => MoveBatchPlacid(db, q, f, n, t);
    case OpTick(_) => MiscPlacid(db, op);
    case OpQueue(_) => MiscPlacid(db, op);
    case OpPause(_, _) => MiscPlacid(db, op);
    case _ => LeasePlacid(db, op);
  }

  /** What holds of every reachable state: leases, places, keys. */
  ghost predicate Sane(db: Db) {
    LeasesSound(db) && InPlace(db) && Standing(db)
  }

  lemma StepSane(db: Db, op: Op)
    requires Sane(db)
    ensures Sane(Step(db, op))
  {
    hide LeasesSound, InPlace, Standing, Rooted, Placid, Gentle, DoFinish, Finishes, Add, AddNode, ToChildren;
    hide Reprocess, CutEdge;
    StepSound(db, op);
    StepInPlace(db, op);
    if PlacidOp(op) {
      StepPlacid(db, op);
      PlacidRooted(db, Step(db, op));
      RootedStanding(db, Step(db, op));
    } else {
      match op
      case OpAdd(r) => AddGentle(db, r); GentleStanding(db, Step(db, op));
      case OpFlow(n, p) => AddFlowGentle(db, n, p); GentleStanding(db, Step(db, op));
      case OpFinish(a) => if Finishes(db, a) { FinishStanding(db, a); }
      case OpToChildren(k, t, c) => ToChildrenRooted(db, k, t, c); RootedStanding(db, Step(db, op));
      case OpReprocess(k, m, s, t) => ReprocessRooted(db, k, m, s, t); RootedStanding(db, Step(db, op));
      case OpCutEdge(c, p) => CutEdgeRooted(db, c, p); RootedStanding(db, Step(db, op));
    }
  }

  lemma SaneSound(db: Db)
    requires Sane(db)
    ensures LeasesSound(db) && Standing(db)
  {}

  lemma {:induction false} RunSane(db: Db, ops: seq<Op>)
    requires Sane(db)
    ensures Sane(Run(db, ops))
  {
    if ops != [] {
      hide Step, Sane;
      RunSane(db, ops[..|ops| - 1]);
      StepSane(Run(db, ops[..|ops| - 1]), ops[|ops| - 1]);
    }
  }

  lemma InitialSane(db: Db)
    requires Initial(db)
    ensures Sane(db) && Waits(db, {})
  {}

  /** Parents come in with their children, and no flow strands one. */
  ghost predicate Rearing(db: Db, op: Op) {
    match op
    case OpAdd(r) => r.kind != FlowParent
    case OpFlow(n, parent) => !Strands(db, n, parent)
    case _ => true
  }

  lemma StepWaits(db: Db, op: Op)
    requires Sane(db) && Waits(db, {}) && Rearing(db, op)
    ensures Waits(Step(db, op), {})
  {
    hide Waits, LeasesSound, InPlace, Standing, Placid, Gentle, DoFinish, Finishes, Add, AddNode, ToChildren;
    hide Reprocess, CutEdge, OnlyParks;
    if PlacidOp(op) {
      StepPlacid(db, op);
      PlacidWaits(db, Step(db, op));
    } else {
      match op
      case OpAdd(r) => PlainAddWaits(db, r);
      case OpFlow(n, p) => if AddNode(db, n, p).Built? { NodeWaits(db, n, p, {}); }
      case OpFinish(a) => if Finishes(db, a) { FinishWaits(db, a); }
      case OpToChildren(k, t, c) => ToChildrenWaits(db, k, t, c);
      case OpReprocess(k, m, s, t) => ReprocessWaits(db, k, m, s, t);
      case OpCutEdge(c, p) => CutEdgeWaits(db, c, p);
    }
  }

  lemma PlainAddWaits(db: Db, r: Request)
    requires Standing(db) && Waits(db, {}) && r.kind != FlowParent
    ensures Waits(Add(db, r).0, {})
  {
    hide Waits, Standing, Gentle, Add, OnlyParks;
    AddGentle(db, r);
    PlainAddParks(db, r);
    GentleWaits(db, Add(db, r).0, {}, {});
    var none: set<Key> := {};
    assert none + none == none;
  }

  ghost predicate RearingRun(db: Db, ops: seq<Op>) {
    forall i | 0 <= i < |ops| :: Rearing(At(db, ops, i), ops[i])
  }

  lemma RearingFront(db: Db, ops: seq<Op>)
    requires ops != [] && RearingRun(db, ops)
    ensures RearingRun(db, ops[..|ops| - 1]) && Rearing(Run(db, ops[..|ops| - 1]), ops[|ops| - 1])
  {
    hide Rearing, Run;
    var front := ops[..|ops| - 1];
    forall i | 0 <= i < |front| ensures Rearing(At(db, front, i), front[i]) {
      assert front[..i] == ops[..i];
      assert Rearing(At(db, ops, i), ops[i]);
    }
    assert Rearing(At(db, ops, |ops| - 1), ops[|ops| - 1]);
  }

  lemma {:induction false} RunWaits(db: Db, ops: seq<Op>)
    requires Sane(db) && Waits(db, {}) && RearingRun(db, ops)
    ensures Waits(Run(db, ops), {})
  {
    if ops != [] {
      hide Step, Sane, Waits, Rearing;
      var front := ops[..|ops| - 1];
      RearingFront(db, ops);
      RunWaits(db, front);
      RunSane(db, front);
      StepWaits(Run(db, front), ops[|ops| - 1]);
    }
  }

  /** In every reachable state, a job that waits for its children has an edge not yet settled. */
  lemma NoParentWaitsOnNothing(db: Db, ops: seq<Op>, p: Key)
    requires Initial(db) && RearingRun(db, ops) && ParkedIn(Run(db, ops).jobs, p)
    ensures HasBlockingEdge(Run(db, ops), p)
  {
    hide Step;
    InitialSane(db);
    RunWaits(db, ops);
  }
}

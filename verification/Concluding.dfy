/** What the end of a job writes, said in columns: its own row, the edges that lead to it, and the
    answers of the calls a worker makes under its lease. */
module Concluding {
  import opened Rows
  import opened Ordering
  import opened Tables
  import opened Linking
  import opened Ending
  import opened Machine
  import opened Frames
  import opened Lives
  import opened Releasing
  import opened Surviving
  import opened Adopting
  import opened KeepLast
  import opened Inserting
  import opened Waiting
  import opened Adding
  import opened Places

  // ---------------------------------------------------------------- answers

  /** The job holds a lease that still runs, under any token. */
  ghost predicate Leased(db: Db, k: Key) {
    k in db.jobs && db.jobs[k].lockToken.Some? && db.jobs[k].lockExpires.Some? && db.jobs[k].lockExpires.value > db.now
  }

  ghost predicate HasChild(db: Db, k: Key, status: EdgeStatus) {
    exists i :: i in db.edges && db.edges[i].parent == k && db.edges[i].status == status
  }

  /** Each answer of a finish under its exact condition: `Missing` for a failure of an unknown job, `LockMissing`
      without a running lease, `LockMismatch` under another token, and in success `PendingChildren` before
      `FailedChildren`; everything else is accepted, a repeat included. */
  lemma FinishAnswers(db: Db, a: FinishArgs)
    ensures var code := Finish(db, a).1;
      var open := a.key in db.jobs && db.jobs[a.key].state != EndState(a);
      var own := open && Leased(db, a.key) && db.jobs[a.key].lockToken == Some(a.token);
      && (code == Missing <==> a.key !in db.jobs && !a.ok)
      && (code == LockMissing <==> open && !Leased(db, a.key))
      && (code == LockMismatch <==> open && Leased(db, a.key) && db.jobs[a.key].lockToken != Some(a.token))
      && (code == PendingChildren <==> own && a.ok && HasChild(db, a.key, Pending))
      && (code == FailedChildren <==> own && a.ok && HasChild(db, a.key, Broken) && !HasChild(db, a.key, Pending))
      && (code == Ok <==>
            (a.key !in db.jobs && a.ok) || (a.key in db.jobs && !open)
            || (own && !(a.ok && (HasChild(db, a.key, Pending) || HasChild(db, a.key, Broken)))))
  {
    assert forall s :: HasEdge(db, a.key, s) <==> HasChild(db, a.key, s);
  }

  /** The same for a delay. */
  lemma DelayAnswers(db: Db, k: Key, t: Token, at: Millis, ms: int, failed: bool)
    ensures var code := Delay(db, k, t, at, ms, failed).1; var active := k in db.jobs && db.jobs[k].state == Active;
      && (code == Missing <==> k !in db.jobs)
      && (code == NotActive <==> k in db.jobs && !active)
      && (code == LockMissing <==> active && !Leased(db, k))
      && (code == LockMismatch <==> active && Leased(db, k) && db.jobs[k].lockToken != Some(t))
      && (code == Ok <==> active && Leased(db, k) && db.jobs[k].lockToken == Some(t))
      && (code != Ok ==> Step(db, OpDelay(k, t, at, ms, failed)) == db)
  {}

  /** The same for waiting on children: the edges are looked at before the lease, and the lease need not
      run any more. */
  lemma ToChildrenAnswers(db: Db, k: Key, t: Token, c: Option<Key>)
    ensures var code := ToChildren(db, k, t, c).1;
      var waits := k in db.jobs && !HasChild(db, k, Broken) && (
        if c.None? then HasChild(db, k, Pending)
        else c.value in db.jobs && exists i ::
          i in db.edges && db.edges[i].parent == k && db.edges[i].linked && db.edges[i].child == c.value
          && db.edges[i].status == Pending);
      && (code == Missing <==> k !in db.jobs)
      && (code == FailedChildren <==> k in db.jobs && HasChild(db, k, Broken))
      && (code == NotMoved <==> k in db.jobs && !HasChild(db, k, Broken) && !waits)
      && (code == LockMissing <==> waits && db.jobs[k].lockToken.None?)
      && (code == LockMismatch <==> waits && db.jobs[k].lockToken.Some? && db.jobs[k].lockToken != Some(t))
      && (code == NotActive <==> waits && db.jobs[k].lockToken == Some(t) && db.jobs[k].state != Active)
      && (code == Ok <==> waits && db.jobs[k].lockToken == Some(t) && db.jobs[k].state == Active)
  {
    assert forall s :: HasEdge(db, k, s) <==> HasChild(db, k, s);
    assert c.Some? ==> forall i | i in db.edges ::
      EdgeOf(db.edges[i], c.value) <==> db.edges[i].linked && db.edges[i].child == c.value;
  }

  /** Retry, release and renewal ask for an active job under the token; a renewal also for a running lease. */
  lemma HolderAnswers(db: Db, k: Key, t: Token, lifo: bool, ms: int)
    ensures var held := k in db.jobs && db.jobs[k].state == Active && db.jobs[k].lockToken == Some(t);
      && Retry(db, k, t, lifo).1 == (if held then Ok else if k in db.jobs then NotActive else Missing)
      && Release(db, k, t).1 == (if held then Ok else Missing)
      && Extend(db, k, t, ms).1 == (if held && Leased(db, k) then Ok else LockMissing)
      && (!held ==> Step(db, OpRetry(k, t, lifo)) == db && Step(db, OpRelease(k, t)) == db)
  {
    hide PrioHead;
  }

  // ---------------------------------------------------------------- the row

  lemma {:induction false} ForceKeepsEdges(db: Db, ps: seq<Key>)
    ensures ForceParents(db, ps).edges == db.edges && ForceParents(db, ps).dedups == db.dedups
    ensures forall k | k in db.jobs && k !in ps :: ForceParents(db, ps).jobs[k] == db.jobs[k]
  {
    hide ForceParent;
    if ps != [] {
      var front, p := ps[..|ps| - 1], ps[|ps| - 1];
      ForceKeepsEdges(db, front);
      if p in db.jobs { ForceParentShape(ForceParents(db, front), p); }
    }
  }

  lemma {:induction false} SettleKeepsEdges(db: Db, ps: seq<Key>, cpof: bool)
    ensures SettleParents(db, ps, cpof).edges == db.edges && SettleParents(db, ps, cpof).dedups == db.dedups
    ensures forall k | k in db.jobs && (k !in ps || db.jobs[k].state != Parked) ::
      SettleParents(db, ps, cpof).jobs[k] == db.jobs[k]
  {
    hide ReleaseParent, HasBlockingEdge;
    if ps != [] {
      var front, p := ps[..|ps| - 1], ps[|ps| - 1];
      SettleKeepsEdges(db, front, cpof);
      var db1 := SettleParents(db, front, cpof);
      if p in db1.jobs { ReleaseParentShape(db1, p); }
    }
  }

  /** Telling the parents rewrites no edge beyond those of the child, and no row that is not a parent of
      it. */
  lemma NotifyShape(db: Db, a: FinishArgs, opts: JobOpts)
    ensures var db' := NotifyParents(db, a, opts);
      && db'.jobs.Keys == db.jobs.Keys && db'.dedups == db.dedups
      && db'.edges == ResolveEdges(db, a.key, opts, a.ok, a.keep == Some(0)).edges
      && forall k | k in db.jobs && k !in ParentsOf(db, a.key) :: db'.jobs[k] == db.jobs[k]
  {
    hide ForceParents, SettleParents, ParentsOf;
    var ps := Sorted(ByPk, db.jobs, ParentsOf(db, a.key) * db.jobs.Keys);
    var db1 := ResolveEdges(db, a.key, opts, a.ok, a.keep == Some(0));
    ForceKeepsEdges(db1, ps);
    SettleKeepsEdges(db1, ps, !a.ok && opts.cpof);
    SettleKeepsEdges(ForceParents(db1, ps), ps, !a.ok && opts.cpof);
  }

  /** The trim removes rows, the edges of removed parents, and the references to removed children. */
  lemma TrimShape(db: Db, a: FinishArgs)
    ensures var db' := Trim(db, a);
      && db'.dedups == db.dedups
      && (forall k | k in db'.jobs :: k in db.jobs && db'.jobs[k] == db.jobs[k])
      && (forall i | i in db'.edges :: i in db.edges)
      && (forall i | i in db.edges && db.edges[i].parent in db'.jobs :: i in db'.edges
            && db'.edges[i] == db.edges[i].(linked := db'.edges[i].linked)
            && (db'.edges[i].linked ==> db.edges[i].linked))
  {
    hide Doomed;
  }

  /** The stages of a finish that goes through: its row and the requeue, the parents, the trim. */
  lemma FinishParts(db: Db, a: FinishArgs) returns (db2: Db, db3: Db)
    requires LeasesSound(db) && Finishes(db, a)
    ensures db.jobs[a.key].state == Active
    ensures db2 == Requeue(Put(db, a.key, EndedRow(db.jobs[a.key], a.ok, db.now)), a.key) && db2.edges == db.edges
    ensures forall k | k in db.jobs :: k in db2.jobs
    ensures db2.jobs[a.key] ==
      EndedRow(db.jobs[a.key], a.ok, db.now).(dedup := db2.jobs[a.key].dedup)
    ensures forall k | k in db.jobs && k != a.key :: db2.jobs[k] == db.jobs[k].(dedup := db2.jobs[k].dedup)
    ensures db3 == NotifyParents(db2, a, db.jobs[a.key].payload.opts) && Step(db, OpFinish(a)) == Trim(db3, a)
  {
    hide Requeue, NotifyParents, Trim, Gentle, QueuesCalm;
    var j := db.jobs[a.key];
    assert Sound(LifeOf(j)) && j.state == Active;
    db2 := Requeue(Put(db, a.key, EndedRow(j, a.ok, db.now)), a.key);
    RequeueKeeps(Put(db, a.key, EndedRow(j, a.ok, db.now)), a.key);
    db3 := NotifyParents(db2, a, j.payload.opts);
  }

  /** The row of a job that ends: its state and finish time, no lease, one more attempt; a failure also
      forgets the delay and the deferred failure. */
  predicate EndedAs(j: Job, j': Job, ok: bool, now: Millis) {
    j' == j.(state := if ok then Completed else Failed, finishedOn := Some(now), lockToken := None, lockExpires := None,
             attemptsMade := j.attemptsMade + 1, delayMs := if ok then j.delayMs else 0,
             deferred := ok && j.deferred, dedup := j'.dedup)
  }

  /** A finish that goes through writes the row of its job, if the trim leaves it and it is not its own
      parent. */
  lemma FinishWrites(db: Db, a: FinishArgs)
    requires LeasesSound(db) && Finishes(db, a) && !HasLink(db, a.key, a.key)
    ensures var db' := Step(db, OpFinish(a));
      a.key in db'.jobs ==> EndedAs(db.jobs[a.key], db'.jobs[a.key], a.ok, db.now)
  {
    hide Requeue, NotifyParents, Trim, FinishCode, Step;
    var db2, db3 := FinishParts(db, a);
    NotifyShape(db2, a, db.jobs[a.key].payload.opts);
    assert a.key !in ParentsOf(db2, a.key);
    TrimShape(db3, a);
  }

  // ---------------------------------------------------------------- the edges

  /** Its row is about to go and no option of the failed child settles the edge. */
  predicate Orphans(a: FinishArgs, o: JobOpts) {
    a.keep == Some(0) && !o.idof && !o.cpof && !o.fpof
  }

  /** What becomes of an edge that leads to the job that ends: a success is processed; a failure takes the
      edge away under `rdof`, or when the row is to go with the edge still pending; `idof` and `cpof` have
      it ignored; otherwise a pending edge is broken. */
  function EdgeAfter(a: FinishArgs, o: JobOpts, status: EdgeStatus): Option<EdgeStatus> {
    if a.ok then Some(Processed)
    else if o.rdof || (status == Pending && Orphans(a, o)) then None
    else if o.idof || o.cpof then Some(Ignored)
    else if status == Pending then Some(Broken)
    else Some(status)
  }

  /** A finish settles exactly the edges that lead to its job, each as its options say. */
  lemma FinishSettlesEdges(db: Db, a: FinishArgs, i: nat)
    requires LeasesSound(db) && Finishes(db, a) && i in db.edges && db.edges[i].parent in Step(db, OpFinish(a)).jobs
    ensures var db', e := Step(db, OpFinish(a)), db.edges[i];
      var after := if e.linked && e.child == a.key then EdgeAfter(a, db.jobs[a.key].payload.opts, e.status)
                   else Some(e.status);
      && (i in db'.edges <==> after.Some?)
      && (i in db'.edges ==> db'.edges[i] == e.(status := after.value, linked := db'.edges[i].linked))
      && (i in db'.edges && db'.edges[i].linked ==> e.linked)
  {
    hide Requeue, NotifyParents, Trim, FinishCode, Step;
    var db2, db3 := FinishParts(db, a);
    NotifyShape(db2, a, db.jobs[a.key].payload.opts);
    TrimShape(db3, a);
  }

  /** A finish writes no edge of its own. */
  lemma FinishAddsNoEdge(db: Db, a: FinishArgs, i: nat)
    requires LeasesSound(db) && Finishes(db, a) && i in Step(db, OpFinish(a)).edges
    ensures i in db.edges
  {
    hide Requeue, NotifyParents, Trim, FinishCode, Step;
    var db2, db3 := FinishParts(db, a);
    NotifyShape(db2, a, db.jobs[a.key].payload.opts);
    TrimShape(db3, a);
  }

  // ---------------------------------------------------------------- parents let go together

  /** Parked before, and no longer. */
  ghost predicate Went(db: Db, db': Db, p: Key) {
    p in db.jobs && p in db'.jobs && db.jobs[p].state == Parked && db'.jobs[p].state != Parked
  }

  predicate ToWait(j: Job) {
    j.delayMs <= 0 && j.priority <= 0
  }

  predicate ToPriority(j: Job) {
    j.delayMs <= 0 && j.priority > 0
  }

  /** The sequences of a parent let go are among those its queue has handed out. */
  ghost predicate Numbered(db: Db, db': Db, p: Key) {
    Went(db, db', p) ==>
      var j, j', q := db.jobs[p], db'.jobs[p], QueueOf(db', p.queue);
      && (ToWait(j) ==> j'.waitSeq.Some? && j'.waitSeq.value <= q.waitNum)
      && (ToPriority(j) ==> j'.prioSeq.Some? && j'.prioSeq.value <= q.prioNum)
  }

  /** Of two parents of one queue let go to the same kind of list the first has the lower sequence. */
  ghost predicate WentInTurn(db: Db, db': Db, x: Key, y: Key) {
    Went(db, db', x) && Went(db, db', y) && x.queue == y.queue ==>
      var jx, jy, x', y' := db.jobs[x], db.jobs[y], db'.jobs[x], db'.jobs[y];
      && (ToWait(jx) && ToWait(jy) ==> x'.waitSeq.Some? && y'.waitSeq.Some? && x'.waitSeq.value < y'.waitSeq.value)
      && (ToPriority(jx) && ToPriority(jy) ==>
            x'.prioSeq.Some? && y'.prioSeq.Some? && x'.prioSeq.value < y'.prioSeq.value)
  }

  lemma SettleOneInTurn(db: Db, db1: Db, p: Key, cpof: bool, x: Key)
    requires p in db1.jobs && p in db.jobs && db1.jobs[p] == db.jobs[p] && Numbered(db, db1, x) && x != p
    ensures var db' := SettleParent(db1, p, cpof);
      Numbered(db, db', x) && Numbered(db, db', p) && WentInTurn(db, db', x, p)
  {
    hide HasBlockingEdge;
  }

  lemma SettleOneOthers(db: Db, db1: Db, p: Key, cpof: bool, x: Key, y: Key)
    requires p in db1.jobs && WentInTurn(db, db1, x, y) && x != p && y != p
    ensures WentInTurn(db, SettleParent(db1, p, cpof), x, y)
  {
    hide HasBlockingEdge;
  }

  lemma {:induction false} SettlesInTurn(db: Db, ps: seq<Key>, cpof: bool)
    requires Distinct(ps) && forall i | 0 <= i < |ps| :: ps[i] in db.jobs
    ensures var db' := SettleParents(db, ps, cpof);
      && (forall i | 0 <= i < |ps| :: Numbered(db, db', ps[i]))
      && (forall i, j | 0 <= i < j < |ps| :: WentInTurn(db, db', ps[i], ps[j]))
  {
    if ps != [] {
      hide SettleParent, Numbered, WentInTurn;
      var front, p := ps[..|ps| - 1], ps[|ps| - 1];
      assert ps == front + [p];
      assert Distinct(front) && p !in front by { DistinctSnoc(front, p); }
      SettlesInTurn(db, front, cpof);
      SettleKeepsEdges(db, front, cpof);
      var db1 := SettleParents(db, front, cpof);
      assert db1.jobs[p] == db.jobs[p];
      forall i | 0 <= i < |front| ensures Numbered(db, SettleParent(db1, p, cpof), ps[i])
        && WentInTurn(db, SettleParent(db1, p, cpof), ps[i], p)
      {
        assert ps[i] == front[i] && front[i] in front;
        SettleOneInTurn(db, db1, p, cpof, ps[i]);
      }
      forall i, j | 0 <= i < j < |front| ensures WentInTurn(db, SettleParent(db1, p, cpof), ps[i], ps[j]) {
        assert ps[i] == front[i] && ps[j] == front[j] && front[i] in front && front[j] in front;
        SettleOneOthers(db, db1, p, cpof, ps[i], ps[j]);
      }
      if front == [] { LastNumbered(db, p, cpof); } else { SettleOneInTurn(db, db1, p, cpof, front[0]); }
    }
  }

  lemma LastNumbered(db: Db, p: Key, cpof: bool)
    requires p in db.jobs
    ensures Numbered(db, SettleParent(db, p, cpof), p)
  {
    hide HasBlockingEdge;
  }

  lemma NotifiesInTurn(db: Db, a: FinishArgs, opts: JobOpts, x: Key, y: Key)
    requires (a.ok || !opts.fpof) && x in db.jobs && y in db.jobs && db.jobs[x].pk < db.jobs[y].pk
    requires HasLink(db, x, a.key) && HasLink(db, y, a.key)
    ensures WentInTurn(db, NotifyParents(db, a, opts), x, y)
  {
    hide SettleParents, WentInTurn, RankOf, RankLess, KeyLess, Before;
    var s := ParentsOf(db, a.key) * db.jobs.Keys;
    var ps, cpof := Sorted(ByPk, db.jobs, s), !a.ok && opts.cpof;
    var db1 := ResolveEdges(db, a.key, opts, a.ok, a.keep == Some(0));
    SortedInOrder(ByPk, db.jobs, s);
    forall i | 0 <= i < |ps| ensures ps[i] in db.jobs { assert ps[i] in ps; }
    forall i, j | 0 <= i < j < |ps| ensures ps[i] != ps[j] { InOrderDistinct(ByPk, db.jobs, ps, i, j); }
    assert x in ps && y in ps by { LinkedAreListed(db, a.key, x, y); }
    var i :| 0 <= i < |ps| && ps[i] == x;
    var j :| 0 <= j < |ps| && ps[j] == y;
    assert Before(ByPk, db.jobs, x, y) by { LowerPkBefore(db, x, y); }
    BeforeIsStrictTotal(ByPk, db.jobs, x, y, x);
    SettlesInTurn(db1, ps, cpof);
    SameRowsInTurn(db1, db, SettleParents(db1, ps, cpof), x, y);
  }

  lemma LowerPkBefore(db: Db, x: Key, y: Key)
    requires x in db.jobs && y in db.jobs && db.jobs[x].pk < db.jobs[y].pk
    ensures Before(ByPk, db.jobs, x, y)
  {}

  lemma LinkedAreListed(db: Db, c: Key, x: Key, y: Key)
    requires HasLink(db, x, c) && HasLink(db, y, c)
    ensures x in ParentsOf(db, c) && y in ParentsOf(db, c)
  {}

  lemma SameRowsInTurn(db1: Db, db: Db, db': Db, x: Key, y: Key)
    requires db1.jobs == db.jobs && WentInTurn(db1, db', x, y)
    ensures WentInTurn(db, db', x, y)
  {}

  /** Of two parents in one queue that a finish lets go to the wait list, or to a priority, the older one
      goes in front. */
  lemma ParentsGoInTurn(db: Db, a: FinishArgs, x: Key, y: Key)
    requires LeasesSound(db) && Finishes(db, a) && (a.ok || !db.jobs[a.key].payload.opts.fpof)
    requires x in db.jobs && y in db.jobs && db.jobs[x].pk < db.jobs[y].pk
    requires HasLink(db, x, a.key) && HasLink(db, y, a.key)
    ensures WentInTurn(db, Step(db, OpFinish(a)), x, y)
  {
    hide Requeue, NotifyParents, Trim, FinishCode, Step, WentInTurn;
    var db2, db3 := FinishParts(db, a);
    NotifiesInTurn(db2, a, db.jobs[a.key].payload.opts, x, y);
    NotifyShape(db2, a, db.jobs[a.key].payload.opts);
    TrimShape(db3, a);
    EarlierInTurn(db, db2, db3, Trim(db3, a), x, y);
  }

  lemma EarlierInTurn(db: Db, db2: Db, db3: Db, db4: Db, x: Key, y: Key)
    requires WentInTurn(db2, db3, x, y)
    requires forall k | k == x || k == y :: k in db.jobs && k in db2.jobs && k in db3.jobs
    requires forall k | k == x || k == y :: db.jobs[k].state == Parked ==>
      db2.jobs[k] == db.jobs[k].(dedup := db2.jobs[k].dedup)
    requires forall k | (k == x || k == y) && k in db4.jobs :: db4.jobs[k] == db3.jobs[k]
    ensures WentInTurn(db, db4, x, y)
  {}

  // ---------------------------------------------------------------- the stash

  /** The deduplication row keeps an add for when the job has ended. */
  ghost predicate Stashes(db: Db, k: Key, d: DedupKey) {
    d in db.dedups && d.queue == k.queue && db.dedups[d].job == k.id && db.dedups[d].keepLast
    && db.dedups[d].pending.Some?
  }

  /** The job that comes of a stash: a new row with what was stashed, delayed from the present time if it
      asks for a delay, else prioritized if it asks for a priority, else in the list of its queue. */
  ghost predicate ComesOf(db: Db, db': Db, k: Key, d: DedupId, p: Payload) {
    k in db'.jobs
    && var j, q := db'.jobs[k], QueueOf(db, k.queue);
       && j.payload == p && j.priority == p.opts.priority && j.maxAttempts == p.opts.attempts && j.parent.None?
       && j.dedup == Some(d) && j.delayMs == p.opts.delay && j.finishedOn.None? && j.lockToken.None?
       && if p.opts.delay > 0 then j.state == Delayed && j.processAt == Some(db.now + p.opts.delay)
          else if p.opts.priority > 0 then j.state == Prioritized && j.prioSeq == Some(q.prioNum + 1)
          else
            && j.state == (if q.paused then Paused else Wait) && j.waitSeq.Some?
            && (!p.opts.lifo ==> j.waitSeq == Some(q.waitNum + 1))
  }

  lemma RequeueWrites(db: Db, k: Key, d: DedupKey)
    requires Stashes(db, k, d) && forall x | Stashes(db, k, x) :: d.id <= x.id
    requires k.queue in db.queues && Key(k.queue, db.queues[k.queue].jobNum + 1) !in db.jobs
    ensures Key(k.queue, db.queues[k.queue].jobNum + 1) in Requeue(db, k).jobs
    ensures ComesOf(db, Requeue(db, k), Key(k.queue, db.queues[k.queue].jobNum + 1),
      d.id, db.dedups[d].pending.value)
  {
    hide Add, AddedAs, TopOfList;
    assert IsFirstStash(db, k, d) by {
      forall x | IsStash(db, k, x) ensures d.id <= x.id { assert Stashes(db, k, x); }
    }
    FirstStashUnique(db, k, d);
    var db1, r := DeleteDedups(db, {d}), StashRequest(db, d);
    var key := Key(k.queue, db.queues[k.queue].jobNum + 1);
    assert AddKey(db1, r) == key && !TurnedAway(db1, r);
    AddsExactly(db1, r);
    AddWrites(db1, r, key);
    StashAddedAs(db, db1, Add(db1, r).0, r, key);
  }

  lemma StashAddedAs(db: Db, db1: Db, db': Db, r: Request, k: Key)
    requires AddedAs(db1, db', r, k)
    requires r == Request(StashKind(r.payload), k.queue, None, r.payload, db.now, None, r.dedup)
    requires db1 == db.(dedups := db1.dedups) && r.dedup.Some?
    ensures ComesOf(db, db', k, r.dedup.value, r.payload)
  {
    hide ListPeer;
  }

  /** When a job ends that has stashes, the one of the lowest id comes back under the next number, if that
      is free, as a job of its own kind. */
  lemma StashComesBack(db: Db, a: FinishArgs, d: DedupKey)
    requires Sane(db) && Finishes(db, a) && Stashes(db, a.key, d) && forall x | Stashes(db, a.key, x) :: d.id <= x.id
    requires a.key.queue in db.queues && Key(a.key.queue, db.queues[a.key.queue].jobNum + 1) !in db.jobs
    ensures ComesOf(db, Step(db, OpFinish(a)), Key(a.key.queue, db.queues[a.key.queue].jobNum + 1),
      d.id, db.dedups[d].pending.value)
  {
    hide Requeue, NotifyParents, Trim, FinishCode, Step, ComesOf, Standing, InPlace, LeasesSound;
    var key := Key(a.key.queue, db.queues[a.key.queue].jobNum + 1);
    var db2, db3 := FinishParts(db, a);
    var db1 := Put(db, a.key, EndedRow(db.jobs[a.key], a.ok, db.now));
    assert forall x :: Stashes(db1, a.key, x) <==> Stashes(db, a.key, x);
    RequeueWrites(db1, a.key, d);
    assert key !in ParentsOf(db2, a.key) by { NewIsNoParent(db, key); }
    NotifyShape(db2, a, db.jobs[a.key].payload.opts);
    TrimShape(db3, a);
    StashLeft(db1, db2, a, db3, key, d.id, db.dedups[d].pending.value);
    SameNumbersCome(db1, db, Trim(db3, a), key, d.id, db.dedups[d].pending.value);
  }

  lemma NewIsNoParent(db: Db, k: Key)
    requires Standing(db) && k !in db.jobs
    ensures forall i | i in db.edges :: db.edges[i].parent != k
  {}

  lemma StashLeft(db1: Db, db2: Db, a: FinishArgs, db3: Db, k: Key, d: DedupId, p: Payload)
    requires ComesOf(db1, db2, k, d, p) && k in db2.jobs && k in db3.jobs && db3.jobs[k] == db2.jobs[k] && k != a.key
    ensures ComesOf(db1, Trim(db3, a), k, d, p)
  {
    hide Trim;
    TrimKeepsRest(db3, a, k);
  }

  lemma SameNumbersCome(db1: Db, db: Db, db': Db, k: Key, d: DedupId, p: Payload)
    requires ComesOf(db1, db', k, d, p) && db1.queues == db.queues && db1.now == db.now
    ensures ComesOf(db, db', k, d, p)
  {}

  /** When a job ends that has no stash, exactly the deduplication rows that name it and have no expiry
      go; all others stay as they are. */
  lemma IdsLetGo(db: Db, a: FinishArgs)
    requires Finishes(db, a) && LeasesSound(db) && forall d :: !Stashes(db, a.key, d)
    ensures Step(db, OpFinish(a)).dedups ==
      map d | d in db.dedups && !(d.queue == a.key.queue && db.dedups[d].job == a.key.id && db.dedups[d].expires.None?)
        :: db.dedups[d]
  {
    hide NotifyParents, Trim, Add, FinishCode, Step;
    var db2, db3 := FinishParts(db, a);
    var db1 := Put(db, a.key, EndedRow(db.jobs[a.key], a.ok, db.now));
    assert forall d :: !IsFirstStash(db1, a.key, d) by {
      forall d ensures !IsStash(db1, a.key, d) { assert !Stashes(db, a.key, d); }
    }
    NotifyShape(db2, a, db.jobs[a.key].payload.opts);
    TrimShape(db3, a);
  }
}

/** The database functions as they run: a store whose tables they update in place. Every method
    is proved to take the store to the state its specification function names. */
module Stores {
  import opened Rows
  import opened Ordering
  import opened Tables
  import opened Linking
  import opened Adding
  import opened Claiming
  import opened Ending
  import opened Managing
  import opened Flows
  import opened Machine
  import opened KeepLast
  import opened Batches
  import opened Picking
  import opened Sweeping
  import opened Inserting

  lemma LeastUnique(s: set<int>, m: int)
    requires IsLeast(s, m)
    ensures Least(s) == Some(m)
  {}

  lemma SortedCons(o: SortBy, jobs: map<Key, Job>, s: set<Key>, k: Key)
    requires s <= jobs.Keys && IsFirst(o, jobs, s, k)
    ensures Sorted(o, jobs, s) == [k] + Sorted(o, jobs, s - {k})
  {
    FirstUnique(o, jobs, s, k);
  }

  lemma SortedNone(o: SortBy, jobs: map<Key, Job>)
    ensures Sorted(o, jobs, {}) == []
  {}

  lemma ConcatAssoc(a: seq<Key>, b: seq<Key>, c: seq<Key>)
    ensures a + (b + c) == (a + b) + c
  {}

  lemma PickedExists(db: Db, q: QueueId, k: Key)
    requires Picks(db, q, k)
    ensures k in db.jobs
  {}

  /** A claim returns a row if and only if the gates are open and there is work, and then the row
      that is first in line. */
  lemma ClaimedOne(db: Db, q: QueueId, token: Token, lockMs: int, limiter: Option<Limiter>, claimed: Option<Key>)
    requires claimed.Some? ==> Takes(db, ClaimArgs(q, token, lockMs, limiter, claimed.value))
    requires claimed.None? ==> forall k :: !Takes(db, ClaimArgs(q, token, lockMs, limiter, k))
    ensures claimed.Some? <==> MayClaim(db, q, limiter) && HasWork(db, q)
    ensures claimed.Some? ==> FirstInLine(Prepared(db, q), q, claimed.value)
  {
    hide Takes, FirstInLine, MayClaim, HasWork, Prepared;
    var a := ClaimArgs(q, token, lockMs, limiter, Key(q, 0));
    assert forall k :: a.(pick := k) == ClaimArgs(q, token, lockMs, limiter, k);
    ClaimsExactly(db, a);
    if claimed.Some? { TakesExactly(db, a.(pick := claimed.value)); }
  }

  lemma QueuedSeqs(db: Db, q: QueueId)
    ensures WaitSeqs(db, q, {Wait, Paused}, None)
      == set x | x in db.jobs && x.queue == q && Queued(db.jobs[x]) && db.jobs[x].waitSeq.Some? ::
        db.jobs[x].waitSeq.value
  {}

  lemma {:induction false} LeastStash(s: set<DedupKey>) returns (d: DedupKey)
    requires s != {}
    ensures d in s && forall x | x in s :: d.id <= x.id
    decreases |s|
  {
    var y :| y in s;
    d := y;
    if s - {y} != {} {
      var z := LeastStash(s - {y});
      d := if z.id < y.id then z else y;
      forall x | x in s ensures d.id <= x.id { assert x == y || x in s - {y}; }
    }
  }

  /** The swept row as the one `update` computes it. */
  ghost function SweptTo(db: Db, q: QueueId, m: int, k: Key): Job
    requires k in db.jobs
  {
    var back := Requeued(db, q, m);
    if k !in Stalled(db, q) then db.jobs[k]
    else if k !in back then StalledRow(db.jobs[k]).(state := Failed, finishedOn := Some(db.now), delayMs := 0)
    else
      var n := |set x | x in back && Before(ByNewestPk, db.jobs, x, k)|;
      StalledRow(db.jobs[k]).(state := Route(QueueOf(db, q)), waitSeq := Some(QueueOf(db, q).waitNum + n + 1))
  }

  lemma SweepRows(db: Db, q: QueueId, m: int, rows: map<Key, Job>)
    requires rows.Keys == db.jobs.Keys && forall k | k in db.jobs :: rows[k] == SweptTo(db, q, m, k)
    ensures rows == Sweep(db, q, m).jobs
  {}

  /** A batch that reports more has made the selection smaller. */
  lemma BatchShrinks(db: Db, q: QueueId, from: JobState, count: nat, upTo: Millis)
    requires count >= 1
    ensures var next := MoveBatch(db, q, from, count, upTo); var st := SourceState(from);
      MoreToMove(db, q, from, count, upTo) ==>
        |Movable(next, q, st, upTo)| < |Movable(db, q, st, upTo)|
          && MoveLoop(db, q, from, count, upTo) == MoveLoop(next, q, from, count, upTo)
    ensures !MoreToMove(db, q, from, count, upTo) ==>
      MoveLoop(db, q, from, count, upTo) == MoveBatch(db, q, from, count, upTo)
  {
    hide Movable, Sorted;
    BatchSize(db, q, SourceState(from), count, upTo);
  }

  class Store {
    var now: Millis
    var jobs: map<Key, Job>
    var edges: map<nat, Edge>
    var queues: map<QueueId, Queue>
    var dedups: map<DedupKey, Dedup>
    var nextPk: nat
    var nextEdge: nat

    ghost function Snapshot(): Db
      reads this
    {
      Db(now, jobs, edges, queues, dedups, nextPk, nextEdge)
    }

    constructor (time: Millis)
      ensures Snapshot() == Db(time, map[], map[], map[], map[], 0, 0)
    {
      now, jobs, edges, queues, dedups, nextPk, nextEdge := time, map[], map[], map[], map[], 0, 0;
    }

    // -------------------------------------------------------------- queries

    function QueueRow(q: QueueId): Queue
      reads this
    {
      if q in queues then queues[q] else FRESH_QUEUE
    }

    /** SQL `min`. */
    method MinOf(s: set<int>) returns (m: Option<int>)
      ensures m == Least(s)
    {
      m := None;
      var rest := s;
      while rest != {}
        invariant rest <= s
        invariant m.None? ==> rest == s
        invariant m.Some? ==> m.value in s && forall x :: x in s && x !in rest ==> m.value <= x
        decreases rest
      {
        assert (forall y: int :: y !in rest) ==> rest == {};
        var x :| x in rest;
        rest := rest - {x};
        if m.None? || x < m.value { m := Some(x); }
      }
      if m.Some? { LeastUnique(s, m.value); }
    }

    /** `order by`. */
    method OrderBy(o: SortBy, s: set<Key>) returns (r: seq<Key>)
      requires s <= jobs.Keys
      ensures r == Sorted(o, jobs, s)
    {
      hide Sorted, Before;
      r := [];
      var rest := s;
      SortedNone(o, jobs);
      while rest != {}
        invariant rest <= s
        invariant r + Sorted(o, jobs, rest) == Sorted(o, jobs, s)
        decreases rest
      {
        ghost var first := FirstExists(o, jobs, rest);
        var k :| k in rest && forall x | x in rest :: x == k || Before(o, jobs, k, x);
        SortedCons(o, jobs, rest, k);
        ConcatAssoc(r, [k], Sorted(o, jobs, rest - {k}));
        r := r + [k];
        rest := rest - {k};
      }
    }

    // -------------------------------------------------------------- counters and rows

    method NextWaitSeq(q: QueueId) returns (n: int)
      modifies this
      ensures Snapshot() == BumpWait(old(Snapshot()), q) && n == QueueOf(old(Snapshot()), q).waitNum + 1
    {
      var row := QueueRow(q);
      n := row.waitNum + 1;
      queues := queues[q := row.(waitNum := row.waitNum + 1)];
    }

    method NextPrioSeq(q: QueueId) returns (n: int)
      modifies this
      ensures Snapshot() == BumpPrio(old(Snapshot()), q) && n == QueueOf(old(Snapshot()), q).prioNum + 1
    {
      var row := QueueRow(q);
      n := row.prioNum + 1;
      queues := queues[q := row.(prioNum := row.prioNum + 1)];
    }

    method ToTail(k: Key, j: Job)
      modifies this
      ensures Snapshot() == Enqueue(old(Snapshot()), k, j)
    {
      var list := if QueueRow(k.queue).paused then Paused else Wait;
      var n := NextWaitSeq(k.queue);
      jobs := jobs[k := j.(state := list, waitSeq := Some(n))];
    }

    method ToPriority(k: Key, j: Job, state: JobState)
      modifies this
      ensures Snapshot() == Prioritize(old(Snapshot()), k, j, state)
    {
      var n := NextPrioSeq(k.queue);
      jobs := jobs[k := j.(state := state, prioSeq := Some(n))];
    }

    method DeleteRows(s: set<Key>)
      modifies this
      ensures Snapshot() == DeleteJobs(old(Snapshot()), s)
    {
      jobs := map k | k in jobs && k !in s :: jobs[k];
      edges := map i | i in edges && edges[i].parent !in s ::
        if edges[i].child in s then edges[i].(linked := false) else edges[i];
    }

    // -------------------------------------------------------------- linking

    /** Is there an edge that keeps `p` waiting? */
    function Blocked(p: Key): (b: bool)
      reads this
      ensures b == HasBlockingEdge(Snapshot(), p)
    {
      exists i :: i in edges && edges[i].parent == p && Blocking(edges[i])
    }

    function HasStatus(p: Key, status: EdgeStatus): (b: bool)
      reads this
      ensures b == HasEdge(Snapshot(), p, status)
    {
      exists i :: i in edges && edges[i].parent == p && edges[i].status == status
    }

    function IsLinked(p: Key, child: Key): (b: bool)
      reads this
      ensures b == Linked(Snapshot(), p, child)
    {
      exists i :: i in edges && edges[i].parent == p && EdgeOf(edges[i], child)
    }

    method ReleaseRow(p: Key)
      requires p in jobs
      modifies this
      ensures Snapshot() == ReleaseParent(old(Snapshot()), p)
    {
      var j := jobs[p];
      if j.state != Parked { return; }
      if j.delayMs > 0 {
        jobs := jobs[p := j.(state := Delayed, processAt := Some(now + j.delayMs), waitSeq := None, prioSeq := None)];
      } else if j.priority > 0 {
        ToPriority(p, j.(waitSeq := None), Prioritized);
      } else {
        ToTail(p, j);
      }
    }

    method LinkChild(parent: Key, child: Key)
      modifies this
      ensures Snapshot() == Link(old(Snapshot()), parent, child)
    {
      if parent !in jobs || child !in jobs { return; }
      var status := match jobs[child].state case Completed => Processed case Failed => Broken case _ => Pending;
      if !IsLinked(parent, child) {
        edges := edges[nextEdge := Edge(parent, child, true, status)];
        nextEdge := nextEdge + 1;
      }
      if status != Pending && !Blocked(parent) { ReleaseRow(parent); }
    }

    // -------------------------------------------------------------- claiming

    method PromoteRow(k: Key)
      requires k in jobs
      modifies this
      ensures Snapshot() == PromoteOne(old(Snapshot()), k)
    {
      var j := jobs[k].(delayMs := 0);
      if j.priority > 0 {
        ToPriority(k, j, if QueueRow(k.queue).paused then Paused else Prioritized);
      } else {
        ToTail(k, j);
      }
    }

    method PromoteDueRows(q: QueueId)
      modifies this
      ensures Snapshot() == PromoteDue(old(Snapshot()), q)
    {
      ghost var before := Snapshot();
      var due := set k | k in jobs && k.queue == q && jobs[k].state == Delayed
        && jobs[k].processAt.Some? && jobs[k].processAt.value <= now;
      assert due == Due(before, q);
      var rows := OrderBy(ByDue, due);
      PromoteRows(rows);
    }

    method PromoteRows(rows: seq<Key>)
      modifies this
      ensures Snapshot() == PromoteSeq(old(Snapshot()), rows)
    {
      hide PromoteOne;
      ghost var before := Snapshot();
      for i := 0 to |rows|
        invariant Snapshot() == PromoteSeq(before, rows[..i])
      {
        assert rows[..i + 1][..i] == rows[..i];
        if rows[i] in jobs { PromoteRow(rows[i]); }
      }
      assert rows[..|rows|] == rows;
    }

    /** `for update skip locked limit 1`: of the rows the order lets come first, any one. */
    method PickNext(q: QueueId) returns (k: Option<Key>)
      ensures k.Some? ==> Picks(Snapshot(), q, k.value) && FirstInLine(Snapshot(), q, k.value)
      ensures k.None? ==> forall x :: !Picks(Snapshot(), q, x)
      ensures k.None? <==> NoneReady(Snapshot(), q)
    {
      var ready := set x | x in jobs && x.queue == q && Claimable(jobs[x]);
      if ready == {} {
        forall x ensures !Picks(Snapshot(), q, x) { assert x !in ready; }
        forall x | x in jobs && x.queue == q ensures jobs[x].state != Wait && jobs[x].state != Prioritized {
          assert x !in ready;
        }
        return None;
      }
      ghost var first := SomeoneIsFirst(jobs, ready);
      var next :| next in ready && forall x | x in ready :: !ClaimsBefore(jobs[x], jobs[next]);
      assert Picks(Snapshot(), q, next);
      PicksFirst(Snapshot(), q, next);
      return Some(next);
    }

    method LeaseRow(a: ClaimArgs)
      requires a.pick in jobs
      modifies this
      ensures Snapshot() == Activate(old(Snapshot()), a)
    {
      var q := QueueRow(a.queue);
      var limiter := if a.limiter.Some? then a.limiter else q.limiter;
      jobs := jobs[a.pick := Leased(jobs[a.pick], a.token, now + a.lockMs)];
      queues := queues[a.queue := q.(window := TakeToken(q.window, limiter, now))];
    }

    method GatesAreOpen(q: QueueId, limiter: Option<Limiter>) returns (open: bool)
      ensures forall token, ms, pick :: open == GatesOpen(Snapshot(), ClaimArgs(q, token, ms, limiter, pick))
    {
      var row := QueueRow(q);
      if Throttled(row.window, if limiter.Some? then limiter else row.limiter, now) { return false; }
      if row.paused { return false; }
      if row.concurrency.Some? {
        var live := set k | k in jobs && k.queue == q && jobs[k].state == Active
          && jobs[k].lockExpires.Some? && jobs[k].lockExpires.value > now;
        assert live == LiveLeases(Snapshot(), q);
        if |live| >= row.concurrency.value { return false; }
      }
      return true;
    }

    method PrepareClaim(q: QueueId)
      modifies this
      ensures Snapshot() == Prepared(old(Snapshot()), q)
    {
      var row := QueueRow(q);
      queues := queues[q := row.(window := LiveWindow(row.window, now))];
      PromoteDueRows(q);
    }

    /** `emq_move_to_active_v1`: the claim the state allows, or none when it allows none. */
    method MoveToActive(q: QueueId, token: Token, lockMs: int, limiter: Option<Limiter>) returns (claimed: Option<Key>)
      modifies this
      ensures claimed.Some? ==>
        var a := ClaimArgs(q, token, lockMs, limiter, claimed.value);
        Takes(old(Snapshot()), a) && Snapshot() == Claim(old(Snapshot()), a)
      ensures claimed.None? ==>
        forall k :: var a := ClaimArgs(q, token, lockMs, limiter, k);
          !Takes(old(Snapshot()), a) && Snapshot() == Claim(old(Snapshot()), a)
      ensures claimed.Some? <==> MayClaim(old(Snapshot()), q, limiter) && HasWork(old(Snapshot()), q)
      ensures claimed.Some? ==> FirstInLine(Prepared(old(Snapshot()), q), q, claimed.value)
    {
      claimed := ClaimNext(q, token, lockMs, limiter);
      ClaimedOne(old(Snapshot()), q, token, lockMs, limiter, claimed);
    }

    method ClaimNext(q: QueueId, token: Token, lockMs: int, limiter: Option<Limiter>) returns (claimed: Option<Key>)
      modifies this
      ensures claimed.Some? ==>
        var a := ClaimArgs(q, token, lockMs, limiter, claimed.value);
        Takes(old(Snapshot()), a) && Snapshot() == Claim(old(Snapshot()), a)
      ensures claimed.None? ==>
        forall k :: var a := ClaimArgs(q, token, lockMs, limiter, k);
          !Takes(old(Snapshot()), a) && Snapshot() == Claim(old(Snapshot()), a)
    {
      hide GatesOpen, Picks, Prepared, FirstInLine, NoneReady;
      if q !in queues { return None; }
      PrepareClaim(q);
      var open := GatesAreOpen(q, limiter);
      if !open { return None; }
      var next := PickNext(q);
      if next.None? { return None; }
      assert next.value in jobs by { PickedExists(Snapshot(), q, next.value); }
      LeaseRow(ClaimArgs(q, token, lockMs, limiter, next.value));
      return next;
    }

    // -------------------------------------------------------------- inserting

    function IsLive(q: QueueId, d: DedupId): (b: bool)
      reads this
      ensures b == LiveDedup(Snapshot(), q, d)
    {
      var dk := DedupKey(q, d);
      dk in dedups && (dedups[dk].expires.None? || dedups[dk].expires.value > now)
    }

    function IsSuppressed(r: Request): (b: bool)
      reads this
      ensures b == Suppressed(Snapshot(), r)
    {
      r.dedup.Some?
      && !(r.payload.opts.dedup.Some? && r.payload.opts.dedup.value.replace)
      && IsLive(r.queue, r.dedup.value)
      && Key(r.queue, dedups[DedupKey(r.queue, r.dedup.value)].job) in jobs
    }

    /** The add is folded into the holder of its id. */
    method FoldAdd(r: Request)
      requires IsSuppressed(r)
      modifies this
      ensures Snapshot() == Suppress(old(Snapshot()), r)
    {
      var dk := DedupKey(r.queue, r.dedup.value);
      var row := dedups[dk];
      var de := r.payload.opts.dedup;
      if r.kind != FlowParent && de.Some? && de.value.keepLast && jobs[Key(r.queue, row.job)].state == Active {
        dedups := dedups[dk := Dedup(row.job, None, true, Some(r.payload))];
      } else if de.Some? && de.value.extend && de.value.ttl > 0 {
        dedups := dedups[dk := row.(expires := Expiry(now, de.value.ttl))];
      } else {
        dedups := dedups[dk := row];
      }
    }

    method ClearStaleTags(q: QueueId, d: DedupId)
      modifies this
      ensures Snapshot() == ClearStale(old(Snapshot()), q, d)
    {
      var live := IsLive(q, d);
      jobs := map k | k in jobs ::
        if k.queue == q && jobs[k].dedup == Some(d) && !(live && dedups[DedupKey(q, d)].job == k.id)
        then jobs[k].(dedup := None) else jobs[k];
    }

    /** The sequence number of a standard add is taken before the row is written. */
    method InsertPlain(k: Key, j: Job)
      modifies this
      ensures Snapshot() == InsertStandard(old(Snapshot()), k, j)
    {
      if j.payload.opts.lifo {
        var seqs := set x | x in jobs && x.queue == k.queue && Queued(jobs[x]) && jobs[x].waitSeq.Some? ::
          jobs[x].waitSeq.value;
        assert seqs == WaitSeqs(Snapshot(), k.queue, {Wait, Paused}, None) by { QueuedSeqs(Snapshot(), k.queue); }
        var head := MinOf(seqs);
        if head.Some? {
          jobs := jobs[k := j.(state := Route(QueueRow(k.queue)), waitSeq := Some(head.value - 1))];
          return;
        }
      }
      ToTail(k, j);
    }

    method InsertNew(k: Key, r: Request)
      modifies this
      ensures Snapshot() == InsertRow(old(Snapshot()), k, r)
    {
      var o := r.payload.opts;
      var j := Job(nextPk, r.payload, Delayed, o.priority, None, None, None,
        o.delay, 0, 0, o.attempts, 0, None, None, None, r.parent, r.dedup, false);
      nextPk := nextPk + 1;
      match r.kind {
        case Standard => InsertPlain(k, j);
        case Prio => ToPriority(k, j, Prioritized);
        case Later => jobs := jobs[k := j.(processAt := Some(r.timestamp + j.delayMs))];
        case FlowParent => jobs := jobs[k := j.(state := Parked)];
      }
    }

    /** `on conflict do nothing`: the sequence has been taken all the same. */
    method InsertTaken(k: Key, r: Request)
      modifies this
      ensures Snapshot() == InsertConflict(old(Snapshot()), k, r)
    {
      match r.kind {
        case Standard =>
          var seqs := set x | x in jobs && x.queue == k.queue && Queued(jobs[x]) && jobs[x].waitSeq.Some? ::
            jobs[x].waitSeq.value;
          assert seqs == WaitSeqs(Snapshot(), k.queue, {Wait, Paused}, None) by { QueuedSeqs(Snapshot(), k.queue); }
          if !(r.payload.opts.lifo && seqs != {}) { var n := NextWaitSeq(k.queue); }
        case Prio => var n := NextPrioSeq(k.queue);
        case _ =>
      }
    }

    method HoldId(r: Request, id: JobId)
      modifies this
      ensures Snapshot() == HoldDedup(old(Snapshot()), r, id)
    {
      if r.dedup.None? { return; }
      var dk := DedupKey(r.queue, r.dedup.value);
      var de := r.payload.opts.dedup;
      var ttl := if de.Some? then de.value.ttl else 0;
      var keep := de.Some? && de.value.keepLast;
      if r.kind != FlowParent {
        dedups := dedups[dk := Dedup(id, if keep then None else Expiry(now, ttl), keep, None)];
      } else if dk in dedups {
        dedups := dedups[dk := dedups[dk].(job := id, expires := Expiry(now, ttl))];
      } else {
        dedups := dedups[dk := Dedup(id, Expiry(now, ttl), false, None)];
      }
    }

    method InsertJob(r: Request, k: Key) returns (out: Outcome)
      modifies this
      ensures (Snapshot(), out) == Insert(old(Snapshot()), r, k)
    {
      hide InsertRow, InsertConflict, ClearStale, HoldDedup, Link;
      out := Added(k.id);
      if r.dedup.Some? { ClearStaleTags(r.queue, r.dedup.value); }
      if k in jobs {
        InsertTaken(k, r);
        return;
      }
      InsertNew(k, r);
      HoldId(r, k.id);
      if r.parent.Some? { LinkChild(r.parent.value, k); }
    }

    method ReplaceJob(r: Request, k: Key) returns (out: Outcome)
      requires Replaces(r)
      modifies this
      ensures (Snapshot(), out) == Replace(old(Snapshot()), r, k)
      ensures r.queue == k.queue && k.queue in old(queues) && k !in old(jobs) ==>
        Replaced(old(Snapshot()), Snapshot(), out, r, k)
    {
      hide Replace;
      if r.queue == k.queue && k.queue in queues && k !in jobs { ReplaceExactly(Snapshot(), r, k); }
      out := ReplaceHolder(r, k);
    }

    method ReplaceHolder(r: Request, k: Key) returns (out: Outcome)
      requires Replaces(r)
      modifies this
      ensures (Snapshot(), out) == Replace(old(Snapshot()), r, k)
    {
      hide Insert, DeleteJobs;
      var dk := DedupKey(r.queue, r.dedup.value);
      if dk in dedups {
        var h := Key(r.queue, dedups[dk].job);
        if !(h in jobs && jobs[h].state in Replaceable(r.kind)) { return Added(h.id); }
        DeleteRows({h});
        DropIds({dk});
      }
      out := InsertJob(r, k);
    }

    method DropIds(s: set<DedupKey>)
      modifies this
      ensures Snapshot() == DeleteDedups(old(Snapshot()), s)
    {
      dedups := map d | d in dedups && d !in s :: dedups[d];
    }

    method Relink(r: Request, k: Key) returns (out: Outcome)
      requires k in jobs
      modifies this
      ensures (Snapshot(), out) == AddExisting(old(Snapshot()), r, k)
    {
      hide Link;
      var former := jobs[k].parent;
      out := Added(k.id);
      if r.parent.Some? {
        if former.Some? && former != r.parent && former.value in jobs { return ParentConflict; }
        LinkChild(r.parent.value, k);
        if k in jobs { jobs := jobs[k := jobs[k].(parent := r.parent)]; }
      }
    }

    /** `emq_add_standard_job_v1`, `..._prioritized_...`, `..._delayed_...` and `..._parent_job_v1`. */
    method AddJob(r: Request) returns (out: Outcome)
      modifies this
      ensures (Snapshot(), out) == Add(old(Snapshot()), r)
      ensures forall k | k in jobs && k !in old(jobs) :: k == AddKey(old(Snapshot()), r)
      ensures forall k | k in jobs && k !in old(jobs) :: AddedAs(old(Snapshot()), Snapshot(), r, k)
    {
      out := AddOne(r);
      hide Add, AddedAs, AddKey;
      forall k | k in jobs && k !in old(jobs)
        ensures k == AddKey(old(Snapshot()), r) && AddedAs(old(Snapshot()), Snapshot(), r, k) {
        AddWrites(old(Snapshot()), r, k);
      }
    }

    method AddOne(r: Request) returns (out: Outcome)
      modifies this
      ensures (Snapshot(), out) == Add(old(Snapshot()), r)
    {
      hide Insert, Replace, AddExisting, Suppress, LiveDedup;
      if r.queue !in queues { return NoQueue; }
      var row := queues[r.queue];
      var id := if r.custom.Some? then r.custom.value else row.jobNum + 1;
      if r.custom.None? { queues := queues[r.queue := row.(jobNum := row.jobNum + 1)]; }
      var k := Key(r.queue, id);
      if r.parent.Some? && r.parent.value !in jobs { return ParentMissing; }
      if r.custom.Some? && k in jobs {
        out := Relink(r, k);
        return;
      }
      if IsSuppressed(r) {
        out := Added(dedups[DedupKey(r.queue, r.dedup.value)].job);
        FoldAdd(r);
        return;
      }
      if Replaces(r) { out := ReplaceJob(r, k); } else { out := InsertJob(r, k); }
    }

    // -------------------------------------------------------------- flows

    method AddQueue(q: QueueId)
      modifies this
      ensures Snapshot() == EnsureQueue(old(Snapshot()), q)
    {
      if q !in queues { queues := queues[q := FRESH_QUEUE]; }
    }

    method LinkChildren(parent: Key, children: seq<Key>)
      modifies this
      ensures Snapshot() == LinkAll(old(Snapshot()), parent, children)
    {
      ghost var before := Snapshot();
      for i := 0 to |children|
        invariant Snapshot() == LinkAll(before, parent, children[..i])
      {
        assert children[..i + 1][..i] == children[..i];
        LinkChild(parent, children[i]);
      }
      assert children[..|children|] == children;
    }

    /** `FlowProducer.addNode`; `None` is an error, after which the transaction rolls back. */
    method AddFlowNode(n: Node, parent: Option<Key>) returns (id: Option<JobId>)
      modifies this
      ensures var b := AddNode(old(Snapshot()), n, parent);
        if b.Aborted? then id.None? else id == Some(b.id) && Snapshot() == b.db
      decreases n, 0
    {
      hide Add, EnsureQueue, LinkAll;
      AddQueue(n.queue);
      var out := AddJob(NodeRequest(n, parent));
      if !out.Added? { return None; }
      if n.children == [] || out.id != n.id { return Some(out.id); }
      var children := AddFlowChildren(n.children, KeyOf(n));
      if children.None? { return None; }
      LinkChildren(KeyOf(n), children.value);
      return Some(n.id);
    }

    /** `FlowProducer.addChildren`. */
    method AddFlowChildren(ns: seq<Node>, parent: Key) returns (ids: Option<seq<Key>>)
      modifies this
      ensures var b := AddChildren(old(Snapshot()), ns, parent);
        if b.AbortedAll? then ids.None? else ids == Some(b.ids) && Snapshot() == b.db
      decreases ns, 1
    {
      hide AddNode;
      if ns == [] { return Some([]); }
      var id := AddFlowNode(ns[0], Some(parent));
      if id.None? { return None; }
      var rest := AddFlowChildren(ns[1..], parent);
      if rest.None? { return None; }
      return Some([Key(ns[0].queue, id.value)] + rest.value);
    }

    /** `FlowProducer.add`: one transaction. */
    method AddTree(n: Node, parent: Option<Key>)
      modifies this
      ensures Snapshot() == AddFlow(old(Snapshot()), n, parent)
    {
      hide AddNode;
      var j, e, q, d, pk, ne := jobs, edges, queues, dedups, nextPk, nextEdge;
      var t := now;
      var id := AddFlowNode(n, parent);
      if id.None? {
        now, jobs, edges, queues, dedups, nextPk, nextEdge := t, j, e, q, d, pk, ne;
      }
    }

    // -------------------------------------------------------------- finishing

    method MoveEdges(child: Key, opts: JobOpts, ok: bool, none: bool)
      modifies this
      ensures Snapshot() == ResolveEdges(old(Snapshot()), child, opts, ok, none)
    {
      if ok {
        edges := map i | i in edges :: if EdgeOf(edges[i], child) then edges[i].(status := Processed) else edges[i];
      } else {
        edges := map i | i in edges && !(EdgeOf(edges[i], child) && DropsEdge(edges[i], opts, none)) ::
          if EdgeOf(edges[i], child) then FailedEdge(edges[i], opts) else edges[i];
      }
    }


    method CheckFinish(a: FinishArgs) returns (code: Code)
      ensures code == FinishCode(Snapshot(), a)
    {
      if a.key !in jobs { return if a.ok then Ok else Missing; }
      var j := jobs[a.key];
      if j.state == FinalState(a.ok) { return Ok; }
      if !(j.lockToken.Some? && j.lockExpires.Some? && j.lockExpires.value > now) { return LockMissing; }
      if j.lockToken != Some(a.token) { return LockMismatch; }
      if a.ok && HasStatus(a.key, Pending) { return PendingChildren; }
      if a.ok && HasStatus(a.key, Broken) { return FailedChildren; }
      return Ok;
    }

    /** `keepLastIfActive`: the stash of the ending job becomes a job. */
    method RequeueStash(k: Key)
      modifies this
      ensures Snapshot() == Requeue(old(Snapshot()), k)
    {
      hide Add;
      ghost var before := Snapshot();
      var stashes := set d | d in dedups && d.queue == k.queue && dedups[d].job == k.id
        && dedups[d].keepLast && dedups[d].pending.Some?;
      assert forall d :: d in stashes <==> IsStash(before, k, d);
      if stashes == {} {
        assert forall d :: !IsFirstStash(before, k, d);
        DropIds(set d | d in dedups && d.queue == k.queue && dedups[d].job == k.id && dedups[d].expires.None?);
        return;
      }
      ghost var least := LeastStash(stashes);
      var d :| d in stashes && forall x | x in stashes :: d.id <= x.id;
      assert IsFirstStash(before, k, d);
      FirstStashUnique(before, k, d);
      var p := dedups[d].pending.value;
      DropIds({d});
      var kind := if p.opts.delay > 0 then Later else if p.opts.priority > 0 then Prio else Standard;
      var out := AddJob(Request(kind, d.queue, None, p, now, None, Some(d.id)));
    }

    method ForceRow(p: Key)
      requires p in jobs
      modifies this
      ensures Snapshot() == ForceParent(old(Snapshot()), p)
    {
      var j := jobs[p].(deferred := true);
      if j.state == Parked { ToTail(p, j); }
      else if j.state == Delayed { ToTail(p, j.(delayMs := 0, processAt := None)); }
      else { jobs := jobs[p := j]; }
    }

    /** Marks the edges of the ended child and lets its parents react, in order of primary key. */
    method TellParents(a: FinishArgs, opts: JobOpts)
      modifies this
      ensures Snapshot() == NotifyParents(old(Snapshot()), a, opts)
    {
      hide ResolveEdges, ForceParent, SettleParent, Sorted;
      ghost var before := Snapshot();
      var listed := (set i | i in edges && EdgeOf(edges[i], a.key) :: edges[i].parent) * jobs.Keys;
      assert listed == ParentsOf(before, a.key) * before.jobs.Keys;
      var ps := OrderBy(ByPk, listed);
      MoveEdges(a.key, opts, a.ok, a.keep == Some(0));
      if !a.ok && opts.fpof { ForceAll(ps); }
      SettleAll(ps, !a.ok && opts.cpof);
    }

    method ForceAll(ps: seq<Key>)
      modifies this
      ensures Snapshot() == ForceParents(old(Snapshot()), ps)
    {
      hide ForceParent;
      ghost var before := Snapshot();
      for i := 0 to |ps|
        invariant Snapshot() == ForceParents(before, ps[..i])
      {
        assert ps[..i + 1][..i] == ps[..i];
        if ps[i] in jobs { ForceRow(ps[i]); }
      }
      assert ps[..|ps|] == ps;
    }

    method SettleAll(ps: seq<Key>, cpof: bool)
      modifies this
      ensures Snapshot() == SettleParents(old(Snapshot()), ps, cpof)
    {
      hide ReleaseParent, HasBlockingEdge;
      ghost var before := Snapshot();
      for i := 0 to |ps|
        invariant Snapshot() == SettleParents(before, ps[..i], cpof)
      {
        assert ps[..i + 1][..i] == ps[..i];
        if ps[i] in jobs && jobs[ps[i]].state == Parked && (cpof || !Blocked(ps[i])) { ReleaseRow(ps[i]); }
      }
      assert ps[..|ps|] == ps;
    }

    /** `row_number() over (order by finished_on desc nulls last, pk desc)`. */
    method TrimRows(a: FinishArgs)
      modifies this
      ensures Snapshot() == Trim(old(Snapshot()), a)
    {
      hide DeleteJobs;
      if a.keep == Some(0) {
        DeleteRows({a.key});
      } else if a.keep.Some? || (a.age.Some? && a.age.value > 0) {
        var st := FinalState(a.ok);
        var rows := set k | k in jobs && k.queue == a.key.queue && jobs[k].state == st;
        var doomed := set k | k in rows
          && ((a.keep.Some? && |set x | x in rows && Before(ByNewestFinish, jobs, x, k)| + 1 > a.keep.value)
            || TooOld(jobs[k], a.age, now));
        assert rows == EndedRows(Snapshot(), a.key.queue, st);
        assert doomed == Doomed(Snapshot(), a.key.queue, st, a.keep, a.age);
        DeleteRows(doomed);
      }
    }

    /** `emq_move_to_finished_v1` without the fetch. */
    method MoveToFinished(a: FinishArgs) returns (code: Code)
      modifies this
      ensures (Snapshot(), code) == Finish(old(Snapshot()), a)
    {
      hide FinishCode, Requeue, NotifyParents, Trim;
      code := CheckFinish(a);
      if code != Ok || a.key !in jobs || jobs[a.key].state == FinalState(a.ok) { return; }
      var j := jobs[a.key];
      if j.state == Active { jobs := jobs[a.key := EndedRow(j, a.ok, now)]; }
      RequeueStash(a.key);
      TellParents(a, j.payload.opts);
      TrimRows(a);
    }

    /** The same with `p_fetch_next`: the next claim is made in the same step. */
    method MoveToFinishedAndFetch(a: FinishArgs, q: QueueId, lockMs: int, limiter: Option<Limiter>)
      returns (code: Code, next: Option<Key>)
      modifies this
      ensures code == Finish(old(Snapshot()), a).1
      ensures next.Some? ==>
        Snapshot() == Claim(Finish(old(Snapshot()), a).0, ClaimArgs(q, a.token, lockMs, limiter, next.value))
      ensures next.Some? ==> Takes(Finish(old(Snapshot()), a).0, ClaimArgs(q, a.token, lockMs, limiter, next.value))
      ensures next.None? && !Finishes(old(Snapshot()), a) ==> Snapshot() == old(Snapshot())
      ensures next.None? && Finishes(old(Snapshot()), a) ==>
        forall k :: Snapshot() == Claim(Finish(old(Snapshot()), a).0, ClaimArgs(q, a.token, lockMs, limiter, k))
    {
      hide Takes, Claim, DoFinish, FinishCode;
      var repeated := a.key !in jobs || jobs[a.key].state == FinalState(a.ok);
      code := MoveToFinished(a);
      next := None;
      if code == Ok && !repeated { next := MoveToActive(q, a.token, lockMs, limiter); }
    }

    // -------------------------------------------------------------- giving a claim back

    function Holds(k: Key, token: Token): (b: bool)
      reads this
      ensures b == HeldBy(Snapshot(), k, token)
    {
      k in jobs && jobs[k].state == Active && jobs[k].lockToken == Some(token)
    }

    /** `coalesce(min(prio_seq), 1) - 1` over the peers of a priority. */
    method HeadOfPriority(q: QueueId, priority: int, except: Key) returns (n: int)
      ensures n == PrioHead(Snapshot(), q, priority, except)
    {
      var seqs := set k | k in jobs && k.queue == q && jobs[k].state == Prioritized && k != except
        && jobs[k].priority == priority && jobs[k].prioSeq.Some? :: jobs[k].prioSeq.value;
      assert seqs == PrioSeqs(Snapshot(), q, priority, except);
      var m := MinOf(seqs);
      n := if m.Some? then m.value - 1 else 0;
    }

    /** The lowest `wait_seq` of one list, or of both. */
    method LowestWaitSeq(q: QueueId, states: set<JobState>, except: Option<Key>) returns (m: Option<int>)
      ensures m == Least(WaitSeqs(Snapshot(), q, states, except))
    {
      var seqs := set k | k in jobs && k.queue == q && jobs[k].state in states
        && Some(k) != except && jobs[k].waitSeq.Some? :: jobs[k].waitSeq.value;
      assert seqs == WaitSeqs(Snapshot(), q, states, except);
      m := MinOf(seqs);
    }

    method RetryJobRow(k: Key, lifo: bool)
      modifies this
      ensures Snapshot() == RetryRow(old(Snapshot()), k, lifo)
    {
      hide PrioHead, Least, WaitSeqs;
      if k !in jobs { return; }
      var j := jobs[k].(attemptsMade := jobs[k].attemptsMade + 1, lockToken := None, lockExpires := None);
      if j.priority > 0 {
        if lifo {
          var n := HeadOfPriority(k.queue, j.priority, k);
          jobs := jobs[k := j.(state := Prioritized, prioSeq := Some(n), waitSeq := None)];
        } else {
          ToPriority(k, j.(waitSeq := None), Prioritized);
        }
      } else if lifo {
        var m := LowestWaitSeq(k.queue, {Wait}, None);
        jobs := jobs[k := j.(state := Route(QueueRow(k.queue)),
          waitSeq := Some(if m.Some? then m.value - 1 else 0), prioSeq := None)];
      } else {
        ToTail(k, j.(prioSeq := None));
      }
    }

    /** `emq_retry_job_v1`. */
    method RetryJob(k: Key, token: Token, lifo: bool) returns (code: Code)
      modifies this
      ensures (Snapshot(), code) == Retry(old(Snapshot()), k, token, lifo)
    {
      hide RetryRow, PromoteDue;
      if !Holds(k, token) { return if k in jobs then NotActive else Missing; }
      PromoteDueRows(k.queue);
      RetryJobRow(k, lifo);
      return Ok;
    }

    /** `emq_move_to_delayed_v1` without the fetch. */
    method MoveToDelayed(k: Key, token: Token, processAt: Millis, delayMs: int, failed: bool) returns (code: Code)
      modifies this
      ensures (Snapshot(), code) == Delay(old(Snapshot()), k, token, processAt, delayMs, failed)
    {
      if k !in jobs { return Missing; }
      var j := jobs[k];
      if j.state != Active { return NotActive; }
      if !(j.lockToken.Some? && j.lockExpires.Some? && j.lockExpires.value > now) { return LockMissing; }
      if j.lockToken != Some(token) { return LockMismatch; }
      jobs := jobs[k := j.(state := Delayed, processAt := Some(processAt),
                           delayMs := if delayMs > 0 then delayMs else 0,
                           lockToken := None, lockExpires := None,
                           attemptsMade := if failed then j.attemptsMade + 1 else j.attemptsMade)];
      return Ok;
    }

    /** The same with `p_fetch_next`. */
    method MoveToDelayedAndFetch(k: Key, token: Token, processAt: Millis,
      delayMs: int, failed: bool, lockMs: int, limiter: Option<Limiter>)
      returns (code: Code, next: Option<Key>)
      modifies this
      ensures code == Delay(old(Snapshot()), k, token, processAt, delayMs, failed).1
      ensures next.Some? ==> code == Ok
      ensures next.Some? ==>
        var db := Delay(old(Snapshot()), k, token, processAt, delayMs, failed).0;
        var a := ClaimArgs(k.queue, token, lockMs, limiter, next.value);
        Takes(db, a) && Snapshot() == Claim(db, a)
      ensures next.None? && code != Ok ==> Snapshot() == old(Snapshot())
      ensures next.None? && code == Ok ==>
        var db := Delay(old(Snapshot()), k, token, processAt, delayMs, failed).0;
        forall x :: Snapshot() == Claim(db, ClaimArgs(k.queue, token, lockMs, limiter, x))
    {
      hide Takes, Claim;
      code := MoveToDelayed(k, token, processAt, delayMs, failed);
      next := None;
      if code == Ok { next := MoveToActive(k.queue, token, lockMs, limiter); }
    }

    function HasPending(p: Key, child: Option<Key>): (b: bool)
      reads this
      ensures b == HasPendingChild(Snapshot(), p, child)
    {
      if child.Some? then
        child.value in jobs
        && exists i :: i in edges && edges[i].parent == p && EdgeOf(edges[i], child.value) && edges[i].status == Pending
      else HasStatus(p, Pending)
    }

    /** `emq_move_to_waiting_children_v1`. */
    method MoveToWaitingChildren(k: Key, token: Token, child: Option<Key>) returns (code: Code)
      modifies this
      ensures (Snapshot(), code) == ToChildren(old(Snapshot()), k, token, child)
    {
      if k !in jobs { return Missing; }
      if HasStatus(k, Broken) { return FailedChildren; }
      if !HasPending(k, child) { return NotMoved; }
      var j := jobs[k];
      if j.lockToken.None? { return LockMissing; }
      if j.lockToken != Some(token) { return LockMismatch; }
      if j.state != Active { return NotActive; }
      jobs := jobs[k := j.(state := Parked, lockToken := None, lockExpires := None)];
      return Ok;
    }

    method ToHead(k: Key, j: Job, state: JobState)
      modifies this
      ensures Snapshot() == HeadOfList(old(Snapshot()), k, j, state)
    {
      var m := LowestWaitSeq(k.queue, {state}, None);
      if m.Some? {
        jobs := jobs[k := j.(state := state, waitSeq := Some(m.value - 1))];
      } else {
        var n := NextWaitSeq(k.queue);
        jobs := jobs[k := j.(state := state, waitSeq := Some(n))];
      }
    }

    /** `emq_move_job_from_active_to_wait_v1`. */
    method MoveBack(k: Key, token: Token) returns (code: Code)
      modifies this
      ensures (Snapshot(), code) == Release(old(Snapshot()), k, token)
    {
      hide HeadOfList, PrioHead;
      if !Holds(k, token) { return Missing; }
      var j := Unlocked(jobs[k]);
      if QueueRow(k.queue).paused {
        ToHead(k, j, Paused);
      } else if j.priority > 0 {
        var n := HeadOfPriority(k.queue, j.priority, k);
        jobs := jobs[k := j.(state := Prioritized, prioSeq := Some(n), waitSeq := None)];
      } else {
        ToHead(k, j, Wait);
      }
      return Ok;
    }

    // -------------------------------------------------------------- leases

    function StalledRows(q: QueueId): (s: set<Key>)
      reads this
      ensures s == Stalled(Snapshot(), q)
    {
      set k | k in jobs && k.queue == q && jobs[k].state == Active
        && jobs[k].lockExpires.Some? && jobs[k].lockExpires.value < now
    }

    /** `emq_move_stalled_jobs_to_wait_v1`: the rows that stalled too often fail, the others go
        back to the tail of their list, newest row first. */
    method SweepStalled(q: QueueId, maxStalled: int)
      modifies this
      ensures Snapshot() == Sweep(old(Snapshot()), q, maxStalled)
      ensures forall k | k in old(jobs) :: SweptAs(old(Snapshot()), Snapshot(), q, maxStalled, k)
    {
      ghost var before := Snapshot();
      TakeStalled(q, maxStalled);
      hide Sweep, SweptAs;
      forall k | k in before.jobs ensures SweptAs(before, Snapshot(), q, maxStalled, k) {
        SweepsExactly(before, q, maxStalled, k);
      }
    }

    method TakeStalled(q: QueueId, maxStalled: int)
      modifies this
      ensures Snapshot() == Sweep(old(Snapshot()), q, maxStalled)
    {
      hide Before, Stalled;
      ghost var before := Snapshot();
      var stalled := StalledRows(q);
      var back := set k | k in stalled && !StalledTooOften(jobs[k], maxStalled);
      assert back == Requeued(before, q, maxStalled);
      var row := QueueRow(q);
      UpdateSwept(row, stalled, back, q, maxStalled);
      if back != {} { queues := queues[q := row.(waitNum := row.waitNum + |back|)]; }
    }

    method UpdateSwept(row: Queue, stalled: set<Key>, back: set<Key>, q: QueueId, maxStalled: int)
      requires stalled == Stalled(Snapshot(), q) && back == Requeued(Snapshot(), q, maxStalled) && row == QueueRow(q)
      modifies this`jobs
      ensures jobs == Sweep(old(Snapshot()), q, maxStalled).jobs
    {
      ghost var before := Snapshot();
      var was := jobs;
      jobs := map k | k in was ::
        if k !in stalled then was[k]
        else if k !in back then StalledRow(was[k]).(state := Failed, finishedOn := Some(now), delayMs := 0)
        else StalledRow(was[k]).(state := Route(row),
          waitSeq := Some(row.waitNum + |set x | x in back && Before(ByNewestPk, was, x, k)| + 1));
      hide Sweep, Stalled, Requeued, Before;
      forall k | k in before.jobs ensures jobs[k] == SweptTo(before, q, maxStalled, k) {
        if k in back {
          assert (set x | x in back && Before(ByNewestPk, was, x, k))
            == (set x | x in back && Before(ByNewestPk, before.jobs, x, k));
        }
      }
      SweepRows(before, q, maxStalled, jobs);
    }

    /** `emq_extend_lock_v1`. */
    method ExtendLock(k: Key, token: Token, durationMs: int) returns (code: Code)
      modifies this
      ensures (Snapshot(), code) == Extend(old(Snapshot()), k, token, durationMs)
    {
      if !Holds(k, token) || jobs[k].lockExpires.None? || jobs[k].lockExpires.value <= now { return LockMissing; }
      jobs := jobs[k := jobs[k].(lockExpires := Some(now + durationMs))];
      return Ok;
    }

    predicate IsRenewed(q: QueueId, leases: seq<Lease>, k: Key)
      reads this
    {
      k in jobs && k.queue == q && jobs[k].state == Active && jobs[k].lockToken.Some?
      && jobs[k].lockExpires.Some? && Lease(k.id, jobs[k].lockToken.value) in leases
    }

    /** `emq_extend_locks_v1`, with the ids it reports as not renewed. */
    method ExtendLocks(q: QueueId, leases: seq<Lease>, durationMs: int) returns (failed: set<JobId>)
      modifies this
      ensures Snapshot() == ExtendMany(old(Snapshot()), q, leases, durationMs)
      ensures failed == NotRenewed(old(Snapshot()), q, leases)
    {
      failed := set l | l in leases && !IsRenewed(q, leases, Key(q, l.id)) :: l.id;
      jobs := map k | k in jobs ::
        if IsRenewed(q, leases, k) then jobs[k].(lockExpires := Some(now + durationMs)) else jobs[k];
    }

    // -------------------------------------------------------------- managing

    /** `emq_pause_v1`. */
    method PauseQueue(q: QueueId, paused: bool)
      modifies this
      ensures Snapshot() == Pause(old(Snapshot()), q, paused)
    {
      if q !in queues { return; }
      queues := queues[q := queues[q].(paused := paused)];
      jobs := map k | k in jobs ::
        if k.queue == q && paused && jobs[k].state == Wait then jobs[k].(state := Paused)
        else if k.queue == q && !paused && jobs[k].state == Paused then jobs[k].(state := Wait)
        else jobs[k];
    }

    /** `emq_promote_v1`. */
    method PromoteJob(k: Key) returns (code: Code)
      modifies this
      ensures (Snapshot(), code) == Promote(old(Snapshot()), k)
    {
      hide Enqueue, Prioritize;
      if k !in jobs { return Missing; }
      if jobs[k].state != Delayed { return NotActive; }
      var j := jobs[k].(processAt := None);
      if j.priority > 0 { ToPriority(k, j, if QueueRow(k.queue).paused then Paused else Prioritized); }
      else { ToTail(k, j); }
      return Ok;
    }

    /** `emq_change_priority_v1`. */
    method SetPriority(k: Key, priority: int, lifo: bool) returns (code: Code)
      modifies this
      ensures (Snapshot(), code) == ChangePriority(old(Snapshot()), k, priority, lifo)
    {
      hide Enqueue, Prioritize, PrioHead, Least, WaitSeqs;
      if k !in jobs { return Missing; }
      var j := jobs[k];
      if !Queued(j) && j.state != Prioritized {
        jobs := jobs[k := j.(priority := priority)];
      } else if priority > 0 {
        var j1 := j.(priority := priority, waitSeq := None);
        if lifo {
          var n := HeadOfPriority(k.queue, priority, k);
          jobs := jobs[k := j1.(state := Prioritized, prioSeq := Some(n))];
        } else {
          ToPriority(k, j1, Prioritized);
        }
      } else {
        var j1 := j.(priority := 0, prioSeq := None);
        var m := LowestWaitSeq(k.queue, {Wait, Paused}, Some(k));
        if lifo && m.Some? {
          jobs := jobs[k := j1.(state := Route(QueueRow(k.queue)), waitSeq := Some(m.value - 1))];
        } else {
          ToTail(k, j1);
        }
      }
      return Ok;
    }

    /** `emq_reprocess_job_v1`. */
    method ReprocessJob(k: Key, resetMade: bool, resetStarted: bool, target: Option<bool>) returns (code: Code)
      modifies this
      ensures (Snapshot(), code) == Reprocess(old(Snapshot()), k, resetMade, resetStarted, target)
    {
      if k !in jobs { return Missing; }
      var j := jobs[k];
      if !Finished(j) || (target.Some? && j.state != FinalState(target.value)) || j.lockToken.Some? {
        return NotActive;
      }
      ToTail(k, j.(lockToken := None, lockExpires := None, attemptsMade := if resetMade then 0 else j.attemptsMade,
                   attemptsStarted := if resetStarted then 0 else j.attemptsStarted, finishedOn := None));
      edges := map i | i in edges :: if EdgeOf(edges[i], k) then edges[i].(status := Pending) else edges[i];
      return Ok;
    }

    /** `emq_remove_child_dependency_v1`. */
    method RemoveChildDependency(child: Key, parent: Key) returns (code: CutCode)
      modifies this
      ensures (Snapshot(), code) == CutEdge(old(Snapshot()), child, parent)
    {
      hide Enqueue;
      if child !in jobs { return ChildMissing; }
      if parent !in jobs { return NoParent; }
      if !IsLinked(parent, child) { return NotRelated; }
      edges := map i | i in edges && !(edges[i].parent == parent && EdgeOf(edges[i], child)) :: edges[i];
      if !HasStatus(parent, Pending) && jobs[parent].state == Parked { ToTail(parent, jobs[parent]); }
      return CutOk;
    }

    // -------------------------------------------------------------- batches

    method SelectMovable(q: QueueId, from: JobState, upTo: Millis) returns (s: set<Key>)
      ensures s == Movable(Snapshot(), q, from, upTo)
    {
      s := set k | k in jobs && k.queue == q && jobs[k].state == from
        && (if from == Delayed then jobs[k].processAt.Some? && jobs[k].processAt.value <= upTo
            else (if jobs[k].finishedOn.Some? then jobs[k].finishedOn.value else 0) <= upTo);
    }

    method MoveRow(k: Key, from: JobState)
      requires k in jobs
      modifies this
      ensures Snapshot() == MoveOne(old(Snapshot()), k, from)
    {
      var j := jobs[k].(processAt := None, delayMs := 0, finishedOn := None);
      if from == Delayed && j.priority > 0 {
        ToPriority(k, j, if QueueRow(k.queue).paused then Paused else Prioritized);
      } else {
        ToTail(k, j.(prioSeq := None));
      }
    }

    method MoveRows(rows: seq<Key>, st: JobState) returns (moved: nat)
      modifies this
      ensures Snapshot() == MoveSeq(old(Snapshot()), rows, st) && moved == |rows|
    {
      hide MoveOne;
      ghost var before := Snapshot();
      moved := 0;
      while moved < |rows|
        invariant moved <= |rows| && Snapshot() == MoveSeq(before, rows[..moved], st)
      {
        assert rows[..moved + 1][..moved] == rows[..moved];
        if rows[moved] in jobs { MoveRow(rows[moved], st); }
        moved := moved + 1;
      }
      assert rows[..|rows|] == rows;
    }

    /** `emq_move_jobs_to_wait_v1`: one batch, and whether the caller should come back. */
    method MoveJobsToWait(q: QueueId, state: JobState, count: nat, upTo: Millis) returns (more: bool)
      modifies this
      ensures Snapshot() == MoveBatch(old(Snapshot()), q, state, count, upTo)
      ensures more == MoreToMove(old(Snapshot()), q, state, count, upTo)
    {
      hide MoveSeq, Movable, Sorted;
      var st := if state == Completed || state == Delayed then state else Failed;
      var matching := SelectMovable(q, st, upTo);
      var all := OrderBy(BatchOrder(st), matching);
      var moved := MoveRows(if |all| <= count then all else all[..count], st);
      var rest := SelectMovable(q, st, upTo);
      more := 0 < count <= moved && rest != {};
    }

    /** `Queue.retryJobs` and `Queue.promoteJobs`: batches until none reports more. The outcome is
        that of a single batch of everything. */
    method MoveEverything(q: QueueId, state: JobState, count: nat, upTo: Millis)
      requires count >= 1
      modifies this
      ensures Snapshot() == MoveAll(old(Snapshot()), q, state, upTo)
      ensures Movable(Snapshot(), q, SourceState(state), upTo) == {}
    {
      hide MoveBatch, MoreToMove, Movable, MoveAll;
      ghost var before := Snapshot();
      BatchesAgree(before, q, state, count, upTo);
      ghost var start := before;
      BatchShrinks(start, q, state, count, upTo);
      var more := MoveJobsToWait(q, state, count, upTo);
      while more
        invariant Snapshot() == MoveBatch(start, q, state, count, upTo)
        invariant more == MoreToMove(start, q, state, count, upTo)
        invariant MoveLoop(start, q, state, count, upTo) == MoveLoop(before, q, state, count, upTo)
        decreases |Movable(start, q, SourceState(state), upTo)|
      {
        BatchShrinks(start, q, state, count, upTo);
        start := Snapshot();
        more := MoveJobsToWait(q, state, count, upTo);
      }
    }

    // -------------------------------------------------------------- runs

    function MayPick(q: QueueId, k: Key): (b: bool)
      reads this
      ensures b == Picks(Snapshot(), q, k)
    {
      k in jobs && k.queue == q && Claimable(jobs[k])
      && forall x | x in jobs && x.queue == q && Claimable(jobs[x]) :: !ClaimsBefore(jobs[x], jobs[k])
    }

    /** A claim whose pick is given from outside; one the state does not allow takes nothing. */
    method ClaimGiven(a: ClaimArgs)
      modifies this
      ensures Snapshot() == Claim(old(Snapshot()), a)
    {
      hide GatesOpen, Prepared, Picks, Activate;
      if a.queue !in queues { return; }
      PrepareClaim(a.queue);
      var open := GatesAreOpen(a.queue, a.limiter);
      if open && MayPick(a.queue, a.pick) {
        assert a.pick in jobs by { PickedExists(Snapshot(), a.queue, a.pick); }
        LeaseRow(a);
      }
    }

    /** The calls a worker makes for a job it holds, and the sweep. */
    method ApplyLease(op: Op)
      requires op.OpClaim? || op.OpFinish? || op.OpRetry? || op.OpDelay?
        || op.OpToChildren? || op.OpRelease? || op.OpSweep?
        || op.OpExtend? || op.OpExtendMany?
      modifies this
      ensures Snapshot() == Step(old(Snapshot()), op)
    {
      hide Claim, Finish, Retry, Delay, ToChildren, Release, Sweep, Extend, ExtendMany;
      match op {
        case OpClaim(a) => ClaimGiven(a);
        case OpFinish(a) => var code := MoveToFinished(a);
        case OpRetry(k, t, lifo) => var code := RetryJob(k, t, lifo);
        case OpDelay(k, t, at, ms, failed) => var code := MoveToDelayed(k, t, at, ms, failed);
        case OpToChildren(k, t, c) => var code := MoveToWaitingChildren(k, t, c);
        case OpRelease(k, t) => var code := MoveBack(k, t);
        case OpSweep(q, m) => SweepStalled(q, m);
        case OpExtend(k, t, ms) => var code := ExtendLock(k, t, ms);
        case OpExtendMany(q, ls, ms) => var failed := ExtendLocks(q, ls, ms);
      }
    }

    /** One call on the database. */
    method Apply(op: Op)
      modifies this
      ensures Snapshot() == Step(old(Snapshot()), op)
    {
      hide EnsureQueue, Add, AddFlow, Pause, Promote, ChangePriority, Reprocess, CutEdge, MoveBatch;
      match op {
        case OpTick(ms) => now := now + ms;
        case OpQueue(q) => AddQueue(q);
        case OpAdd(r) => var out := AddJob(r);
        case OpFlow(n, parent) => AddTree(n, parent);
        case OpPause(q, p) => PauseQueue(q, p);
        case OpPromote(k) => var code := PromoteJob(k);
        case OpChangePriority(k, p, h) => var code := SetPriority(k, p, h);
        case OpReprocess(k, m, s, t) => var code := ReprocessJob(k, m, s, t);
        case OpCutEdge(c, p) => var code := RemoveChildDependency(c, p);
        case OpMoveBatch(q, f, n, t) => var more := MoveJobsToWait(q, f, n, t);
        case _ =>
          hide Step;
          ApplyLease(op);
      }
    }

    /** Any sequence of calls: what is proved of runs holds of the store. */
    method ApplyAll(ops: seq<Op>)
      modifies this
      ensures Snapshot() == Run(old(Snapshot()), ops)
    {
      hide Step;
      ghost var before := Snapshot();
      for i := 0 to |ops|
        invariant Snapshot() == Run(before, ops[..i])
      {
        assert ops[..i + 1][..i] == ops[..i];
        Apply(ops[i]);
      }
      assert ops[..|ops|] == ops;
    }
  }
}

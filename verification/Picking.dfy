/** Taking a job, said in columns: which rows come due and in what order, when the gates are
    open, which row comes first, and what the claim writes. */
module Picking {
  import opened Rows
  import opened Ordering
  import opened Tables
  import opened Claiming
  import opened Frames
  import opened Routing
  import opened Turns

  // ---------------------------------------------------------------- coming due

  /** Delayed, and its time has come. */
  ghost predicate Ripe(db: Db, q: QueueId, k: Key) {
    k in db.jobs && k.queue == q && db.jobs[k].state == Delayed
    && db.jobs[k].processAt.Some? && db.jobs[k].processAt.value <= db.now
  }

  /** Due earlier; of rows due together the one of lower priority number, then the older row. */
  predicate Sooner(x: Job, y: Job)
    requires x.processAt.Some? && y.processAt.Some?
  {
    if x.processAt.value != y.processAt.value then x.processAt.value < y.processAt.value
    else if x.priority != y.priority then x.priority < y.priority
    else x.pk < y.pk
  }

  /** A delayed row that has been promoted between `q` and `q'`. */
  predicate PromotedAs(q: Queue, q': Queue, j: Job, j': Job) {
    if j.priority > 0 then
      && j'.prioSeq.Some? && q.prioNum < j'.prioSeq.value <= q'.prioNum
      && j' == j.(state := if q.paused then Paused else Prioritized, prioSeq := j'.prioSeq, delayMs := 0)
    else
      && j'.waitSeq.Some? && q.waitNum < j'.waitSeq.value <= q'.waitNum
      && j' == j.(state := if q.paused then Paused else Wait, waitSeq := j'.waitSeq, delayMs := 0)
  }

  /** Of two promoted rows that take the same kind of sequence the first takes the lower one. */
  predicate InTurn(x: Job, y: Job) {
    && (x.priority <= 0 && y.priority <= 0 ==>
          x.waitSeq.Some? && y.waitSeq.Some? && x.waitSeq.value < y.waitSeq.value)
    && (x.priority > 0 && y.priority > 0 ==>
          x.prioSeq.Some? && y.prioSeq.Some? && x.prioSeq.value < y.prioSeq.value)
  }

  ghost predicate AllPromotedAs(db: Db, db': Db, q: QueueId, ks: seq<Key>) {
    forall i | 0 <= i < |ks| ::
      ks[i] in db.jobs && ks[i] in db'.jobs
      && PromotedAs(QueueOf(db, q), QueueOf(db', q), db.jobs[ks[i]], db'.jobs[ks[i]])
  }

  ghost predicate AllInTurn(db': Db, ks: seq<Key>) {
    forall i, j | 0 <= i < j < |ks| ::
      ks[i] in db'.jobs && ks[j] in db'.jobs && InTurn(db'.jobs[ks[i]], db'.jobs[ks[j]])
  }

  /** Rows outside `ks` and every number but the two sequences of the queue stay. */
  ghost predicate PromotesOnly(db: Db, db': Db, q: QueueId, ks: seq<Key>) {
    && db' == db.(jobs := db'.jobs, queues := db'.queues) && db'.jobs.Keys == db.jobs.Keys
    && (forall k | k in db.jobs && k !in ks :: db'.jobs[k] == db.jobs[k])
    && (forall o | o != q :: QueueOf(db', o) == QueueOf(db, o))
    && SequencesGrow(QueueOf(db, q), QueueOf(db', q))
  }

  predicate SequencesGrow(q: Queue, q': Queue) {
    q' == q.(waitNum := q'.waitNum, prioNum := q'.prioNum) && q'.waitNum >= q.waitNum && q'.prioNum >= q.prioNum
  }

  /** One row more is promoted, the others stay as they are. */
  ghost predicate AddsOne(db1: Db, db': Db, q: QueueId, k: Key) {
    && k in db1.jobs && db' == db1.(jobs := db'.jobs, queues := db'.queues)
    && k in db'.jobs && db'.jobs == db1.jobs[k := db'.jobs[k]]
    && (forall o | o != q :: QueueOf(db', o) == QueueOf(db1, o))
    && SequencesGrow(QueueOf(db1, q), QueueOf(db', q))
    && PromotedAs(QueueOf(db1, q), QueueOf(db', q), db1.jobs[k], db'.jobs[k])
  }

  lemma PromoteOneAdds(db: Db, q: QueueId, k: Key)
    requires k in db.jobs && k.queue == q
    ensures AddsOne(db, PromoteOne(db, k), q, k)
  {}

  lemma OneMore(db: Db, db1: Db, db': Db, q: QueueId, front: seq<Key>, k: Key)
    requires PromotesOnly(db, db1, q, front) && AllPromotedAs(db, db1, q, front) && AllInTurn(db1, front)
    requires k in db.jobs && k !in front && AddsOne(db1, db', q, k)
    ensures var ks := front + [k];
      PromotesOnly(db, db', q, ks) && AllPromotedAs(db, db', q, ks) && AllInTurn(db', ks)
  {
    hide QueueOf;
    var ks := front + [k];
    assert db1.jobs[k] == db.jobs[k];
    forall i | 0 <= i < |front| ensures ks[i] == front[i] && front[i] in front && front[i] != k {}
    assert AllPromotedAs(db, db', q, ks) by { hide AllInTurn; }
    assert AllInTurn(db', ks) by {
      forall i, j | 0 <= i < j < |ks| ensures InTurn(db'.jobs[ks[i]], db'.jobs[ks[j]]) {
        BehindFront(db, db1, db', q, front, i, k);
      }
    }
  }

  lemma BehindFront(db: Db, db1: Db, db': Db, q: QueueId, front: seq<Key>, i: nat, k: Key)
    requires AllPromotedAs(db, db1, q, front) && AddsOne(db1, db', q, k) && i < |front| && front[i] != k
    ensures front[i] in db'.jobs && InTurn(db'.jobs[front[i]], db'.jobs[k])
  {
    hide QueueOf;
    assert PromotedAs(QueueOf(db, q), QueueOf(db1, q), db.jobs[front[i]], db1.jobs[front[i]]);
  }

  lemma {:induction false} PromoteSeqColumns(db: Db, q: QueueId, ks: seq<Key>)
    requires AllDelayed(db, ks) && forall i | 0 <= i < |ks| :: ks[i].queue == q
    ensures var db' := PromoteSeq(db, ks);
      PromotesOnly(db, db', q, ks) && AllPromotedAs(db, db', q, ks) && AllInTurn(db', ks)
  {
    if ks == [] {
      assert PromoteSeq(db, ks) == db;
    } else {
      hide PromoteOne, PromoteSeq, AllDelayed, PromotesOnly, AllPromotedAs, AllInTurn, AddsOne;
      var front, k := ks[..|ks| - 1], ks[|ks| - 1];
      assert ks == front + [k];
      AllDelayedSnoc(db, front, k);
      PromoteSeqColumns(db, q, front);
      PromoteSeqSnoc(db, front, k);
      SameKeys(db, PromoteSeq(db, front), q, front);
      PromoteOneAdds(PromoteSeq(db, front), q, k);
      OneMore(db, PromoteSeq(db, front), PromoteSeq(db, ks), q, front, k);
    }
  }

  lemma SameKeys(db: Db, db': Db, q: QueueId, ks: seq<Key>)
    requires PromotesOnly(db, db', q, ks)
    ensures db'.jobs.Keys == db.jobs.Keys
  {}

  lemma SoonerFirst(db: Db, q: QueueId, x: Key, y: Key) returns (i: nat, j: nat)
    requires Ripe(db, q, x) && Ripe(db, q, y) && Sooner(db.jobs[x], db.jobs[y])
    ensures var ks := Sorted(ByDue, db.jobs, Due(db, q));
      i < j < |ks| && ks[i] == x && ks[j] == y
  {
    var ks := Sorted(ByDue, db.jobs, Due(db, q));
    SortedInOrder(ByDue, db.jobs, Due(db, q));
    assert x in ks && y in ks;
    i :| 0 <= i < |ks| && ks[i] == x;
    j :| 0 <= j < |ks| && ks[j] == y;
    if j <= i { BeforeIsStrictTotal(ByDue, db.jobs, x, y, x); }
  }

  /** Promotion moves exactly the rows whose time has come, each to the list its priority and the
      pause flag say, forgetting its delay; of two rows the one due sooner gets the lower number. */
  lemma PromotesInDueOrder(db: Db, q: QueueId, x: Key, y: Key)
    requires x in db.jobs && y in db.jobs
    ensures var db' := PromoteDue(db, q);
      && db' == db.(jobs := db'.jobs, queues := db'.queues) && db'.jobs.Keys == db.jobs.Keys
      && SequencesGrow(QueueOf(db, q), QueueOf(db', q))
      && (forall o | o != q :: QueueOf(db', o) == QueueOf(db, o))
      && (if Ripe(db, q, x) then PromotedAs(QueueOf(db, q), QueueOf(db', q), db.jobs[x], db'.jobs[x])
          else db'.jobs[x] == db.jobs[x])
      && (Ripe(db, q, x) && Ripe(db, q, y) && Sooner(db.jobs[x], db.jobs[y]) ==> InTurn(db'.jobs[x], db'.jobs[y]))
  {
    hide PromoteSeq, PromotedAs, InTurn, Sooner, QueueOf, SequencesGrow;
    var ks := Sorted(ByDue, db.jobs, Due(db, q));
    DueListed(db, q);
    PromoteSeqColumns(db, q, ks);
    assert x in ks <==> Ripe(db, q, x);
    if Ripe(db, q, x) && Ripe(db, q, y) && Sooner(db.jobs[x], db.jobs[y]) {
      var i, j := SoonerFirst(db, q, x, y);
    }
  }

  // ---------------------------------------------------------------- the gates

  /** The queue runs, fewer leases are live than its concurrency, and the limiter, the worker's or
      else the queue's, has no used-up window that is still open. */
  ghost predicate MayClaim(db: Db, q: QueueId, limiter: Option<Limiter>) {
    && q in db.queues && !db.queues[q].paused
    && (db.queues[q].concurrency.Some? ==>
          |set k | k in db.jobs && k.queue == q && db.jobs[k].state == Active
             && db.jobs[k].lockExpires.Some? && db.jobs[k].lockExpires.value > db.now| < db.queues[q].concurrency.value)
    && WindowOpen(db.queues[q].window, if limiter.Some? then limiter else db.queues[q].limiter, db.now)
  }

  predicate WindowOpen(w: Option<Window>, limiter: Option<Limiter>, now: Millis) {
    || limiter.None? || w.None? || w.value.expires.None?
    || w.value.expires.value <= now || w.value.tokens < limiter.value.max
  }

  lemma PreparedQueue(db: Db, q: QueueId)
    requires q in db.queues
    ensures var db' := Prepared(db, q); var row := db.queues[q];
      && q in db'.queues && db'.now == db.now && db'.queues[q].paused == row.paused
      && db'.queues[q].concurrency == row.concurrency && db'.queues[q].limiter == row.limiter
      && db'.queues[q].window == LiveWindow(row.window, db.now)
  {
    hide Calm, PromoteDue;
    PromoteDueCalm(DropExpiredWindow(db, q), q);
    CalmQueue(DropExpiredWindow(db, q), Prepared(db, q), q);
  }

  lemma PreparedLeases(db: Db, q: QueueId)
    ensures LiveLeases(Prepared(db, q), q) == LiveLeases(db, q)
  {
    hide Calm, PromoteDue;
    var db0 := DropExpiredWindow(db, q);
    PromoteDueCalm(db0, q);
    forall k | k in db.jobs
      ensures Prepared(db, q).jobs[k].state == Active <==> db.jobs[k].state == Active
      ensures Prepared(db, q).jobs[k].lockExpires == db.jobs[k].lockExpires
    {
      assert CalmRow(db0.jobs[k], Prepared(db, q).jobs[k]);
    }
  }

  lemma GatesExactly(db: Db, a: ClaimArgs)
    requires a.queue in db.queues
    ensures GatesOpen(Prepared(db, a.queue), a) <==> MayClaim(db, a.queue, a.limiter)
  {
    hide Prepared;
    PreparedQueue(db, a.queue);
    PreparedLeases(db, a.queue);
    assert LiveLeases(db, a.queue) ==
      set k | k in db.jobs && k.queue == a.queue && db.jobs[k].state == Active
        && db.jobs[k].lockExpires.Some? && db.jobs[k].lockExpires.value > db.now;
  }

  // ---------------------------------------------------------------- the pick

  /** `asc nulls last`. */
  predicate NoLater(x: Option<int>, y: Option<int>) {
    y.None? || (x.Some? && x.value <= y.value)
  }

  /** A waiting row of least wait sequence; without waiting rows, a prioritized row of least priority
      number and, within that, least priority sequence. */
  ghost predicate FirstInLine(db: Db, q: QueueId, k: Key) {
    && k in db.jobs && k.queue == q
    && match db.jobs[k].state
       case Wait =>
         forall x | x in db.jobs && x.queue == q && db.jobs[x].state == Wait ::
           NoLater(db.jobs[k].waitSeq, db.jobs[x].waitSeq)
       case Prioritized =>
         && (forall x | x in db.jobs && x.queue == q :: db.jobs[x].state != Wait)
         && (forall x | x in db.jobs && x.queue == q && db.jobs[x].state == Prioritized ::
               db.jobs[k].priority < db.jobs[x].priority
               || (db.jobs[k].priority == db.jobs[x].priority && NoLater(db.jobs[k].prioSeq, db.jobs[x].prioSeq)))
       case _ => false
  }

  lemma PicksFirst(db: Db, q: QueueId, k: Key)
    ensures Picks(db, q, k) <==> FirstInLine(db, q, k)
  {
    if k in db.jobs && k.queue == q && Claimable(db.jobs[k]) {
      var j := db.jobs[k];
      forall x | x in db.jobs && x.queue == q && Claimable(db.jobs[x])
        ensures !ClaimsBefore(db.jobs[x], j) <==>
          if j.state == Wait then db.jobs[x].state == Wait ==> NoLater(j.waitSeq, db.jobs[x].waitSeq)
          else
            db.jobs[x].state != Wait
            && (j.priority < db.jobs[x].priority
                || (j.priority == db.jobs[x].priority && NoLater(j.prioSeq, db.jobs[x].prioSeq)))
      {}
    }
  }

  /** Of claimable rows one has none before it. */
  lemma {:induction false} SomeoneIsFirst(jobs: map<Key, Job>, s: set<Key>) returns (k: Key)
    requires s <= jobs.Keys && s != {} && forall x | x in s :: Claimable(jobs[x])
    ensures k in s && forall x | x in s :: !ClaimsBefore(jobs[x], jobs[k])
    decreases |s|
  {
    var y :| y in s;
    k := y;
    var rest := s - {y};
    if rest != {} {
      var z := SomeoneIsFirst(jobs, rest);
      k := if ClaimsBefore(jobs[y], jobs[z]) then y else z;
      forall x | x in s ensures !ClaimsBefore(jobs[x], jobs[k]) {
        ClaimsBeforeIsStrict(jobs[x], jobs[y], jobs[z]);
        ClaimsBeforeIsStrict(jobs[y], jobs[x], jobs[z]);
        assert x == y || x in rest;
      }
    }
  }

  lemma SomePick(db: Db, q: QueueId, k: Key) returns (first: Key)
    requires k in db.jobs && k.queue == q && Claimable(db.jobs[k])
    ensures Picks(db, q, first)
  {
    hide ClaimsBefore;
    var ready := set x | x in db.jobs && x.queue == q && Claimable(db.jobs[x]);
    assert k in ready;
    first := SomeoneIsFirst(db.jobs, ready);
  }

  ghost predicate NoneReady(db: Db, q: QueueId) {
    forall x | x in db.jobs && x.queue == q :: db.jobs[x].state != Wait && db.jobs[x].state != Prioritized
  }

  /** A row in wait or prioritized, or a delayed one whose time has come. */
  ghost predicate HasWork(db: Db, q: QueueId) {
    exists k :: k in db.jobs && k.queue == q
      && (db.jobs[k].state == Wait || db.jobs[k].state == Prioritized || Ripe(db, q, k))
  }

  /** A claim goes through if and only if the gates are open and its row is first in line once the
      due rows have been promoted. */
  lemma TakesExactly(db: Db, a: ClaimArgs)
    ensures Takes(db, a) <==>
      MayClaim(db, a.queue, a.limiter) && FirstInLine(Prepared(db, a.queue), a.queue, a.pick)
  {
    hide GatesOpen, Prepared, Picks, FirstInLine;
    if a.queue in db.queues {
      GatesExactly(db, a);
      PicksFirst(Prepared(db, a.queue), a.queue, a.pick);
    }
  }

  lemma PreparedRow(db: Db, q: QueueId, k: Key)
    requires k in db.jobs
    ensures var db' := Prepared(db, q);
      && k in db'.jobs
      && (if Ripe(db, q, k) then PromotedAs(QueueOf(db, q), QueueOf(db', q), db.jobs[k], db'.jobs[k])
          else db'.jobs[k] == db.jobs[k])
  {
    hide PromoteDue;
    PromotesInDueOrder(DropExpiredWindow(db, q), q, k, k);
  }

  lemma PreparedKeys(db: Db, q: QueueId)
    ensures Prepared(db, q).jobs.Keys == db.jobs.Keys
  {}

  /** Some claim goes through if and only if the gates are open and there is work. */
  lemma ClaimsExactly(db: Db, a: ClaimArgs)
    ensures (exists k :: Takes(db, a.(pick := k))) <==> MayClaim(db, a.queue, a.limiter) && HasWork(db, a.queue)
  {
    hide GatesOpen, Prepared, Picks, FirstInLine, MayClaim;
    forall k ensures Takes(db, a.(pick := k)) ==> MayClaim(db, a.queue, a.limiter) && HasWork(db, a.queue) {
      if Takes(db, a.(pick := k)) {
        TakesExactly(db, a.(pick := k));
        PreparedKeys(db, a.queue);
        PickedReady(Prepared(db, a.queue), a.queue, k);
        PreparedRow(db, a.queue, k);
      }
    }
    if MayClaim(db, a.queue, a.limiter) && HasWork(db, a.queue) {
      var k :| k in db.jobs && k.queue == a.queue
        && (db.jobs[k].state == Wait || db.jobs[k].state == Prioritized || Ripe(db, a.queue, k));
      PreparedRow(db, a.queue, k);
      MayClaimRuns(db, a.queue, a.limiter);
      var first := SomePick(Prepared(db, a.queue), a.queue, k);
      GatesExactly(db, a.(pick := first));
      assert Takes(db, a.(pick := first));
    }
  }

  lemma MayClaimRuns(db: Db, q: QueueId, limiter: Option<Limiter>)
    requires MayClaim(db, q, limiter)
    ensures q in db.queues && !db.queues[q].paused
  {}

  lemma PickedReady(db: Db, q: QueueId, k: Key)
    requires FirstInLine(db, q, k)
    ensures k in db.jobs && k.queue == q && Claimable(db.jobs[k])
  {}

  /** The limiter's window after a claim: a closed one is dropped, an open one counts one token
      more, and the first claim of a new one sets when it closes. */
  predicate TokenTaken(w: Option<Window>, w': Option<Window>, limiter: Option<Limiter>, now: Millis) {
    var open := w.Some? && (w.value.expires.None? || w.value.expires.value > now);
    if limiter.None? then w' == (if open then w else None)
    else if open then w' == Some(Window(w.value.tokens + 1, w.value.expires))
    else w' == Some(Window(1, Some(now + limiter.value.duration)))
  }

  /** What a claim that goes through writes: the lease with its expiry, one more started attempt,
      and one token of the limiter's window. */
  lemma ClaimWrites(db: Db, a: ClaimArgs)
    requires Takes(db, a)
    ensures var db1, db' := Prepared(db, a.queue), Claim(db, a);
      && a.queue in db.queues && a.pick in db1.jobs && a.queue in db1.queues && a.queue in db'.queues
      && var j, limiter := db1.jobs[a.pick], if a.limiter.Some? then a.limiter else db.queues[a.queue].limiter;
      && db' == db1.(jobs := db'.jobs, queues := db'.queues)
      && db'.jobs == db1.jobs[a.pick := j.(state := Active, lockToken := Some(a.token),
           lockExpires := Some(db.now + a.lockMs), attemptsStarted := j.attemptsStarted + 1)]
      && db'.queues == db1.queues[a.queue := db1.queues[a.queue].(window := db'.queues[a.queue].window)]
      && TokenTaken(db.queues[a.queue].window, db'.queues[a.queue].window, limiter, db.now)
  {
    hide Prepared, Picks, FirstInLine, MayClaim;
    TakesExactly(db, a);
    PickedReady(Prepared(db, a.queue), a.queue, a.pick);
    PreparedQueue(db, a.queue);
  }

  /** A claim that takes nothing still promotes the due rows and drops a closed window. */
  lemma IdleClaim(db: Db, a: ClaimArgs)
    requires a.queue in db.queues && !Takes(db, a)
    ensures var db' := Claim(db, a);
      && db' == Prepared(db, a.queue) && a.queue in db'.queues
      && TokenTaken(db.queues[a.queue].window, db'.queues[a.queue].window, None, db.now)
  {
    hide Prepared, Picks;
    PreparedQueue(db, a.queue);
  }
}

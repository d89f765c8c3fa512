/** Pause routing and sequence numbers through every step: a paused queue has no row in
    `wait`, a running one none in `paused`, and nothing is claimed while paused. */
module Routing {
  import opened Rows
  import opened Ordering
  import opened Tables
  import opened Places
  import opened Linking
  import opened Claiming
  import opened Ending
  import opened Managing
  import opened Flows
  import opened Machine
  import opened Frames
  import opened Lives

  lemma WindowInPlace(db: Db, q: QueueId)
    requires InPlace(db) && q in db.queues
    ensures InPlace(DropExpiredWindow(db, q)) && OrderKept(db, DropExpiredWindow(db, q))
  {
    hide WaitOrdered, ListOrdered;
    SubsetInPlace(db, DropExpiredWindow(db, q));
  }

  lemma PreparedInPlace(db: Db, q: QueueId)
    requires InPlace(db) && q in db.queues
    ensures InPlace(Prepared(db, q)) && OrderKept(db, Prepared(db, q))
    ensures QueuesCalm(DropExpiredWindow(db, q), Prepared(db, q))
  {
    hide InPlace, PromoteDue, QueuesCalm, OrderKept;
    WindowInPlace(db, q);
    PromoteDueCalm(DropExpiredWindow(db, q), q);
    OrderTrans(db, DropExpiredWindow(db, q), Prepared(db, q));
  }

  lemma ActivateInPlace(db: Db, a: ClaimArgs)
    requires InPlace(db) && a.queue in db.queues && a.pick in db.jobs
    ensures InPlace(Activate(db, a)) && OrderKept(db, Activate(db, a))
  {
    hide WaitOrdered, ListOrdered;
    SubsetInPlace(db, Activate(db, a));
  }

  lemma ClaimInPlace(db: Db, a: ClaimArgs)
    requires InPlace(db)
    ensures PlacesKept(db, Claim(db, a))
  {
    hide InPlace, Prepared, Activate, OrderKept;
    PlacesRefl(db);
    if a.queue in db.queues {
      PreparedInPlace(db, a.queue);
      var db1 := Prepared(db, a.queue);
      assert a.queue in db1.queues;
      if GatesOpen(db1, a) && Picks(db1, a.queue, a.pick) {
        ActivateInPlace(db1, a);
        OrderTrans(db, db1, Activate(db1, a));
      }
    }
  }

  lemma PlacesRefl(db: Db)
    ensures PlacesKept(db, db)
  {
    hide WaitOrdered, InPlace;
  }

  lemma PutSamePlace(db: Db, k: Key, j: Job)
    requires InPlace(db) && k in db.jobs && SamePlace(db.jobs[k], j)
    ensures InPlace(Put(db, k, j)) && OrderKept(db, Put(db, k, j))
  {
    hide WaitOrdered, ListOrdered;
    SubsetInPlace(db, Put(db, k, j));
  }

  lemma FinishInPlace(db: Db, a: FinishArgs)
    requires InPlace(db) && Finishes(db, a) && LeasesSound(db)
    ensures PlacesKept(db, DoFinish(db, a))
  {
    hide InPlace, Requeue, NotifyParents, Trim, OrderKept;
    var j := db.jobs[a.key];
    assert Sound(LifeOf(j)) && j.state == Active;
    var db1 := Put(db, a.key, EndedRow(j, a.ok, db.now));
    PutSamePlace(db, a.key, EndedRow(j, a.ok, db.now));
    FinishTailCalm(db1, a, j.payload.opts);
    OrderTrans(db, db1, DoFinish(db, a));
  }

  lemma RetryRowInPlace(db: Db, k: Key, lifo: bool)
    requires InPlace(db) && (k in db.jobs ==> db.jobs[k].state == Active)
    ensures PlacesKept(db, RetryRow(db, k, lifo))
  {
    hide WaitOrdered, OwnSeq, PrioHead, WaitSeqs, Least, PeersDistinct;
    PlacesRefl(db);
    if k in db.jobs {
      assert Placed(db.queues[k.queue], db.jobs[k]);
      var j := db.jobs[k].(attemptsMade := db.jobs[k].attemptsMade + 1, lockToken := None, lockExpires := None);
      if j.priority > 0 {
        if lifo { PutAtPrioHead(db, k, j.(state := Prioritized), j.priority); }
        else { PrioritizeInPlace(db, k, j.(waitSeq := None), Prioritized); }
      } else if lifo {
        RetryHeadInPlace(db, k, j.(prioSeq := None));
      } else {
        EnqueueInPlace(db, k, j.(prioSeq := None));
      }
    }
  }

  /** One below the least of `wait`, and 0 when `wait` has no sequence: in a running queue in
      order it then has no row at all. */
  lemma RetryHeadInPlace(db: Db, k: Key, j: Job)
    requires InPlace(db) && k.queue in db.queues && j.prioSeq.None?
    ensures var db' := Put(db, k, RetriedToHead(db, k, j));
      PlacesKept(db, db') && (!QueueOf(db, k.queue).paused ==> ListsKept(db, db'))
  {
    hide Least, WaitSeqs, OwnSeq, OrderKept, PeersDistinct, ListOrdered;
    WaitHeadFits(db, k.queue, {Wait}, None);
    var j' := RetriedToHead(db, k, j);
    if !QueueOf(db, k.queue).paused {
      forall q | ListOrdered(db, q) ensures ListOrdered(Put(db, k, j'), q) {
        if q == k.queue { RetriedOwn(db, k, j); }
        PutListed(db, k, j', q);
      }
      if WaitOrdered(db, k.queue) { RetriedOwn(db, k, j); }
    }
    PutInPlace(db, k, j');
  }

  ghost function RetriedToHead(db: Db, k: Key, j: Job): Job {
    var m := Least(WaitSeqs(db, k.queue, {Wait}, None));
    j.(state := Route(QueueOf(db, k.queue)), waitSeq := Some(if m.Some? then m.value - 1 else 0))
  }

  lemma RetriedOwn(db: Db, k: Key, j: Job)
    requires AllPlaced(db) && WaitOrdered(db, k.queue)
    ensures OwnSeq(db, k, RetriedToHead(db, k, j))
  {
    hide Least;
    ListRouted(db, k.queue);
    var seqs := WaitSeqs(db, k.queue, {Wait}, None);
    if Least(seqs).Some? {
      HeadIsOwn(db, k, {Wait}, None, RetriedToHead(db, k, j));
    } else {
      assert forall x | InList(db, k.queue, x) :: db.jobs[x].waitSeq.value in seqs;
    }
  }

  lemma PutAtPrioHead(db: Db, k: Key, j: Job, priority: int)
    requires InPlace(db) && k.queue in db.queues && j.state == Prioritized && j.priority == priority
    ensures var db' := Put(db, k, j.(prioSeq := Some(PrioHead(db, k.queue, priority, k)), waitSeq := None));
      PlacesKept(db, db') && ListsKept(db, db')
  {
    hide WaitOrdered, ListOrdered, OwnSeq;
    PrioHeadFits(db, k.queue, priority, k);
    PutListsKept(db, k, j.(prioSeq := Some(PrioHead(db, k.queue, priority, k)), waitSeq := None));
    PutInPlace(db, k, j.(prioSeq := Some(PrioHead(db, k.queue, priority, k)), waitSeq := None));
  }

  lemma RetryInPlace(db: Db, k: Key, t: Token, lifo: bool)
    requires InPlace(db)
    ensures PlacesKept(db, Retry(db, k, t, lifo).0)
  {
    hide InPlace, PromoteDue, RetryRow, OrderKept;
    PlacesRefl(db);
    if HeldBy(db, k, t) {
      PromoteDueCalm(db, k.queue);
      assert k !in Due(db, k.queue);
      RetryRowInPlace(PromoteDue(db, k.queue), k, lifo);
      PlacesTrans(db, PromoteDue(db, k.queue), Retry(db, k, t, lifo).0);
    }
  }

  lemma DelayInPlace(db: Db, k: Key, t: Token, at: Millis, ms: int, failed: bool)
    requires InPlace(db)
    ensures PlacesKept(db, Delay(db, k, t, at, ms, failed).0)
  {
    hide InPlace, OrderKept;
    PlacesRefl(db);
    if Delay(db, k, t, at, ms, failed).1 == Ok {
      PutSamePlace(db, k, Delay(db, k, t, at, ms, failed).0.jobs[k]);
    }
  }

  lemma ToChildrenInPlace(db: Db, k: Key, t: Token, c: Option<Key>)
    requires InPlace(db)
    ensures PlacesKept(db, ToChildren(db, k, t, c).0)
  {
    hide InPlace, OrderKept;
    PlacesRefl(db);
    if ToChildren(db, k, t, c).1 == Ok {
      PutSamePlace(db, k, Unlocked(db.jobs[k]).(state := Parked));
    }
  }

  lemma HeadOfListInPlace(db: Db, k: Key, j: Job, state: JobState)
    requires InPlace(db) && k in db.jobs && j == Unlocked(db.jobs[k])
    requires state == Route(QueueOf(db, k.queue))
    ensures PlacesKept(db, HeadOfList(db, k, j, state)) && ListsKept(db, HeadOfList(db, k, j, state))
  {
    hide Least, WaitSeqs, OwnSeq, OrderKept, ListsKept, PeersDistinct, WaitOrdered;
    assert Placed(db.queues[k.queue], db.jobs[k]);
    WaitHeadFits(db, k.queue, {state}, None);
    var m := Least(WaitSeqs(db, k.queue, {state}, None));
    if m.Some? {
      var j' := j.(state := state, waitSeq := Some(m.value - 1));
      ListRouted(db, k.queue);
      HeadIsOwn(db, k, {state}, None, j');
      PutInPlace(db, k, j');
      PutListsKept(db, k, j');
    } else {
      EnqueueInPlace(db, k, j);
    }
  }

  lemma ReleaseInPlace(db: Db, k: Key, t: Token)
    requires InPlace(db)
    ensures PlacesKept(db, Release(db, k, t).0)
  {
    hide InPlace, OrderKept, HeadOfList, PrioHead;
    PlacesRefl(db);
    if HeldBy(db, k, t) {
      var j := Unlocked(db.jobs[k]);
      InPlaceAt(db, k);
      if QueueOf(db, k.queue).paused { HeadOfListInPlace(db, k, j, Paused); }
      else if j.priority > 0 { PutAtPrioHead(db, k, j.(state := Prioritized), j.priority); }
      else { HeadOfListInPlace(db, k, j, Wait); }
    }
  }

  lemma SweepNumberFits(db: Db, rows: set<Key>, k: Key)
    requires rows <= db.jobs.Keys && k in rows
    ensures 1 <= SweepNumber(db, rows, k) <= |rows|
  {
    var before := set x | x in rows && Before(ByNewestPk, db.jobs, x, k);
    BeforeIsStrictTotal(ByNewestPk, db.jobs, k, k, k);
    SmallerSet(before, rows - {k});
  }

  lemma {:induction false} SmallerSet<T>(a: set<T>, b: set<T>)
    requires a <= b
    ensures |a| <= |b|
    decreases |a|
  {
    if a != {} {
      var x :| x in a;
      SmallerSet(a - {x}, b - {x});
    }
  }

  lemma SweptPlaced(db: Db, q: QueueId, m: int, k: Key)
    requires AllPlaced(db) && k in db.jobs
    ensures var db' := Sweep(db, q, m);
      k.queue in db'.queues && Placed(db'.queues[k.queue], db'.jobs[k])
  {
    assert Placed(db.queues[k.queue], db.jobs[k]);
    var back := Requeued(db, q, m);
    if k in back {
      SweepNumberFits(db, back, k);
      assert back != {};
    }
  }

  lemma SweptNotPrioritized(db: Db, q: QueueId, m: int, k: Key)
    requires k in db.jobs && Sweep(db, q, m).jobs[k].state == Prioritized
    ensures Sweep(db, q, m).jobs[k] == db.jobs[k]
  {}

  /** Rows are requeued under numbers of their own. */
  lemma SweepNumberOwn(db: Db, rows: set<Key>, x: Key, y: Key)
    requires rows <= db.jobs.Keys && x in rows && y in rows && Before(ByNewestPk, db.jobs, x, y)
    ensures SweepNumber(db, rows, x) < SweepNumber(db, rows, y)
  {
    var xs := set k | k in rows && Before(ByNewestPk, db.jobs, k, x);
    var ys := set k | k in rows && Before(ByNewestPk, db.jobs, k, y);
    forall k | k in xs + {x} ensures k in ys { BeforeIsStrictTotal(ByNewestPk, db.jobs, k, x, y); }
    BeforeIsStrictTotal(ByNewestPk, db.jobs, x, x, x);
    SmallerSet(xs + {x}, ys);
  }

  lemma SweptApart(db: Db, q: QueueId, m: int, x: Key, y: Key)
    requires AllPlaced(db) && ListOrdered(db, q) && InList(Sweep(db, q, m), q, x) && InList(Sweep(db, q, m), q, y)
    requires x != y
    ensures Sweep(db, q, m).jobs[x].waitSeq.Some? && Sweep(db, q, m).jobs[x].waitSeq != Sweep(db, q, m).jobs[y].waitSeq
  {
    hide SweepNumber;
    var back := Requeued(db, q, m);
    assert Placed(db.queues[x.queue], db.jobs[x]) && Placed(db.queues[y.queue], db.jobs[y]);
    assert x !in back ==> InList(db, q, x);
    assert y !in back ==> InList(db, q, y);
    if x in back { SweepNumberFits(db, back, x); }
    if y in back { SweepNumberFits(db, back, y); }
    if x in back && y in back {
      BeforeIsStrictTotal(ByNewestPk, db.jobs, x, y, x);
      if Before(ByNewestPk, db.jobs, x, y) { SweepNumberOwn(db, back, x, y); } else { SweepNumberOwn(db, back, y, x); }
    }
  }

  lemma SweptSeq(db: Db, q: QueueId, m: int, o: QueueId, x: Key)
    requires ListOrdered(db, o) && InList(Sweep(db, q, m), o, x)
    ensures Sweep(db, q, m).jobs[x].waitSeq.Some?
    ensures o != q ==> InList(db, o, x) && Sweep(db, q, m).jobs[x] == db.jobs[x]
  {
    hide SweepNumber;
    assert x !in Stalled(db, q) ==> InList(db, o, x);
  }

  lemma SweepKeepsFlags(db: Db, q: QueueId, m: int)
    ensures FlagsKept(db, Sweep(db, q, m))
  {
    hide Requeued, Stalled, SweptRow;
  }

  lemma SweepOrdered(db: Db, q: QueueId, m: int)
    requires AllPlaced(db)
    ensures OrderKept(db, Sweep(db, q, m)) && ListsKept(db, Sweep(db, q, m))
  {
    hide Sweep, AllPlaced;
    var db' := Sweep(db, q, m);
    SweepKeepsFlags(db, q, m);
    forall o | ListOrdered(db, o) ensures ListOrdered(db', o) {
      forall x | InList(db', o, x) ensures db'.jobs[x].waitSeq.Some? { SweptSeq(db, q, m, o, x); }
      forall x, y | InList(db', o, x) && InList(db', o, y) && x != y
        ensures db'.jobs[x].waitSeq != db'.jobs[y].waitSeq {
        SweptSeq(db, q, m, o, x);
        SweptSeq(db, q, m, o, y);
        if o == q { SweptApart(db, q, m, x, y); }
      }
    }
  }

  lemma SweepInPlace(db: Db, q: QueueId, m: int)
    requires InPlace(db)
    ensures PlacesKept(db, Sweep(db, q, m))
  {
    SweepOrdered(db, q, m);
    hide OrderKept;
    var db' := Sweep(db, q, m);
    assert db'.jobs.Keys == db.jobs.Keys;
    hide Sweep, Placed;
    forall k | k in db'.jobs ensures k.queue in db'.queues && Placed(db'.queues[k.queue], db'.jobs[k]) {
      SweptPlaced(db, q, m, k);
    }
    forall x, y | x in db'.jobs && y in db'.jobs && Peers(db', x, y)
      ensures db'.jobs[x].prioSeq != db'.jobs[y].prioSeq {
      SweptNotPrioritized(db, q, m, x);
      SweptNotPrioritized(db, q, m, y);
      assert Peers(db, x, y);
    }
  }

  lemma ExtendInPlace(db: Db, k: Key, t: Token, ms: int, q: QueueId, ls: seq<Lease>)
    requires InPlace(db)
    ensures PlacesKept(db, Extend(db, k, t, ms).0) && PlacesKept(db, ExtendMany(db, q, ls, ms))
  {
    hide WaitOrdered, ListOrdered;
    SubsetInPlace(db, Extend(db, k, t, ms).0);
    SubsetInPlace(db, ExtendMany(db, q, ls, ms));
  }

  lemma PauseInPlace(db: Db, q: QueueId, p: bool)
    requires InPlace(db)
    ensures InPlace(Pause(db, q, p))
  {
    var db' := Pause(db, q, p);
    forall x, y | x in db'.jobs && y in db'.jobs && Peers(db', x, y)
      ensures db'.jobs[x].prioSeq != db'.jobs[y].prioSeq {
      assert Peers(db, x, y);
    }
  }

  /** Pausing and resuming move the list as a whole. */
  lemma PauseListed(db: Db, q: QueueId, p: bool)
    ensures ListsKept(db, Pause(db, q, p)) && forall o | ListOrdered(Pause(db, q, p), o) :: ListOrdered(db, o)
  {
    var db' := Pause(db, q, p);
    forall o ensures ListOrdered(db', o) <==> ListOrdered(db, o) {
      forall x ensures InList(db', o, x) <==> InList(db, o, x) {}
      forall x | InList(db', o, x) ensures db'.jobs[x].waitSeq == db.jobs[x].waitSeq {}
    }
  }

  /** Resuming a running queue, or pausing another, keeps it running and in order. */
  lemma PauseOrdered(db: Db, q: QueueId, p: bool, o: QueueId)
    requires WaitOrdered(db, o) && (o == q ==> !p)
    ensures WaitOrdered(Pause(db, q, p), o)
  {
    hide ListOrdered;
    PauseListed(db, q, p);
  }

  /** Pausing a running queue and resuming it gives back the state it had, and so does resuming a
      paused one and pausing it. */
  lemma PauseRoundTrip(db: Db, q: QueueId)
    requires InPlace(db) && q in db.queues
    ensures Pause(Pause(db, q, !db.queues[q].paused), q, db.queues[q].paused) == db
  {
    hide PeersDistinct;
    var db' := Pause(Pause(db, q, !db.queues[q].paused), q, db.queues[q].paused);
    forall k | k in db.jobs ensures db'.jobs[k] == db.jobs[k] { assert Placed(db.queues[k.queue], db.jobs[k]); }
    assert db'.jobs == db.jobs && db'.queues == db.queues;
  }

  lemma PromoteInPlace(db: Db, k: Key)
    requires InPlace(db)
    ensures PlacesKept(db, Promote(db, k).0)
  {
    hide OrderKept, PeersDistinct;
    PlacesRefl(db);
    if k in db.jobs {
      assert Placed(db.queues[k.queue], db.jobs[k]);
      var j := db.jobs[k].(processAt := None);
      PrioritizeInPlace(db, k, j, if QueueOf(db, k.queue).paused then Paused else Prioritized);
      EnqueueInPlace(db, k, j);
    }
  }

  lemma ToPlainInPlace(db: Db, k: Key, j: Job, lifo: bool)
    requires InPlace(db) && k in db.jobs && j.prioSeq.None?
    ensures var m := Least(WaitSeqs(db, k.queue, {Wait, Paused}, Some(k)));
      var db' := if lifo && m.Some? then
                   Put(db, k, j.(state := Route(QueueOf(db, k.queue)), waitSeq := Some(m.value - 1)))
                 else Enqueue(db, k, j);
      PlacesKept(db, db') && ListsKept(db, db')
  {
    hide OrderKept, ListsKept, PeersDistinct, Least, WaitSeqs, OwnSeq, WaitOrdered;
    InPlaceAt(db, k);
    WaitHeadFits(db, k.queue, {Wait, Paused}, Some(k));
    var m := Least(WaitSeqs(db, k.queue, {Wait, Paused}, Some(k)));
    if lifo && m.Some? {
      var j' := j.(state := Route(QueueOf(db, k.queue)), waitSeq := Some(m.value - 1));
      HeadIsOwn(db, k, {Wait, Paused}, Some(k), j');
      PutInPlace(db, k, j');
      PutListsKept(db, k, j');
    } else {
      EnqueueInPlace(db, k, j);
    }
  }

  lemma ChangePriorityInPlace(db: Db, k: Key, p: int, h: bool)
    requires InPlace(db)
    ensures PlacesKept(db, ChangePriority(db, k, p, h).0)
  {
    hide InPlace, Prioritize, Enqueue, PrioHead, Least, WaitSeqs, Placed, OrderKept;
    PlacesRefl(db);
    if k in db.jobs {
      var j := db.jobs[k];
      InPlaceAt(db, k);
      if !Queued(j) && j.state != Prioritized {
        PutSamePlace(db, k, j.(priority := p));
      } else if p > 0 {
        var j1 := j.(priority := p, waitSeq := None);
        if h { PutAtPrioHead(db, k, j1.(state := Prioritized), p); }
        else { PrioritizeInPlace(db, k, j1, Prioritized); }
      } else {
        ToPlainInPlace(db, k, j.(priority := 0, prioSeq := None), h);
      }
    }
  }

  lemma ReprocessInPlace(db: Db, k: Key, m: bool, s: bool, t: Option<bool>)
    requires InPlace(db)
    ensures PlacesKept(db, Reprocess(db, k, m, s, t).0)
  {
    hide InPlace, OrderKept;
    PlacesRefl(db);
    if Reprocess(db, k, m, s, t).1 == Ok {
      var j := db.jobs[k];
      var j1 := Unlocked(j).(attemptsMade := if m then 0 else j.attemptsMade,
                             attemptsStarted := if s then 0 else j.attemptsStarted, finishedOn := None);
      InPlaceAt(db, k);
      EnqueueInPlace(db, k, j1);
      OnlyRowsMatter(Enqueue(db, k, j1), Reprocess(db, k, m, s, t).0);
      PlacesTrans(db, Enqueue(db, k, j1), Reprocess(db, k, m, s, t).0);
    }
  }

  lemma InPlaceAt(db: Db, k: Key)
    requires InPlace(db) && k in db.jobs
    ensures k.queue in db.queues && Placed(db.queues[k.queue], db.jobs[k])
  {}

  lemma OnlyRowsMatter(db: Db, db': Db)
    requires InPlace(db) && db'.jobs == db.jobs && db'.queues == db.queues
    ensures PlacesKept(db, db')
  {
    hide WaitOrdered, ListOrdered;
    SubsetInPlace(db, db');
  }

  lemma CutEdgeInPlace(db: Db, c: Key, p: Key)
    requires InPlace(db)
    ensures PlacesKept(db, CutEdge(db, c, p).0)
  {
    hide InPlace, HasEdge, Linked, OrderKept;
    PlacesRefl(db);
    if c in db.jobs && p in db.jobs {
      var db1 := db.(edges := map i | i in db.edges && !(db.edges[i].parent == p && EdgeOf(db.edges[i], c)) ::
        db.edges[i]);
      OnlyRowsMatter(db, db1);
      InPlaceAt(db, p);
      EnqueueInPlace(db1, p, db1.jobs[p]);
      if Linked(db, p, c) {
        PlacesTrans(db, db1, CutEdge(db, c, p).0) by { PlacesRefl(db1); }
      }
    }
  }

  lemma MoveOneInPlace(db: Db, k: Key, from: JobState)
    requires InPlace(db) && k in db.jobs
    ensures PlacesKept(db, MoveOne(db, k, from))
  {
    hide InPlace, OrderKept;
    InPlaceAt(db, k);
    var j := db.jobs[k].(processAt := None, delayMs := 0, finishedOn := None);
    PrioritizeInPlace(db, k, j, if QueueOf(db, k.queue).paused then Paused else Prioritized);
    EnqueueInPlace(db, k, j.(prioSeq := None));
  }

  lemma {:induction false} MoveSeqInPlace(db: Db, ks: seq<Key>, from: JobState)
    requires InPlace(db)
    ensures PlacesKept(db, MoveSeq(db, ks, from))
  {
    PlacesRefl(db);
    if ks != [] {
      hide InPlace, MoveOne, OrderKept;
      MoveSeqInPlace(db, ks[..|ks| - 1], from);
      var db1 := MoveSeq(db, ks[..|ks| - 1], from);
      if ks[|ks| - 1] in db1.jobs {
        MoveOneInPlace(db1, ks[|ks| - 1], from);
        PlacesTrans(db, db1, MoveOne(db1, ks[|ks| - 1], from));
      }
    }
  }

  /** The step pauses queue `q`. */
  predicate Pauses(op: Op, q: QueueId) {
    op.OpPause? && op.queue == q && op.paused
  }

  /** Every step keeps every row in the list its queue's pause flag selects, every sequence
      within its counter, and the sequences of one priority distinct. In a running queue it also
      keeps a sequence of its own for every row in `wait`, unless it pauses the queue. */
  lemma StepInPlace(db: Db, op: Op)
    requires InPlace(db) && LeasesSound(db)
    ensures InPlace(Step(db, op))
    ensures forall q | WaitOrdered(db, q) && !Pauses(op, q) :: WaitOrdered(Step(db, op), q)
  {
    if op.OpPause? {
      hide InPlace, WaitOrdered;
      PauseInPlace(db, op.queue, op.paused);
      forall q | WaitOrdered(db, q) && !Pauses(op, q) ensures WaitOrdered(Step(db, op), q) {
        PauseOrdered(db, op.queue, op.paused, q);
      }
    } else {
      StepKeepsPlaces(db, op);
    }
  }

  lemma StepKeepsPlaces(db: Db, op: Op)
    requires InPlace(db) && LeasesSound(db) && !op.OpPause?
    ensures PlacesKept(db, Step(db, op))
  {
    hide InPlace, OrderKept, AddNode, Calm, EdgesCalm, Claim, DoFinish, Retry, Delay, ToChildren, Release;
    hide Sweep, Extend;
    hide ExtendMany, Pause;
    hide Promote, ChangePriority, Reprocess, CutEdge, MoveSeq, Finishes, Movable, Sorted, EnsureQueue;
    PlacesRefl(db);
    match op
    case OpTick(_) => OnlyRowsMatter(db, Step(db, op));
    case OpQueue(q) => EnsureQueueGentle(db, q); CalmInPlace(db, EnsureQueue(db, q));
    case OpAdd(r) => AddGentle(db, r); CalmInPlace(db, Step(db, op));
    case OpFlow(n, p) => AddFlowGentle(db, n, p); CalmInPlace(db, Step(db, op));
    case OpClaim(a) => ClaimInPlace(db, a);
    case OpFinish(a) => if Finishes(db, a) { FinishInPlace(db, a); }
    case OpRetry(k, t, l) => RetryInPlace(db, k, t, l);
    case OpDelay(k, t, at, ms, f) => DelayInPlace(db, k, t, at, ms, f);
    case OpToChildren(k, t, c) => ToChildrenInPlace(db, k, t, c);
    case OpRelease(k, t) => ReleaseInPlace(db, k, t);
    case OpSweep(q, m) => SweepInPlace(db, q, m);
    case OpExtend(k, t, ms) => ExtendInPlace(db, k, t, ms, 0, []);
    case OpExtendMany(q, ls, ms) => ExtendInPlace(db, Key(0, 0), 0, ms, q, ls);
    case OpPromote(k) => PromoteInPlace(db, k);
    case OpChangePriority(k, p, h) => ChangePriorityInPlace(db, k, p, h);
    case OpReprocess(k, m, s, t) => ReprocessInPlace(db, k, m, s, t);
    case OpCutEdge(c, p) => CutEdgeInPlace(db, c, p);
    case OpMoveBatch(q, f, n, t) =>
      var st := SourceState(f);
      MoveSeqInPlace(db, FirstN(Sorted(BatchOrder(st), db.jobs, Movable(db, q, st, t)), n), st);
  }

  lemma CalmInPlace(db: Db, db': Db)
    requires Calm(db, db') && InPlace(db)
    ensures InPlace(db') && OrderKept(db, db')
  {}

  lemma {:induction false} RunInPlace(db: Db, ops: seq<Op>)
    requires InPlace(db) && LeasesSound(db)
    ensures InPlace(Run(db, ops))
  {
    if ops != [] {
      hide Step, InPlace;
      RunInPlace(db, ops[..|ops| - 1]);
      RunSound(db, ops[..|ops| - 1]);
      StepInPlace(Run(db, ops[..|ops| - 1]), ops[|ops| - 1]);
    }
  }

  /** In every run from an empty database: no row in `wait` under a paused queue and none in
      `paused` under a running one. */
  lemma PauseRoutes(db: Db, ops: seq<Op>, k: Key)
    requires Initial(db) && k in Run(db, ops).jobs
    ensures var q := QueueOf(Run(db, ops), k.queue); var j := Run(db, ops).jobs[k];
      (q.paused ==> j.state != Wait) && (!q.paused ==> j.state != Paused)
  {
    hide Step;
    RunInPlace(db, ops);
    assert Placed(Run(db, ops).queues[k.queue], Run(db, ops).jobs[k]);
  }

  /** No step leases a job of a paused queue. */
  lemma NoClaimWhilePaused(db: Db, op: Op, k: Key)
    requires LeasesSound(db) && k in db.jobs && PhaseOf(db.jobs[k]) == Idle && QueueOf(db, k.queue).paused
    ensures k in Step(db, op).jobs ==> Step(db, op).jobs[k].state != Active
  {
    hide Step, Takes;
    StepLife(db, op);
    EffectWellAimed(db, op);
    if EffectOf(db, op).Claims? && EffectOf(db, op).key == k { TakesRunning(db, op.claim); }
    IdleStays(db, EffectOf(db, op), Step(db, op), k);
  }

  lemma TakesRunning(db: Db, a: ClaimArgs)
    requires Takes(db, a)
    ensures !QueueOf(db, a.queue).paused && a.pick.queue == a.queue
  {
    hide Calm, PromoteDue;
    PromoteDueCalm(DropExpiredWindow(db, a.queue), a.queue);
    CalmQueue(DropExpiredWindow(db, a.queue), Prepared(db, a.queue), a.queue);
  }

  lemma CalmQueue(db: Db, db': Db, q: QueueId)
    requires Calm(db, db') && q in db.queues
    ensures q in db'.queues && QueueGrows(db.queues[q], db'.queues[q]) && db'.now == db.now
  {}

  lemma IdleStays(db: Db, e: Effect, db': Db, k: Key)
    requires AllLiveOn(db, e, db') && WellAimed(db, e) && k in db.jobs && PhaseOf(db.jobs[k]) == Idle
    requires !(e.Claims? && e.key == k)
    ensures k in db'.jobs ==> db'.jobs[k].state != Active
  {
    if k in db'.jobs { assert LivesOn(db, e, db', k); }
  }
}

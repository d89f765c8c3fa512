/** The wait list under pause: which steps put two rows under one sequence, or a row under none, and
    the claim order in every run without such a step. */
module Listing {
  import opened Rows
  import opened Ordering
  import opened Tables
  import opened Places
  import opened Linking
  import opened Claiming
  import opened Ending
  import opened Managing
  import opened Flows
  import opened Adding
  import opened Machine
  import opened Frames
  import opened Lives
  import opened Routing
  import opened Releasing
  import opened Turns

  // ---------------------------------------------------------------- the condition

  ghost function Listed(db: Db, q: QueueId): set<Key> {
    set k | k in db.jobs && InList(db, q, k)
  }

  /** The rows all have a sequence, and no two the same. */
  ghost predicate OwnAll(db: Db, ks: set<Key>) {
    && (forall k | k in ks :: k in db.jobs && db.jobs[k].waitSeq.Some?)
    && (forall x, y | x in ks && y in ks && x != y :: db.jobs[x].waitSeq != db.jobs[y].waitSeq)
  }

  lemma OrderedIsOwn(db: Db, q: QueueId)
    ensures ListOrdered(db, q) <==> OwnAll(db, Listed(db, q))
  {
    forall k ensures k in Listed(db, q) <==> InList(db, q, k) {}
  }

  /** The delayed rows a step promotes or moves, in order. */
  ghost function Promotions(db: Db, op: Op): seq<Key> {
    match op
    case OpClaim(a) => if a.queue in db.queues then Sorted(ByDue, db.jobs, Due(db, a.queue)) else []
    case OpRetry(k, t, _) => if HeldBy(db, k, t) then Sorted(ByDue, db.jobs, Due(db, k.queue)) else []
    case OpPromote(k) => if k in db.jobs && db.jobs[k].state == Delayed then [k] else []
    case OpMoveBatch(q, Delayed, n, upTo) =>
      FirstN(Sorted(BatchOrder(Delayed), db.jobs, Movable(db, q, Delayed, upTo)), n)
    case _ => []
  }

  /** A delayed row with a priority goes into the paused list under the wait sequence it has. */
  ghost predicate Slips(db: Db, q: QueueId, k: Key) {
    k in db.jobs && k.queue == q && db.jobs[k].priority > 0 && QueueOf(db, q).paused
  }

  ghost function Slipping(db: Db, q: QueueId, ks: seq<Key>): set<Key> {
    set k | k in ks && Slips(db, q, k)
  }

  /** A LIFO retry of a plain job under pause, which takes sequence 0. */
  ghost predicate TakesZero(db: Db, op: Op, q: QueueId) {
    op.OpRetry? && op.lifo && HeldBy(db, op.key, op.token) && op.key.queue == q
      && db.jobs[op.key].priority <= 0 && QueueOf(db, q).paused
  }

  /** The rows in the list after the promotions have sequences of their own, and none has the 0 a LIFO
      retry is about to take. */
  ghost predicate Suits(db: Db, op: Op, q: QueueId) {
    var ks := Listed(db, q) + Slipping(db, q, Promotions(db, op));
    OwnAll(db, ks) && (TakesZero(db, op, q) ==> forall k | k in ks :: db.jobs[k].waitSeq != Some(0))
  }

  // ---------------------------------------------------------------- one row

  /** Row `k` outside the list is rewritten: it slips in under its sequence, goes in behind all, or
      stays outside. */
  ghost predicate Enters(db: Db, j: Job, k: Key, slips: bool)
    requires k in db.jobs
  {
    if slips then Queued(j) && j.waitSeq == db.jobs[k].waitSeq
    else Queued(j) ==> j.waitSeq.Some? && j.waitSeq.value > QueueOf(db, k.queue).waitNum
  }

  lemma BehindAll(db: Db, k: Key, j: Job, ks: set<Key>)
    requires AllPlaced(db) && j.waitSeq.Some? && j.waitSeq.value > QueueOf(db, k.queue).waitNum
    requires forall x | x in ks :: x in db.jobs && x.queue == k.queue
    ensures forall x | x in ks :: db.jobs[x].waitSeq != j.waitSeq
  {
    forall x | x in ks ensures db.jobs[x].waitSeq != j.waitSeq { assert Placed(db.queues[x.queue], db.jobs[x]); }
  }

  /** `rest` are rows that will slip in later. */
  lemma OneEnters(db: Db, db': Db, k: Key, q: QueueId, slips: bool, rest: set<Key>)
    requires AllPlaced(db) && k in db.jobs && !Queued(db.jobs[k]) && k in db'.jobs
    requires db'.jobs == db.jobs[k := db'.jobs[k]]
    requires k.queue == q ==> Enters(db, db'.jobs[k], k, slips)
    requires k !in rest && forall x | x in rest :: x in db.jobs && x.queue == q
    ensures OwnAll(db', Listed(db', q) + rest) <==>
      OwnAll(db, Listed(db, q) + rest + (if slips && k.queue == q then {k} else {}))
  {
    var ks, ks' := Listed(db, q) + rest, Listed(db', q) + rest;
    forall x | x in db.jobs && x != k ensures x in ks' <==> x in ks {}
    if k.queue != q || !Queued(db'.jobs[k]) {
      assert ks' == ks && ks + {} == ks;
      SameOwn(db, db', ks, k);
    } else if slips {
      assert ks' == ks + {k};
      SlipOwn(db, db', ks + {k}, k);
    } else {
      assert ks' == ks + {k} && ks + {} == ks;
      BehindAll(db, k, db'.jobs[k], ks);
      FreshOwn(db, db', ks, k);
    }
  }

  lemma SameOwn(db: Db, db': Db, ks: set<Key>, k: Key)
    requires k !in ks && k in db.jobs && k in db'.jobs && db'.jobs == db.jobs[k := db'.jobs[k]]
    ensures OwnAll(db', ks) <==> OwnAll(db, ks)
  {}

  lemma SlipOwn(db: Db, db': Db, ks: set<Key>, k: Key)
    requires k in db.jobs && k in db'.jobs && db'.jobs == db.jobs[k := db'.jobs[k]]
    requires db'.jobs[k].waitSeq == db.jobs[k].waitSeq
    ensures OwnAll(db', ks) <==> OwnAll(db, ks)
  {}

  lemma FreshOwn(db: Db, db': Db, ks: set<Key>, k: Key)
    requires k !in ks && k in db.jobs && k in db'.jobs && db'.jobs == db.jobs[k := db'.jobs[k]]
    requires db'.jobs[k].waitSeq.Some?
    requires forall x | x in ks :: x in db.jobs && db.jobs[x].waitSeq != db'.jobs[k].waitSeq
    ensures OwnAll(db', ks + {k}) <==> OwnAll(db, ks)
  {
    if OwnAll(db', ks + {k}) {
      forall x | x in ks ensures x in db.jobs && db.jobs[x].waitSeq.Some? { assert x in ks + {k}; }
      forall x, y | x in ks && y in ks && x != y ensures db.jobs[x].waitSeq != db.jobs[y].waitSeq {
        assert x in ks + {k} && y in ks + {k};
      }
    }
  }

  // ---------------------------------------------------------------- promotions

  lemma PromoteEnters(db: Db, k: Key)
    requires k in db.jobs
    ensures Enters(db, PromoteOne(db, k).jobs[k], k, Slips(db, k.queue, k))
  {}

  lemma SlippingSnoc(db: Db, db1: Db, q: QueueId, front: seq<Key>, k: Key)
    requires k in db.jobs && k in db1.jobs && db1.jobs[k] == db.jobs[k]
    requires QueueOf(db1, q).paused == QueueOf(db, q).paused
    ensures Slipping(db, q, front + [k]) == Slipping(db, q, front) + (if Slips(db, q, k) then {k} else {})
    ensures Slips(db1, q, k) == Slips(db, q, k)
  {}

  lemma Regrouped(a: set<Key>, b: set<Key>, c: set<Key>, rest: set<Key>, slip: set<Key>)
    ensures a + rest + slip == a + (rest + slip) && b + c + (rest + slip) == b + (c + slip) + rest
  {}

  lemma PromotedLast(db: Db, k: Key, q: QueueId, rest: set<Key>)
    requires AllPlaced(db) && k in db.jobs && db.jobs[k].state == Delayed
    requires k !in rest && forall x | x in rest :: x in db.jobs && x.queue == q
    ensures var db' := PromoteOne(db, k);
      OwnAll(db', Listed(db', q) + rest) <==> OwnAll(db, Listed(db, q) + rest + (if Slips(db, q, k) then {k} else {}))
  {
    hide PromoteOne, OwnAll, Listed, AllPlaced, Enters;
    PromoteEnters(db, k);
    PromotedOne(db, k);
    OneEnters(db, PromoteOne(db, k), k, q, Slips(db, k.queue, k), rest);
  }

  lemma PromotedBefore(db: Db, front: seq<Key>, k: Key, q: QueueId)
    requires InPlace(db) && AllDelayed(db, front) && k in db.jobs && k !in front
    ensures var db1 := PromoteSeq(db, front);
      && db1.jobs.Keys == db.jobs.Keys && db1.jobs[k] == db.jobs[k] && AllPlaced(db1)
      && QueueOf(db1, q).paused == QueueOf(db, q).paused
  {
    hide PromoteSeq, AllDelayed, Calm, CalmRow, InPlace, AllPlaced, PromotedRow;
    PromoteSeqCalm(db, front);
    CalmInPlace(db, PromoteSeq(db, front));
    PlacedAll(PromoteSeq(db, front));
    PromoteSeqRows(db, front);
    assert SameFlagLaterSeq(QueueOf(db, q), QueueOf(PromoteSeq(db, front), q));
  }

  /** After a batch of promotions the list is in order just when it was, taken together with the rows
      that have slipped in. */
  lemma {:induction false} PromotedOwn(db: Db, ks: seq<Key>, q: QueueId, rest: set<Key>)
    requires InPlace(db) && AllDelayed(db, ks)
    requires forall x | x in rest :: x in db.jobs && x.queue == q && x !in ks
    ensures var db' := PromoteSeq(db, ks);
      OwnAll(db', Listed(db', q) + rest) <==> OwnAll(db, Listed(db, q) + Slipping(db, q, ks) + rest)
  {
    if ks == [] {
      assert Listed(db, q) + Slipping(db, q, ks) + rest == Listed(db, q) + rest;
    } else {
      hide PromoteOne, PromoteSeq, AllDelayed, Calm, CalmRow, OwnAll, Listed, InPlace, Slips, AllPlaced;
      hide PromotedRow, Slipping;
      var front, k := ks[..|ks| - 1], ks[|ks| - 1];
      var db1 := PromoteSeq(db, front);
      assert ks == front + [k];
      AllDelayedSnoc(db, front, k);
      PromoteSeqSnoc(db, front, k);
      PromotedBefore(db, front, k, q);
      SlippingSnoc(db, db1, q, front, k);
      var slip: set<Key> := if Slips(db, q, k) then {k} else {};
      SlipsThere(db, q, k);
      PromotedOwn(db, front, q, rest + slip);
      PromotedLast(db1, k, q, rest);
      Regrouped(Listed(db1, q), Listed(db, q), Slipping(db, q, front), rest, slip);
    }
  }

  lemma SlipsThere(db: Db, q: QueueId, k: Key)
    ensures Slips(db, q, k) ==> k in db.jobs && k.queue == q
  {}

  // ---------------------------------------------------------------- batched moves

  lemma MoveEnters(db: Db, k: Key, from: JobState)
    requires k in db.jobs
    ensures Enters(db, MoveOne(db, k, from).jobs[k], k, from == Delayed && Slips(db, k.queue, k))
  {}

  lemma MovedLast(db: Db, k: Key, from: JobState, q: QueueId, rest: set<Key>)
    requires AllPlaced(db) && k in db.jobs && !Queued(db.jobs[k])
    requires k !in rest && forall x | x in rest :: x in db.jobs && x.queue == q
    ensures var db' := MoveOne(db, k, from);
      OwnAll(db', Listed(db', q) + rest) <==>
        OwnAll(db, Listed(db, q) + rest + (if from == Delayed && Slips(db, q, k) then {k} else {}))
  {
    hide MoveOne, OwnAll, Listed, AllPlaced, Enters;
    MoveEnters(db, k, from);
    MoveOneShape(db, k, from);
    OneEnters(db, MoveOne(db, k, from), k, q, from == Delayed && Slips(db, k.queue, k), rest);
  }

  predicate AllUnlisted(db: Db, ks: seq<Key>) {
    Distinct(ks) && forall i | 0 <= i < |ks| :: ks[i] in db.jobs && !Queued(db.jobs[ks[i]])
  }

  lemma UnlistedSnoc(db: Db, front: seq<Key>, k: Key)
    requires AllUnlisted(db, front + [k])
    ensures AllUnlisted(db, front) && k in db.jobs && !Queued(db.jobs[k]) && k !in front && Distinct(front)
    ensures forall i | 0 <= i < |front| :: front[i] in db.jobs
  {
    var ks := front + [k];
    assert ks[|front|] == k;
    forall i | 0 <= i < |front| ensures front[i] == ks[i] {}
  }

  lemma MoveSeqSnoc(db: Db, front: seq<Key>, k: Key, from: JobState)
    ensures var db1 := MoveSeq(db, front, from);
      MoveSeq(db, front + [k], from) == if k in db1.jobs then MoveOne(db1, k, from) else db1
  {
    hide MoveOne;
    assert (front + [k])[..|front|] == front;
  }

  lemma MoveOneFlag(db: Db, k: Key, from: JobState, q: QueueId)
    requires k in db.jobs
    ensures QueueOf(MoveOne(db, k, from), q).paused == QueueOf(db, q).paused
  {}

  lemma {:induction false} MoveSeqFlag(db: Db, ks: seq<Key>, from: JobState, q: QueueId)
    ensures QueueOf(MoveSeq(db, ks, from), q).paused == QueueOf(db, q).paused
  {
    if ks != [] {
      hide MoveOne, QueueOf;
      var db1 := MoveSeq(db, ks[..|ks| - 1], from);
      MoveSeqFlag(db, ks[..|ks| - 1], from, q);
      if ks[|ks| - 1] in db1.jobs { MoveOneFlag(db1, ks[|ks| - 1], from, q); }
    }
  }

  ghost function MoveSlips(db: Db, q: QueueId, ks: seq<Key>, from: JobState): set<Key> {
    if from == Delayed then Slipping(db, q, ks) else {}
  }

  lemma MoveSlipsSnoc(db: Db, db1: Db, q: QueueId, front: seq<Key>, k: Key, from: JobState)
    requires k in db.jobs && k in db1.jobs && db1.jobs[k] == db.jobs[k]
    requires QueueOf(db1, q).paused == QueueOf(db, q).paused
    ensures MoveSlips(db, q, front + [k], from) ==
      MoveSlips(db, q, front, from) + (if from == Delayed && Slips(db, q, k) then {k} else {})
    ensures Slips(db1, q, k) == Slips(db, q, k)
  {
    hide Slipping;
    SlippingSnoc(db, db1, q, front, k);
  }

  lemma MovedBefore(db: Db, front: seq<Key>, k: Key, from: JobState, q: QueueId)
    requires InPlace(db) && Distinct(front) && k in db.jobs && k !in front && forall i | 0 <= i < |front| ::
      front[i] in db.jobs
    ensures var db1 := MoveSeq(db, front, from);
      && db1.jobs.Keys == db.jobs.Keys && db1.jobs[k] == db.jobs[k] && AllPlaced(db1)
      && QueueOf(db1, q).paused == QueueOf(db, q).paused
  {
    hide MoveSeq, InPlace, AllPlaced, OrderKept, QueueOf;
    MoveSeqRows(db, front, from);
    MoveSeqInPlace(db, front, from);
    PlacedAll(MoveSeq(db, front, from));
    MoveSeqFlag(db, front, from, q);
  }

  lemma {:induction false} MovedOwn(db: Db, ks: seq<Key>, from: JobState, q: QueueId, rest: set<Key>)
    requires InPlace(db) && AllUnlisted(db, ks)
    requires forall x | x in rest :: x in db.jobs && x.queue == q && x !in ks
    ensures var db' := MoveSeq(db, ks, from);
      OwnAll(db', Listed(db', q) + rest) <==> OwnAll(db, Listed(db, q) + MoveSlips(db, q, ks, from) + rest)
  {
    if ks == [] {
      assert Listed(db, q) + MoveSlips(db, q, ks, from) + rest == Listed(db, q) + rest;
    } else {
      hide MoveOne, MoveSeq, AllUnlisted, OwnAll, Listed, InPlace, Slips, AllPlaced, Slipping, Distinct;
      hide QueueOf, OrderKept;
      hide MoveSlips;
      var front, k := ks[..|ks| - 1], ks[|ks| - 1];
      var db1 := MoveSeq(db, front, from);
      assert ks == front + [k];
      UnlistedSnoc(db, front, k);
      MoveSeqSnoc(db, front, k, from);
      MovedBefore(db, front, k, from, q);
      MoveSlipsSnoc(db, db1, q, front, k, from);
      var slip: set<Key> := if from == Delayed && Slips(db, q, k) then {k} else {};
      SlipsThere(db, q, k);
      MovedOwn(db, front, from, q, rest + slip);
      MovedLast(db1, k, from, q, rest);
      Regrouped(Listed(db1, q), Listed(db, q), MoveSlips(db, q, front, from), rest, slip);
    }
  }

  // ---------------------------------------------------------------- steps that keep every list

  lemma ForceParentListed(db: Db, p: Key)
    requires p in db.jobs
    ensures StaysListed(db, ForceParent(db, p))
  {
    hide ListsKept, PeersDistinct, OrderKept;
    if InPlace(db) {
      assert Placed(db.queues[p.queue], db.jobs[p]);
      var j := db.jobs[p].(deferred := true);
      EnqueueInPlace(db, p, j);
      EnqueueInPlace(db, p, j.(delayMs := 0, processAt := None));
      SubsetListed(db, Put(db, p, j));
    }
  }

  lemma {:induction false} ForceParentsListed(db: Db, ps: seq<Key>)
    ensures StaysListed(db, ForceParents(db, ps))
  {
    SameRowsListed(db, db);
    if ps != [] {
      hide ForceParent, Calm, StaysListed;
      var front, p := ps[..|ps| - 1], ps[|ps| - 1];
      var db1 := ForceParents(db, front);
      ForceParentsListed(db, front);
      ForceParentsCalm(db, front);
      if p in db1.jobs {
        ForceParentListed(db1, p);
        ListedTrans(db, db1, ForceParent(db1, p));
      }
    }
  }

  lemma {:induction false} SettleParentsListed(db: Db, ps: seq<Key>, cpof: bool)
    ensures StaysListed(db, SettleParents(db, ps, cpof))
  {
    SameRowsListed(db, db);
    if ps != [] {
      hide ReleaseParent, HasBlockingEdge, Calm, StaysListed;
      var front, p := ps[..|ps| - 1], ps[|ps| - 1];
      var db1 := SettleParents(db, front, cpof);
      SettleParentsListed(db, front, cpof);
      SettleParentsCalm(db, front, cpof);
      if p in db1.jobs {
        ReleaseParentListed(db1, p);
        ListedTrans(db, db1, ReleaseParent(db1, p));
      }
    }
  }

  lemma NotifyListed(db: Db, a: FinishArgs, opts: JobOpts)
    ensures StaysListed(db, NotifyParents(db, a, opts))
  {
    hide Calm, StaysListed, ForceParents, SettleParents;
    var ps := Sorted(ByPk, db.jobs, ParentsOf(db, a.key) * db.jobs.Keys);
    var db1 := ResolveEdges(db, a.key, opts, a.ok, a.keep == Some(0));
    SameRowsCalm(db, db1);
    SameRowsListed(db, db1);
    ForceParentsListed(db1, ps);
    ForceParentsCalm(db1, ps);
    SameRowsListed(db1, db1);
    CalmRefl(db1);
    var db2 := if !a.ok && opts.fpof then ForceParents(db1, ps) else db1;
    ListedTrans(db, db1, db2);
    CalmTrans(db, db1, db2);
    SettleParentsListed(db2, ps, !a.ok && opts.cpof);
    ListedTrans(db, db2, NotifyParents(db, a, opts));
  }

  lemma GentleListed(db: Db, db': Db)
    requires Gentle(db, db')
    ensures Calm(db, db') && StaysListed(db, db')
  {}

  lemma FinishListed(db: Db, a: FinishArgs)
    requires InPlace(db) && LeasesSound(db) && Finishes(db, a)
    ensures ListsKept(db, DoFinish(db, a))
  {
    hide InPlace, Requeue, NotifyParents, Trim, Gentle, Calm, ListsKept, EndedRow;
    var j := db.jobs[a.key];
    assert Sound(LifeOf(j)) && j.state == Active;
    var db1 := Put(db, a.key, EndedRow(j, a.ok, db.now));
    EndedListed(db, a);
    var db2 := Requeue(db1, a.key);
    RequeueKeeps(db1, a.key);
    GentleListed(db1, db2);
    var db3 := NotifyParents(db2, a, j.payload.opts);
    NotifyListed(db2, a, j.payload.opts);
    NotifyParentsCalm(db2, a, j.payload.opts);
    ListedTrans(db1, db2, db3);
    CalmTrans(db1, db2, db3);
    EndedState(j, a.ok, db.now);
    CalmStaysIdle(db1, db3, a.key);
    TrimGentle(db3, a);
    GentleListed(db3, Trim(db3, a));
    ListedTrans(db1, db3, Trim(db3, a));
    ListsTrans(db, db1, DoFinish(db, a));
  }

  lemma EndedState(j: Job, ok: bool, now: Millis)
    ensures EndedRow(j, ok, now).state != Active
  {}

  lemma EndedListed(db: Db, a: FinishArgs)
    requires InPlace(db) && a.key in db.jobs && db.jobs[a.key].state == Active
    ensures var db1 := Put(db, a.key, EndedRow(db.jobs[a.key], a.ok, db.now)); InPlace(db1) && ListsKept(db, db1)
  {
    hide ListOrdered;
    SubsetInPlace(db, Put(db, a.key, EndedRow(db.jobs[a.key], a.ok, db.now)));
  }

  lemma ReleaseListed(db: Db, k: Key, t: Token)
    requires InPlace(db)
    ensures ListsKept(db, Release(db, k, t).0)
  {
    hide InPlace, OrderKept, ListsKept, HeadOfList, PrioHead;
    SelfListed(db);
    if HeldBy(db, k, t) {
      var j := Unlocked(db.jobs[k]);
      InPlaceAt(db, k);
      if QueueOf(db, k.queue).paused { HeadOfListInPlace(db, k, j, Paused); }
      else if j.priority > 0 { PutAtPrioHead(db, k, j.(state := Prioritized), j.priority); }
      else { HeadOfListInPlace(db, k, j, Wait); }
    }
  }

  lemma SelfListed(db: Db)
    ensures ListsKept(db, db)
  {
    hide ListOrdered;
  }

  lemma UnlistedListed(db: Db, op: Op)
    requires op.OpDelay? || op.OpToChildren?
    ensures ListsKept(db, Step(db, op))
  {
    hide HasEdge, HasPendingChild, ListsKept;
    SelfListed(db);
    var db' := Step(db, op);
    if db' != db { PutListsKept(db, op.key, db'.jobs[op.key]); }
  }

  lemma ChangePriorityListed(db: Db, k: Key, p: int, h: bool)
    requires InPlace(db)
    ensures ListsKept(db, ChangePriority(db, k, p, h).0)
  {
    hide InPlace, Prioritize, Enqueue, PrioHead, Least, WaitSeqs, Placed, OrderKept, ListsKept;
    SelfListed(db);
    if k in db.jobs {
      var j := db.jobs[k];
      InPlaceAt(db, k);
      if !Queued(j) && j.state != Prioritized {
        PutListsKept(db, k, j.(priority := p));
      } else if p > 0 {
        var j1 := j.(priority := p, waitSeq := None);
        if h { PutAtPrioHead(db, k, j1.(state := Prioritized), p); }
        else { PrioritizeInPlace(db, k, j1, Prioritized); }
      } else {
        ToPlainInPlace(db, k, j.(priority := 0, prioSeq := None), h);
      }
    }
  }

  lemma ReprocessListed(db: Db, k: Key, m: bool, s: bool, t: Option<bool>)
    requires InPlace(db)
    ensures ListsKept(db, Reprocess(db, k, m, s, t).0)
  {
    hide InPlace, OrderKept, ListsKept;
    SelfListed(db);
    if Reprocess(db, k, m, s, t).1 == Ok {
      var j := db.jobs[k];
      var j1 := Unlocked(j).(attemptsMade := if m then 0 else j.attemptsMade,
                             attemptsStarted := if s then 0 else j.attemptsStarted, finishedOn := None);
      InPlaceAt(db, k);
      EnqueueInPlace(db, k, j1);
      SameJobsListed(Enqueue(db, k, j1), Reprocess(db, k, m, s, t).0);
      ListsTrans(db, Enqueue(db, k, j1), Reprocess(db, k, m, s, t).0);
    }
  }

  lemma SameJobsListed(db: Db, db': Db)
    requires db'.jobs == db.jobs
    ensures ListsKept(db, db')
  {
    SubsetListed(db, db');
  }

  lemma CutEdgeListed(db: Db, c: Key, p: Key)
    requires InPlace(db)
    ensures ListsKept(db, CutEdge(db, c, p).0)
  {
    hide InPlace, HasEdge, Linked, OrderKept, ListsKept;
    SelfListed(db);
    if c in db.jobs && p in db.jobs {
      var db1 := db.(edges := map i | i in db.edges && !(db.edges[i].parent == p && EdgeOf(db.edges[i], c)) ::
        db.edges[i]);
      OnlyRowsMatter(db, db1);
      SameJobsListed(db, db1);
      InPlaceAt(db, p);
      EnqueueInPlace(db1, p, db1.jobs[p]);
      ListsTrans(db, db1, Enqueue(db1, p, db1.jobs[p]));
    }
  }

  lemma ExtendListed(db: Db, op: Op)
    requires op.OpExtend? || op.OpExtendMany? || op.OpTick?
    ensures ListsKept(db, Step(db, op))
  {
    SubsetListed(db, Step(db, op));
  }

  /** The steps that promote, move or retry nothing keep the order of every list. */
  lemma QuietListed(db: Db, op: Op)
    requires InPlace(db) && LeasesSound(db) && !op.OpClaim? && !op.OpRetry? && !op.OpPromote? && !op.OpMoveBatch?
    ensures ListsKept(db, Step(db, op))
  {
    hide InPlace, AddNode, Gentle, ListsKept, Calm, DoFinish, Delay, ToChildren, Release, Sweep, Extend;
    hide ExtendMany, Pause;
    hide ChangePriority, Reprocess, CutEdge, Finishes, EnsureQueue, Add;
    SelfListed(db);
    match op
    case OpQueue(q) => EnsureQueueGentle(db, q); GentleListed(db, Step(db, op));
    case OpAdd(r) => AddGentle(db, r); GentleListed(db, Step(db, op));
    case OpFlow(n, p) => AddFlowGentle(db, n, p); GentleListed(db, Step(db, op));
    case OpFinish(a) => if Finishes(db, a) { FinishListed(db, a); }
    case OpDelay(_, _, _, _, _) => UnlistedListed(db, op);
    case OpToChildren(_, _, _) => UnlistedListed(db, op);
    case OpRelease(k, t) => ReleaseListed(db, k, t);
    case OpSweep(q, m) => SweepOrdered(db, q, m) by { PlacedAll(db); }
    case OpPause(q, p) => PauseListed(db, q, p);
    case OpChangePriority(k, p, h) => ChangePriorityListed(db, k, p, h);
    case OpReprocess(k, m, s, t) => ReprocessListed(db, k, m, s, t);
    case OpCutEdge(c, p) => CutEdgeListed(db, c, p);
    case _ => ExtendListed(db, op);
  }

  // ---------------------------------------------------------------- claims

  lemma PromoteDueOwn(db: Db, due: QueueId, q: QueueId)
    requires InPlace(db)
    ensures var db' := PromoteDue(db, due);
      OwnAll(db', Listed(db', q)) <==> OwnAll(db, Listed(db, q) + Slipping(db, q, Sorted(ByDue, db.jobs, Due(db, due))))
  {
    hide InPlace, PromoteSeq, OwnAll, Listed, Slipping;
    var ks := Sorted(ByDue, db.jobs, Due(db, due));
    DueListed(db, due);
    PromotedOwn(db, ks, q, {});
    NoRest(Listed(PromoteDue(db, due), q), Listed(db, q) + Slipping(db, q, ks));
  }

  lemma NoRest(a: set<Key>, b: set<Key>)
    ensures a + {} == a && b + {} == b
  {}

  lemma WindowAlike(db: Db, due: QueueId, q: QueueId, ks: seq<Key>)
    requires due in db.queues
    ensures var db0 := DropExpiredWindow(db, due);
      && db0.jobs == db.jobs && Due(db0, due) == Due(db, due)
      && Listed(db0, q) + Slipping(db0, q, ks) == Listed(db, q) + Slipping(db, q, ks)
  {
    var db0 := DropExpiredWindow(db, due);
    assert forall k :: Slips(db0, q, k) <==> Slips(db, q, k);
  }

  lemma SameJobsOwn(db: Db, db0: Db, ks: set<Key>)
    requires db0.jobs == db.jobs
    ensures OwnAll(db0, ks) <==> OwnAll(db, ks)
  {}

  lemma PreparedOwn(db: Db, due: QueueId, q: QueueId)
    requires InPlace(db) && due in db.queues
    ensures var db1 := Prepared(db, due);
      OwnAll(db1, Listed(db1, q)) <==> OwnAll(db, Listed(db, q) + Slipping(db, q, Sorted(ByDue, db.jobs, Due(db, due))))
  {
    hide InPlace, PromoteDue, OwnAll, Listed, Slipping, DropExpiredWindow, OrderKept;
    var db0, ks := DropExpiredWindow(db, due), Sorted(ByDue, db.jobs, Due(db, due));
    WindowInPlace(db, due);
    WindowAlike(db, due, q, ks);
    PromoteDueOwn(db0, due, q);
    SameJobsOwn(db, db0, Listed(db, q) + Slipping(db, q, ks));
  }

  /** Nothing slips into the list of a queue that runs, or of another queue. */
  lemma NoneSlips(db: Db, due: QueueId, q: QueueId)
    requires !QueueOf(db, q).paused || q != due
    ensures Slipping(db, q, Sorted(ByDue, db.jobs, Due(db, due))) == {}
  {
    var ks := Sorted(ByDue, db.jobs, Due(db, due));
    assert forall k | k in ks :: k in Due(db, due);
  }

  lemma ActivateListed(db: Db, a: ClaimArgs)
    requires a.pick in db.jobs
    ensures ListsKept(db, Activate(db, a))
  {
    SubsetListed(db, Activate(db, a));
  }

  lemma ClaimListed(db: Db, op: Op, q: QueueId)
    requires InPlace(db) && ListOrdered(db, q) && op.OpClaim?
    ensures ListOrdered(Step(db, op), q) <==> Suits(db, op, q)
  {
    hide InPlace, Prepared, OwnAll, Listed, Slipping, GatesOpen, Picks, Activate, ListOrdered;
    var a := op.claim;
    OrderedIsOwn(db, q);
    NoRest(Listed(db, q), Listed(db, q));
    NoneMoved(db, q);
    if a.queue in db.queues {
      var db1 := Prepared(db, a.queue);
      PreparedOwn(db, a.queue, q);
      OrderedIsOwn(db1, q);
      if Takes(db, a) {
        TakesRunning(db, a);
        NoneSlips(db, a.queue, q);
        TakesPick(db, a);
        ActivateListed(db1, a);
      }
    }
  }

  lemma NoneMoved(db: Db, q: QueueId)
    ensures Slipping(db, q, []) == {}
  {}

  lemma TakesPick(db: Db, a: ClaimArgs)
    requires Takes(db, a)
    ensures a.pick in Prepared(db, a.queue).jobs
  {
    hide Prepared, GatesOpen;
  }

  // ---------------------------------------------------------------- retries

  /** A row added to the list under sequence 0. */
  lemma ZeroEnters(db: Db, db': Db, k: Key, q: QueueId)
    requires k in db.jobs && !Queued(db.jobs[k]) && k.queue == q && k in db'.jobs
    requires db'.jobs == db.jobs[k := db'.jobs[k]]
    requires Queued(db'.jobs[k]) && db'.jobs[k].waitSeq == Some(0)
    ensures OwnAll(db', Listed(db', q)) <==>
      OwnAll(db, Listed(db, q)) && forall x | x in Listed(db, q) :: db.jobs[x].waitSeq != Some(0)
  {
    var ks := Listed(db, q);
    assert Listed(db', q) == ks + {k};
    if forall x | x in ks :: db.jobs[x].waitSeq != Some(0) {
      FreshOwn(db, db', ks, k);
    } else {
      var x :| x in ks && db.jobs[x].waitSeq == Some(0);
      assert x in ks + {k} && k in ks + {k};
    }
  }

  /** Under pause a promotion brings no 0 into the list but those that slip in. */
  lemma ZeroesPromoted(db: Db, q: QueueId)
    requires QueueOf(db, q).paused
    requires OwnAll(PromoteDue(db, q), Listed(PromoteDue(db, q), q))
    ensures var db1, ks := PromoteDue(db, q), Listed(db, q) + Slipping(db, q, Sorted(ByDue, db.jobs, Due(db, q)));
      (forall x | x in Listed(db1, q) :: db1.jobs[x].waitSeq != Some(0)) <==>
      (forall x | x in ks :: x in db.jobs && db.jobs[x].waitSeq != Some(0))
  {
    hide PromoteDue, Calm, CalmRow;
    var db1, due := PromoteDue(db, q), Sorted(ByDue, db.jobs, Due(db, q));
    var ks := Listed(db, q) + Slipping(db, q, due);
    PromoteDueCalm(db, q);
    forall x | x in db.jobs && x.queue == q
      ensures PausedWithSeq(db, q, x) <==> x in ks && db.jobs[x].waitSeq.Some?
      ensures PausedWithSeq(db, q, x) ==> x in Listed(db1, q) && db1.jobs[x].waitSeq == db.jobs[x].waitSeq
      ensures x in Listed(db1, q) && !PausedWithSeq(db, q, x) ==> db1.jobs[x].waitSeq != Some(0)
    {
      PromotedList(db, q, x);
    }
  }

  /** A retry that enters the list behind all rows, or not at all, or that of a running queue. */
  lemma RetriedElsewhere(db: Db, k: Key, lifo: bool, q: QueueId)
    requires InPlace(db) && k in db.jobs && db.jobs[k].state == Active
    requires !(lifo && db.jobs[k].priority <= 0 && k.queue == q && QueueOf(db, q).paused)
    ensures ListOrdered(db, q) ==> ListOrdered(RetryRow(db, k, lifo), q)
    ensures !(lifo && db.jobs[k].priority <= 0 && k.queue == q) && ListOrdered(RetryRow(db, k, lifo), q) ==>
      ListOrdered(db, q)
  {
    hide RetryRow, OwnAll, Listed, InPlace, AllPlaced, Enters, ListOrdered;
    var db' := RetryRow(db, k, lifo);
    RetryRowShape(db, k, lifo);
    PlacedAll(db);
    InPlaceAt(db, k);
    OrderedIsOwn(db, q);
    OrderedIsOwn(db', q);
    if lifo && db.jobs[k].priority <= 0 && k.queue == q {
      RetriedHead(db, k);
    } else {
      if k.queue == q { RetryEnters(db, k, lifo); }
      OneEnters(db, db', k, q, false, {});
      NoRest(Listed(db', q), Listed(db, q));
    }
  }

  lemma RetriedHead(db: Db, k: Key)
    requires InPlace(db) && k in db.jobs && db.jobs[k].priority <= 0 && !QueueOf(db, k.queue).paused
    ensures ListsKept(db, RetryRow(db, k, true))
  {
    hide ListsKept, OrderKept, Least, WaitSeqs, PeersDistinct;
    InPlaceAt(db, k);
    var j := db.jobs[k].(attemptsMade := db.jobs[k].attemptsMade + 1, lockToken := None, lockExpires := None);
    RetryHeadInPlace(db, k, j.(prioSeq := None));
  }

  lemma RetryEnters(db: Db, k: Key, lifo: bool)
    requires k in db.jobs && !(lifo && db.jobs[k].priority <= 0)
    ensures Enters(db, RetryRow(db, k, lifo).jobs[k], k, false)
  {
    hide PrioHead;
  }

  /** The state after the promotions of a retry. */
  lemma RetryPromoted(db: Db, k: Key, q: QueueId)
    requires InPlace(db) && k in db.jobs && db.jobs[k].state == Active
    ensures var db1 := PromoteDue(db, k.queue);
      && k in db1.jobs && db1.jobs[k] == db.jobs[k] && InPlace(db1)
        && QueueOf(db1, k.queue).paused == QueueOf(db, k.queue).paused
      && (ListOrdered(db1, q) <==> OwnAll(db1, Listed(db1, q)))
      && (ListOrdered(db1, q) <==>
            OwnAll(db, Listed(db, q) + Slipping(db, q, Sorted(ByDue, db.jobs, Due(db, k.queue)))))
  {
    hide InPlace, PromoteDue, OwnAll, Listed, Slipping, ListOrdered, Calm, CalmRow;
    var db1 := PromoteDue(db, k.queue);
    PromoteDueOwn(db, k.queue, q);
    OrderedIsOwn(db1, q);
    PromoteDueCalm(db, k.queue);
    assert k !in Due(db, k.queue);
    CalmInPlace(db, db1);
    InPlaceAt(db, k);
    CalmQueue(db, db1, k.queue);
  }

  lemma RetryListed(db: Db, op: Op, q: QueueId)
    requires InPlace(db) && ListOrdered(db, q) && op.OpRetry?
    ensures ListOrdered(Step(db, op), q) <==> Suits(db, op, q)
  {
    if HeldBy(db, op.key, op.token) {
      if TakesZero(db, op, q) { ZeroListed(db, op, q); } else { PlainRetryListed(db, op, q); }
    } else {
      hide InPlace, OwnAll, Listed, Slipping, ListOrdered;
      OrderedIsOwn(db, q);
      NoneMoved(db, q);
      NoRest(Listed(db, q), Listed(db, q));
    }
  }

  lemma RetrySteps(db: Db, op: Op)
    requires op.OpRetry? && HeldBy(db, op.key, op.token)
    ensures Step(db, op) == RetryRow(PromoteDue(db, op.key.queue), op.key, op.lifo)
    ensures Promotions(db, op) == Sorted(ByDue, db.jobs, Due(db, op.key.queue))
  {
    hide PromoteDue, RetryRow, Due;
  }

  lemma ZeroListed(db: Db, op: Op, q: QueueId)
    requires InPlace(db) && ListOrdered(db, q) && TakesZero(db, op, q)
    ensures ListOrdered(Step(db, op), q) <==> Suits(db, op, q)
  {
    hide InPlace, PromoteDue, RetryRow, OwnAll, Listed, Slipping, ListOrdered, Moved, Step;
    var k := op.key;
    RetrySteps(db, op);
    RetryPromoted(db, k, q);
    var db1 := PromoteDue(db, q);
    ZeroRetried(db1, k);
    if OwnAll(db1, Listed(db1, q)) {
      ZeroesPromoted(db, q);
      OwnRows(db, Listed(db, q) + Slipping(db, q, Promotions(db, op)));
    }
  }

  lemma OwnRows(db: Db, ks: set<Key>)
    requires OwnAll(db, ks)
    ensures forall k | k in ks :: k in db.jobs
  {}

  lemma PlainRetryListed(db: Db, op: Op, q: QueueId)
    requires InPlace(db) && ListOrdered(db, q) && op.OpRetry? && HeldBy(db, op.key, op.token) && !TakesZero(db, op, q)
    ensures ListOrdered(Step(db, op), q) <==> Suits(db, op, q)
  {
    hide InPlace, PromoteDue, RetryRow, OwnAll, Listed, Slipping, ListOrdered, Moved, Step;
    var k := op.key;
    RetrySteps(db, op);
    RetryPromoted(db, k, q);
    RetriedElsewhere(PromoteDue(db, k.queue), k, op.lifo, q);
    if k.queue == q && !QueueOf(db, q).paused {
      NoneSlips(db, q, q);
      OrderedIsOwn(db, q);
      NoRest(Listed(db, q), Listed(db, q));
    }
  }

  lemma ZeroRetried(db: Db, k: Key)
    requires InPlace(db) && k in db.jobs && db.jobs[k].state == Active && db.jobs[k].priority <= 0
    requires QueueOf(db, k.queue).paused
    ensures ListOrdered(RetryRow(db, k, true), k.queue) <==>
      OwnAll(db, Listed(db, k.queue)) && forall x | x in Listed(db, k.queue) :: db.jobs[x].waitSeq != Some(0)
  {
    hide RetryRow, OwnAll, Listed, ListOrdered;
    RetryRowUnderPause(db, k);
    ZeroEnters(db, RetryRow(db, k, true), k, k.queue);
    OrderedIsOwn(RetryRow(db, k, true), k.queue);
  }

  // ---------------------------------------------------------------- promotion by hand, batched moves

  lemma PromotionListed(db: Db, op: Op, q: QueueId)
    requires InPlace(db) && ListOrdered(db, q) && op.OpPromote?
    ensures ListOrdered(Step(db, op), q) <==> Suits(db, op, q)
  {
    hide InPlace, OwnAll, Listed, ListOrdered, AllPlaced, Enters, Slips, Promote;
    var k, db' := op.key, Promote(db, op.key).0;
    OrderedIsOwn(db, q);
    OrderedIsOwn(db', q);
    if k in db.jobs && db.jobs[k].state == Delayed {
      PlacedAll(db);
      HandEnters(db, k);
      SlipsThere(db, q, k);
      OneEnters(db, db', k, q, Slips(db, k.queue, k), {});
      NoRest(Listed(db', q), Listed(db, q));
      assert Slipping(db, q, [k]) == if Slips(db, q, k) then {k} else {};
      assert k.queue != q ==> Listed(db, q) + {} == Listed(db, q);
    } else {
      PromoteRefused(db, k);
      NoneMoved(db, q);
      NoRest(Listed(db, q), Listed(db, q));
    }
  }

  lemma PromoteRefused(db: Db, k: Key)
    requires !(k in db.jobs && db.jobs[k].state == Delayed)
    ensures Promote(db, k).0 == db
  {}

  lemma HandEnters(db: Db, k: Key)
    requires k in db.jobs && db.jobs[k].state == Delayed
    ensures var db' := Promote(db, k).0;
      && k in db'.jobs && db'.jobs == db.jobs[k := db'.jobs[k]]
      && Enters(db, db'.jobs[k], k, Slips(db, k.queue, k))
  {}

  lemma MovableUnlisted(db: Db, q: QueueId, st: JobState, n: nat, upTo: Millis)
    requires st == Delayed || st == Completed || st == Failed
    ensures AllUnlisted(db, FirstN(Sorted(BatchOrder(st), db.jobs, Movable(db, q, st, upTo)), n))
  {
    hide Sorted, FirstN;
    MovedListed(db, q, st, n, upTo);
  }

  lemma MoveListed(db: Db, op: Op, q: QueueId)
    requires InPlace(db) && ListOrdered(db, q) && op.OpMoveBatch?
    ensures ListOrdered(Step(db, op), q) <==> Suits(db, op, q)
  {
    hide InPlace, OwnAll, Listed, ListOrdered, Slipping, Sorted, FirstN, MoveSeq, Movable, AllUnlisted;
    var st := SourceState(op.from);
    var ks := FirstN(Sorted(BatchOrder(st), db.jobs, Movable(db, op.queue, st, op.upTo)), op.count);
    MovableUnlisted(db, op.queue, st, op.count, op.upTo);
    MovedOwn(db, ks, st, q, {});
    OrderedIsOwn(db, q);
    OrderedIsOwn(Step(db, op), q);
    NoneMoved(db, q);
    NoRest(Listed(db, q), Listed(Step(db, op), q));
    NoRest(Listed(db, q) + MoveSlips(db, q, ks, st), Listed(db, q));
  }

  // ---------------------------------------------------------------- every step, every run

  /** A step leaves a list in order so exactly when it suits it: no row slips in under a sequence that
      is absent or taken, and no LIFO retry takes a 0 that is taken. */
  lemma StepListed(db: Db, op: Op, q: QueueId)
    requires InPlace(db) && LeasesSound(db) && ListOrdered(db, q)
    ensures ListOrdered(Step(db, op), q) <==> Suits(db, op, q)
  {
    hide InPlace, Step, ListOrdered, OwnAll, Listed, Slipping;
    match op
    case OpClaim(_) => ClaimListed(db, op, q);
    case OpRetry(_, _, _) => RetryListed(db, op, q);
    case OpPromote(_) => PromotionListed(db, op, q);
    case OpMoveBatch(_, _, _, _) => MoveListed(db, op, q);
    case _ =>
      QuietListed(db, op);
      QuietSuits(db, op, q);
  }

  lemma QuietSuits(db: Db, op: Op, q: QueueId)
    requires ListOrdered(db, q) && !op.OpClaim? && !op.OpRetry? && !op.OpPromote? && !op.OpMoveBatch?
    ensures Suits(db, op, q)
  {
    hide OwnAll, Listed, Slipping, ListOrdered;
    OrderedIsOwn(db, q);
    NoneMoved(db, q);
    NoRest(Listed(db, q), Listed(db, q));
  }

  ghost predicate SuitsRun(db: Db, ops: seq<Op>, q: QueueId) {
    forall i | 0 <= i < |ops| :: Suits(At(db, ops, i), ops[i], q)
  }

  ghost predicate ListedThroughout(db: Db, ops: seq<Op>, q: QueueId) {
    forall i | 0 <= i <= |ops| :: ListOrdered(At(db, ops, i), q)
  }

  lemma ListedFront(db: Db, ops: seq<Op>, q: QueueId)
    requires ops != []
    ensures ListedThroughout(db, ops, q) <==> ListedThroughout(db, ops[..|ops| - 1], q) && ListOrdered(Run(db, ops), q)
  {
    hide Run, ListOrdered;
    var front, n := ops[..|ops| - 1], |ops|;
    assert ops[..n] == ops;
    forall i | 0 <= i < n ensures front[..i] == ops[..i] {}
    forall i | 0 <= i <= |front| ensures At(db, front, i) == At(db, ops, i) {}
    assert At(db, ops, n) == Run(db, ops);
  }

  lemma SuitsFront(db: Db, ops: seq<Op>, q: QueueId)
    requires ops != []
    ensures SuitsRun(db, ops, q) <==>
      SuitsRun(db, ops[..|ops| - 1], q) && Suits(Run(db, ops[..|ops| - 1]), ops[|ops| - 1], q)
  {
    hide Run, Suits;
    var front, n := ops[..|ops| - 1], |ops| - 1;
    forall i | 0 <= i < n ensures front[..i] == ops[..i] {}
    forall i | 0 <= i < n ensures At(db, front, i) == At(db, ops, i) {}
    assert At(db, ops, n) == Run(db, front);
  }

  lemma ListedLast(db: Db, ops: seq<Op>, q: QueueId)
    requires ListedThroughout(db, ops, q)
    ensures ListOrdered(Run(db, ops), q)
  {
    hide Run, ListOrdered;
    assert ops[..|ops|] == ops;
    assert At(db, ops, |ops|) == Run(db, ops);
  }

  /** The list of a queue stays in order throughout a run, pauses included, exactly when every step of
      the run suits it. */
  lemma {:induction false} RunListed(db: Db, ops: seq<Op>, q: QueueId)
    requires InPlace(db) && LeasesSound(db) && ListOrdered(db, q)
    ensures ListedThroughout(db, ops, q) <==> SuitsRun(db, ops, q)
  {
    hide Step, Suits, ListOrdered, InPlace, LeasesSound;
    if ops == [] {
      assert At(db, ops, 0) == db;
    } else {
      hide SuitsRun, ListedThroughout;
      var front, op := ops[..|ops| - 1], ops[|ops| - 1];
      RunListed(db, front, q);
      ListedFront(db, ops, q);
      SuitsFront(db, ops, q);
      RunInPlace(db, front);
      RunSound(db, front);
      if ListedThroughout(db, front, q) {
        ListedLast(db, front, q);
        StepListed(Run(db, front), op, q);
      }
    }
  }

  /** In every state reached by steps that suit the list, paused or not, one of any two claimable rows
      comes first. */
  lemma ClaimOrderIsTotal(db: Db, ops: seq<Op>, x: Key, y: Key)
    requires Initial(db) && SuitsRun(db, ops, x.queue) && x != y && x.queue == y.queue
    requires x in Run(db, ops).jobs && y in Run(db, ops).jobs
    requires Claimable(Run(db, ops).jobs[x]) && Claimable(Run(db, ops).jobs[y])
    ensures ClaimsBefore(Run(db, ops).jobs[x], Run(db, ops).jobs[y])
      || ClaimsBefore(Run(db, ops).jobs[y], Run(db, ops).jobs[x])
  {
    hide Step, Run, InPlace, ListOrdered, LeasesSound, ClaimsBefore, SuitsRun, ListedThroughout;
    InitialListed(db, x.queue);
    RunListed(db, ops, x.queue);
    ListedLast(db, ops, x.queue);
    RunInPlace(db, ops);
    ClaimsBeforeIsTotal(Run(db, ops), x, y);
  }

  lemma InitialListed(db: Db, q: QueueId)
    requires Initial(db)
    ensures InPlace(db) && LeasesSound(db) && ListOrdered(db, q)
  {}

  /** So any two claims that succeed there take the same row. */
  lemma ClaimIsDetermined(db: Db, ops: seq<Op>, a: ClaimArgs, b: ClaimArgs)
    requires Initial(db) && SuitsRun(db, ops, a.queue) && a.queue == b.queue
    requires Takes(Run(db, ops), a) && Takes(Run(db, ops), b)
    ensures a.pick == b.pick
  {
    hide Step, Run, InPlace, ListOrdered, LeasesSound, ClaimsBefore, SuitsRun, ListedThroughout, OrderKept;
    var end, q := Run(db, ops), a.queue;
    InitialListed(db, q);
    RunListed(db, ops, q);
    ListedLast(db, ops, q);
    RunInPlace(db, ops);
    DeterminedHere(end, a, b);
  }

  lemma DeterminedHere(db: Db, a: ClaimArgs, b: ClaimArgs)
    requires InPlace(db) && ListOrdered(db, a.queue) && Takes(db, a) && Takes(db, b) && a.queue == b.queue
    ensures a.pick == b.pick
  {
    hide InPlace, ListOrdered, ClaimsBefore, LiveLeases, Throttled, Prepared;
    var q := a.queue;
    TakesRunning(db, a);
    PreparedInPlace(db, q);
    var db1 := Prepared(db, q);
    assert WaitOrdered(db1, q);
    if a.pick != b.pick { ClaimsBeforeIsTotal(db1, a.pick, b.pick); }
  }

  /** While the queue runs every step but the pause suits its list, so in a run without a pause the
      claim order is total. */
  lemma {:induction false} RunningSuits(db: Db, ops: seq<Op>, q: QueueId)
    requires InPlace(db) && LeasesSound(db) && WaitOrdered(db, q) && NeverPauses(ops, q)
    ensures SuitsRun(db, ops, q)
  {
    hide Step, Suits, InPlace, LeasesSound, ListOrdered;
    forall i | 0 <= i <= |ops| ensures ListOrdered(At(db, ops, i), q) {
      assert forall j | 0 <= j < |ops[..i]| :: !Pauses(ops[..i][j], q);
      RunOrdered(db, ops[..i], q);
    }
    RunListed(db, ops, q);
  }

  /** In every reachable state of a queue never paused the claim order is total. */
  lemma UnpausedClaimOrderIsTotal(db: Db, ops: seq<Op>, x: Key, y: Key)
    requires Initial(db) && !QueueOf(db, x.queue).paused && NeverPauses(ops, x.queue) && x != y && x.queue == y.queue
    requires x in Run(db, ops).jobs && y in Run(db, ops).jobs
    requires Claimable(Run(db, ops).jobs[x]) && Claimable(Run(db, ops).jobs[y])
    ensures ClaimsBefore(Run(db, ops).jobs[x], Run(db, ops).jobs[y])
      || ClaimsBefore(Run(db, ops).jobs[y], Run(db, ops).jobs[x])
  {
    hide Step, Run, InPlace, ListOrdered, LeasesSound, ClaimsBefore, SuitsRun;
    InitialOrdered(db, x.queue);
    RunningSuits(db, ops, x.queue);
    ClaimOrderIsTotal(db, ops, x, y);
  }
}

/** Where a waiting row stands: the list its queue's pause flag selects, sequence numbers that
    its queue's counters have handed out, and in a running queue no two under one number. */
module Places {
  import opened Rows
  import opened Tables

  /** Paused queues have no row in `wait`, running ones none in `paused`; sequences lie below
      the counters, and a prioritized row has one. */
  predicate Placed(q: Queue, j: Job) {
    && (j.state == Wait ==> !q.paused)
    && (j.state == Paused ==> q.paused)
    && (j.state == Prioritized ==> j.prioSeq.Some?)
    && (j.waitSeq.Some? ==> j.waitSeq.value <= q.waitNum)
    && (j.prioSeq.Some? ==> j.prioSeq.value <= q.prioNum)
  }

  ghost predicate AllPlaced(db: Db) {
    forall k | k in db.jobs :: k.queue in db.queues && Placed(db.queues[k.queue], db.jobs[k])
  }

  predicate Peers(db: Db, x: Key, y: Key)
    requires x in db.jobs && y in db.jobs
  {
    x != y && x.queue == y.queue && db.jobs[x].state == Prioritized && db.jobs[y].state == Prioritized
    && db.jobs[x].priority == db.jobs[y].priority
  }

  /** Prioritized rows of one queue and priority have distinct sequences. */
  ghost predicate PeersDistinct(db: Db) {
    forall x, y | x in db.jobs && y in db.jobs && Peers(db, x, y) :: db.jobs[x].prioSeq != db.jobs[y].prioSeq
  }

  ghost predicate InPlace(db: Db) {
    AllPlaced(db) && PeersDistinct(db)
  }

  /** In the wait list of the queue, paused or not. */
  predicate InList(db: Db, q: QueueId, k: Key) {
    k in db.jobs && k.queue == q && Queued(db.jobs[k])
  }

  /** All rows in the list have a sequence, and no two the same. */
  ghost predicate ListOrdered(db: Db, q: QueueId) {
    && (forall k | InList(db, q, k) :: db.jobs[k].waitSeq.Some?)
    && (forall x, y | InList(db, q, x) && InList(db, q, y) && x != y :: db.jobs[x].waitSeq != db.jobs[y].waitSeq)
  }

  /** A running queue with its list in order. */
  ghost predicate WaitOrdered(db: Db, q: QueueId) {
    !QueueOf(db, q).paused && ListOrdered(db, q)
  }

  ghost predicate OrderKept(db: Db, db': Db) {
    forall q | WaitOrdered(db, q) :: WaitOrdered(db', q)
  }

  /** Lists in order stay so, those of paused queues as well. */
  ghost predicate ListsKept(db: Db, db': Db) {
    forall q | ListOrdered(db, q) :: ListOrdered(db', q)
  }

  /** From a state in place to one in place, with the order of every running queue kept. */
  ghost predicate PlacesKept(db: Db, db': Db) {
    InPlace(db) ==> InPlace(db') && OrderKept(db, db')
  }

  /** Counters only grow; the pause flag stays. */
  ghost predicate CountersGrow(db: Db, db': Db) {
    forall q | q in db.queues :: q in db'.queues && db'.queues[q].waitNum >= db.queues[q].waitNum
      && db'.queues[q].prioNum >= db.queues[q].prioNum && db'.queues[q].paused == db.queues[q].paused
  }

  /** Queues that are new run. */
  ghost predicate FlagsKept(db: Db, db': Db) {
    forall q :: QueueOf(db', q).paused == QueueOf(db, q).paused
  }

  lemma SubsetListed(db: Db, db': Db)
    requires forall k | k in db'.jobs :: k in db.jobs && SamePlace(db.jobs[k], db'.jobs[k])
    ensures ListsKept(db, db')
  {
    forall q | ListOrdered(db, q) ensures ListOrdered(db', q) {
      forall k | InList(db', q, k) ensures InList(db, q, k) && db'.jobs[k].waitSeq == db.jobs[k].waitSeq {}
    }
  }

  lemma SubsetOrdered(db: Db, db': Db)
    requires FlagsKept(db, db')
    requires forall k | k in db'.jobs :: k in db.jobs && SamePlace(db.jobs[k], db'.jobs[k])
    ensures OrderKept(db, db')
  {
    hide QueueOf, ListOrdered;
    SubsetListed(db, db');
  }

  /** No other row in the list of the queue has the sequence of `j`. */
  ghost predicate OwnSeq(db: Db, k: Key, j: Job) {
    j.waitSeq.Some? && forall x | InList(db, k.queue, x) && x != k :: db.jobs[x].waitSeq != j.waitSeq
  }

  /** One row written: outside the list, or in it under a sequence no other row there has. */
  lemma PutListed(db: Db, k: Key, j: Job, q: QueueId)
    requires ListOrdered(db, q) && (Queued(j) && k.queue == q ==> OwnSeq(db, k, j))
    ensures ListOrdered(Put(db, k, j), q)
  {
    var db' := Put(db, k, j);
    forall x | InList(db', q, x) && x != k ensures InList(db, q, x) && db'.jobs[x] == db.jobs[x] {}
  }

  lemma PutOrdered(db: Db, k: Key, j: Job)
    requires Queued(j) && WaitOrdered(db, k.queue) ==> OwnSeq(db, k, j)
    ensures OrderKept(db, Put(db, k, j))
  {
    hide ListOrdered, OwnSeq;
    forall q | WaitOrdered(db, q) ensures WaitOrdered(Put(db, k, j), q) { PutListed(db, k, j, q); }
  }

  lemma PutListsKept(db: Db, k: Key, j: Job)
    requires Queued(j) ==> OwnSeq(db, k, j)
    ensures ListsKept(db, Put(db, k, j))
  {
    hide ListOrdered, OwnSeq;
    forall q | ListOrdered(db, q) ensures ListOrdered(Put(db, k, j), q) { PutListed(db, k, j, q); }
  }

  lemma ListsTrans(a: Db, b: Db, c: Db)
    requires ListsKept(a, b) && ListsKept(b, c)
    ensures ListsKept(a, c)
  {
    hide ListOrdered;
  }

  lemma OrderTrans(a: Db, b: Db, c: Db)
    requires OrderKept(a, b) && OrderKept(b, c)
    ensures OrderKept(a, c)
  {
    hide WaitOrdered;
  }

  lemma PlacesTrans(a: Db, b: Db, c: Db)
    requires PlacesKept(a, b) && PlacesKept(b, c)
    ensures PlacesKept(a, c)
  {
    hide OrderKept, InPlace;
    if InPlace(a) { OrderTrans(a, b, c); }
  }

  /** Rows taken from a state in place, some removed, none moved. */
  lemma SubsetInPlace(db: Db, db': Db)
    requires InPlace(db) && CountersGrow(db, db') && FlagsKept(db, db')
    requires forall k | k in db'.jobs :: k in db.jobs && SamePlace(db.jobs[k], db'.jobs[k])
    ensures InPlace(db') && OrderKept(db, db') && ListsKept(db, db')
  {
    hide WaitOrdered, ListOrdered, FlagsKept;
    SubsetOrdered(db, db');
    SubsetListed(db, db');
    forall x, y | x in db'.jobs && y in db'.jobs && Peers(db', x, y)
      ensures db'.jobs[x].prioSeq != db'.jobs[y].prioSeq {
      assert Peers(db, x, y);
    }
  }

  /** The same standing, or none. */
  predicate SamePlace(j: Job, j': Job) {
    || (j'.state == j.state && j'.waitSeq == j.waitSeq && j'.prioSeq == j.prioSeq && j'.priority == j.priority)
    || Unplaced(j, j')
  }

  predicate Unplaced(j: Job, j': Job) {
    j'.state != Wait && j'.state != Paused && j'.state != Prioritized
    && (j'.waitSeq == j.waitSeq || j'.waitSeq.None?) && (j'.prioSeq == j.prioSeq || j'.prioSeq.None?)
  }

  /** One row written, in place and unlike its peers. */
  lemma PutInPlace(db: Db, k: Key, j: Job)
    requires InPlace(db) && k.queue in db.queues && Placed(db.queues[k.queue], j)
    requires forall x | x in db.jobs && x != k && x.queue == k.queue && db.jobs[x].state == Prioritized
      && j.state == Prioritized && db.jobs[x].priority == j.priority :: db.jobs[x].prioSeq != j.prioSeq
    requires Queued(j) && WaitOrdered(db, k.queue) ==> OwnSeq(db, k, j)
    ensures InPlace(Put(db, k, j)) && OrderKept(db, Put(db, k, j))
  {
    hide WaitOrdered, OwnSeq;
    PutOrdered(db, k, j);
    var db' := Put(db, k, j);
    forall x, y | x in db'.jobs && y in db'.jobs && Peers(db', x, y)
      ensures db'.jobs[x].prioSeq != db'.jobs[y].prioSeq {
      if x != k && y != k { assert Peers(db, x, y); }
    }
  }

  lemma BumpInPlace(db: Db, q: QueueId)
    requires InPlace(db)
    ensures InPlace(BumpWait(db, q)) && InPlace(BumpPrio(db, q))
    ensures OrderKept(db, BumpWait(db, q)) && OrderKept(db, BumpPrio(db, q))
    ensures ListsKept(db, BumpWait(db, q)) && ListsKept(db, BumpPrio(db, q))
  {
    hide WaitOrdered, ListOrdered;
    SubsetInPlace(db, BumpWait(db, q));
    SubsetInPlace(db, BumpPrio(db, q));
  }

  /** A sequence beyond the counter is no row's yet. */
  lemma FreshIsOwn(db: Db, k: Key, j: Job)
    requires AllPlaced(db) && j.waitSeq.Some? && j.waitSeq.value > QueueOf(db, k.queue).waitNum
    ensures OwnSeq(db, k, j)
  {
    forall x | InList(db, k.queue, x) && x != k ensures db.jobs[x].waitSeq != j.waitSeq {
      assert Placed(db.queues[x.queue], db.jobs[x]);
    }
  }

  lemma EnqueueInPlace(db: Db, k: Key, j: Job)
    requires InPlace(db) && k.queue in db.queues
    requires j.prioSeq.Some? ==> j.prioSeq.value <= db.queues[k.queue].prioNum
    ensures InPlace(Enqueue(db, k, j)) && OrderKept(db, Enqueue(db, k, j)) && ListsKept(db, Enqueue(db, k, j))
  {
    hide WaitOrdered, ListOrdered, OwnSeq;
    var q := QueueOf(db, k.queue);
    var db1, j1 := BumpWait(db, k.queue), j.(state := Route(q), waitSeq := Some(q.waitNum + 1));
    BumpInPlace(db, k.queue);
    FreshIsOwn(db, k, j1);
    SameRowsOwn(db, db1, k, j1);
    PutInPlace(db1, k, j1);
    OrderTrans(db, db1, Put(db1, k, j1));
    PutListsKept(db1, k, j1);
    ListsTrans(db, db1, Put(db1, k, j1));
  }

  lemma SameRowsOwn(db: Db, db': Db, k: Key, j: Job)
    requires db'.jobs == db.jobs && OwnSeq(db, k, j)
    ensures OwnSeq(db', k, j)
  {
    forall x | InList(db', k.queue, x) ensures InList(db, k.queue, x) {}
  }

  lemma PrioritizeInPlace(db: Db, k: Key, j: Job, state: JobState)
    requires InPlace(db) && k.queue in db.queues
    requires state == Prioritized || (state == Paused && db.queues[k.queue].paused)
    requires j.waitSeq.Some? ==> j.waitSeq.value <= db.queues[k.queue].waitNum
    ensures InPlace(Prioritize(db, k, j, state)) && OrderKept(db, Prioritize(db, k, j, state))
    ensures state == Prioritized ==> ListsKept(db, Prioritize(db, k, j, state))
  {
    hide ListOrdered, OwnSeq;
    BumpInPlace(db, k.queue);
    var q := QueueOf(db, k.queue);
    var db1, j1 := BumpPrio(db, k.queue), j.(state := state, prioSeq := Some(q.prioNum + 1));
    PutInPlace(db1, k, j1);
    OrderTrans(db, db1, Put(db1, k, j1));
    if state == Prioritized {
      PutListsKept(db1, k, j1);
      ListsTrans(db, db1, Put(db1, k, j1));
    }
  }

  lemma DeleteInPlace(db: Db, s: set<Key>)
    requires InPlace(db)
    ensures InPlace(DeleteJobs(db, s)) && OrderKept(db, DeleteJobs(db, s)) && ListsKept(db, DeleteJobs(db, s))
  {
    hide WaitOrdered, ListOrdered;
    SubsetInPlace(db, DeleteJobs(db, s));
  }

  /** The head of a priority lies before all its peers and within the counter. */
  lemma PrioHeadFits(db: Db, q: QueueId, priority: int, k: Key)
    requires AllPlaced(db) && q in db.queues
    ensures var h := PrioHead(db, q, priority, k);
      && h <= db.queues[q].prioNum
      && forall x | x in db.jobs && x != k && x.queue == q && db.jobs[x].state == Prioritized
        && db.jobs[x].priority == priority ::
           h < db.jobs[x].prioSeq.value
  {
    var s := PrioSeqs(db, q, priority, k);
    forall x | x in db.jobs && x != k && x.queue == q && db.jobs[x].state == Prioritized
      && db.jobs[x].priority == priority
      ensures db.jobs[x].prioSeq.value in s
    {}
    var m := Least(s);
    if m.Some? {
      var x :| x in db.jobs && x.queue == q && db.jobs[x].state == Prioritized && db.jobs[x].prioSeq == Some(m.value);
      assert Placed(db.queues[q], db.jobs[x]);
    }
  }

  lemma WaitHeadFits(db: Db, q: QueueId, states: set<JobState>, except: Option<Key>)
    requires AllPlaced(db) && q in db.queues
    ensures var m := Least(WaitSeqs(db, q, states, except));
      m.Some? ==> m.value <= db.queues[q].waitNum
  {
    var m := Least(WaitSeqs(db, q, states, except));
    if m.Some? {
      var x :| x in db.jobs && x.queue == q && db.jobs[x].waitSeq == Some(m.value);
      assert Placed(db.queues[q], db.jobs[x]);
    }
  }

  /** One below the least sequence among rows that take in the whole list is no row's. */
  lemma HeadIsOwn(db: Db, k: Key, states: set<JobState>, except: Option<Key>, j: Job)
    requires forall x | InList(db, k.queue, x) :: db.jobs[x].state in states
    requires except.Some? ==> except.value == k
    requires var m := Least(WaitSeqs(db, k.queue, states, except)); m.Some? && j.waitSeq == Some(m.value - 1)
    ensures OwnSeq(db, k, j)
  {
    var seqs := WaitSeqs(db, k.queue, states, except);
    forall x | InList(db, k.queue, x) && x != k ensures db.jobs[x].waitSeq != j.waitSeq {
      assert db.jobs[x].waitSeq.Some? ==> db.jobs[x].waitSeq.value in seqs;
    }
  }

  /** The list of a queue is all in `wait` or all in `paused`. */
  lemma ListRouted(db: Db, q: QueueId)
    requires AllPlaced(db)
    ensures forall x | InList(db, q, x) :: db.jobs[x].state == Route(QueueOf(db, q))
  {
    forall x | InList(db, q, x) ensures db.jobs[x].state == Route(QueueOf(db, q)) {
      assert Placed(db.queues[x.queue], db.jobs[x]);
    }
  }
}

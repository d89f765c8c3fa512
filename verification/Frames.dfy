/** What a step leaves alone. A calm change touches no lease, no attempt counter and no
    outcome, and keeps the place of a row that is waiting its turn. */
module Frames {
  import opened Rows
  import opened Ordering
  import opened Tables
  import opened Places
  import opened Linking
  import opened Adding
  import opened Claiming
  import opened Flows
  import opened Machine

  datatype Phase = Idle | Running | Succeeded | Dead

  function PhaseOf(j: Job): Phase {
    match j.state
    case Active => Running
    case Completed => Succeeded
    case Failed => Dead
    case _ => Idle
  }

  predicate CalmRow(j: Job, j': Job) {
    && j'.pk == j.pk && j'.payload == j.payload && j'.maxAttempts == j.maxAttempts
    && PhaseOf(j') == PhaseOf(j)
    && j'.lockToken == j.lockToken && j'.lockExpires == j.lockExpires
    && j'.attemptsMade == j.attemptsMade && j'.attemptsStarted == j.attemptsStarted && j'.stalled == j.stalled
    && j'.finishedOn == j.finishedOn
    && (Queued(j) ==> Queued(j') && j'.waitSeq == j.waitSeq)
    && (j.state == Prioritized ==> j'.state == Prioritized && j'.prioSeq == j.prioSeq && j'.priority == j.priority)
    && (j'.state == Parked ==> j.state == Parked)
  }

  predicate Newborn(j: Job) {
    PhaseOf(j) == Idle && j.lockToken.None? && j.lockExpires.None? && j.finishedOn.None?
    && j.attemptsMade == 0 && j.attemptsStarted == 0 && j.stalled == 0
    && j.maxAttempts == j.payload.opts.attempts
  }

  /** A row that waits for its time or for its children, so that queueing it is calm. */
  predicate Resting(j: Job, j': Job) {
    (j.state == Delayed || j.state == Parked) && CalmRow(j, j') && (j'.prioSeq == j.prioSeq || j'.prioSeq.None?)
    && (j'.waitSeq == j.waitSeq || j'.waitSeq.None?)
  }

  ghost predicate Carried(db: Db, db': Db, k: Key) {
    k in db.jobs && k in db'.jobs && CalmRow(db.jobs[k], db'.jobs[k])
  }

  /** A row that becomes prioritized calmly takes a sequence no row has had yet. */
  ghost predicate EntersAtTail(db: Db, db': Db, k: Key)
    requires k in db'.jobs
  {
    db'.jobs[k].state == Prioritized ==>
      || (Carried(db, db', k) && db.jobs[k].state == Prioritized)
      || (db'.jobs[k].prioSeq.Some? && db'.jobs[k].prioSeq.value > QueueOf(db, k.queue).prioNum)
  }

  ghost predicate KeptOrNew(db: Db, db': Db, k: Key)
    requires k in db'.jobs
  {
    && (Carried(db, db', k) || (db.nextPk <= db'.jobs[k].pk < db'.nextPk && Newborn(db'.jobs[k])))
    && EntersAtTail(db, db', k)
  }

  /** Rows are calm, new, or removed; a leased row is never removed. */
  ghost predicate RowsCalm(db: Db, db': Db) {
    && db'.nextPk >= db.nextPk
    && (forall k | k in db'.jobs :: KeptOrNew(db, db', k))
    && (forall k | k in db.jobs && db.jobs[k].state == Active :: Carried(db, db', k))
  }

  predicate QueueGrows(q: Queue, q': Queue) {
    q'.waitNum >= q.waitNum && q'.prioNum >= q.prioNum && q'.jobNum >= q.jobNum
    && q'.paused == q.paused && q'.concurrency == q.concurrency && q'.limiter == q.limiter && q'.window == q.window
  }

  ghost predicate QueuesCalm(db: Db, db': Db) {
    db'.now == db.now && forall q | q in db.queues :: q in db'.queues && QueueGrows(db.queues[q], db'.queues[q])
  }

  ghost predicate Calm(db: Db, db': Db) {
    RowsCalm(db, db') && QueuesCalm(db, db') && PlacesKept(db, db')
  }

  lemma CalmTrans(a: Db, b: Db, c: Db)
    requires Calm(a, b) && Calm(b, c)
    ensures Calm(a, c)
  {
    hide CalmRow, Newborn, PlacesKept;
    PlacesTrans(a, b, c);
    forall k | k in c.jobs ensures KeptOrNew(a, c, k) {
      assert KeptOrNew(b, c, k);
      if k in b.jobs { assert KeptOrNew(a, b, k); }
      CalmRowTrans(a, b, c, k);
    }
    forall k | k in a.jobs && a.jobs[k].state == Active ensures Carried(a, c, k) {
      assert Carried(a, b, k);
      CalmRowTrans(a, b, c, k);
    }
  }

  lemma CalmRowTrans(a: Db, b: Db, c: Db, k: Key)
    ensures Carried(a, b, k) && Carried(b, c, k) ==> Carried(a, c, k)
    ensures k in b.jobs && Newborn(b.jobs[k]) && Carried(b, c, k) ==> Newborn(c.jobs[k]) && c.jobs[k].pk == b.jobs[k].pk
    ensures Carried(a, b, k) && a.jobs[k].state == Active ==> b.jobs[k].state == Active
    ensures Carried(b, c, k) && b.jobs[k].state == Prioritized ==>
      c.jobs[k].state == Prioritized && c.jobs[k].prioSeq == b.jobs[k].prioSeq
  {}

  lemma CalmRefl(db: Db)
    ensures Calm(db, db)
  {
    hide WaitOrdered, ListOrdered;
  }

  // ---------------------------------------------------------------- edges

  /** The very row, still there. */
  ghost predicate SameRow(db: Db, db': Db, k: Key) {
    k in db.jobs && k in db'.jobs && db.jobs[k].pk < db.nextPk && db'.jobs[k].pk == db.jobs[k].pk
  }

  /** The foreign keys: an edge's parent exists, and so does the child it is linked to. */
  ghost predicate Grounded(db: Db) {
    forall i | i in db.edges :: db.edges[i].parent in db.jobs && (db.edges[i].linked ==> db.edges[i].child in db.jobs)
  }

  ghost predicate StillThere(db: Db, db': Db, k: Key) {
    k in db.jobs && db.jobs[k].pk < db.nextPk ==> SameRow(db, db', k)
  }

  /** The edge is there with its status; a link that remains is a link to the very row. */
  ghost predicate EdgeKept(db: Db, db': Db, i: nat)
    requires i in db.edges
  {
    && i in db'.edges
    && db'.edges[i].parent == db.edges[i].parent && db'.edges[i].child == db.edges[i].child
    && db'.edges[i].status == db.edges[i].status
    && (db'.edges[i].linked ==> db.edges[i].linked && StillThere(db, db', db.edges[i].child))
  }

  /** No edge of a parent that stays is settled or lost, and a parked parent moves on only if
      nothing blocked it. */
  ghost predicate EdgesCalm(db: Db, db': Db) {
    && db'.nextPk >= db.nextPk && db'.nextEdge >= db.nextEdge
    && (EdgesNumbered(db) ==> EdgesNumbered(db'))
    && (Grounded(db) ==> Grounded(db'))
    && (forall i | i in db.edges && i < db.nextEdge && SameRow(db, db', db.edges[i].parent) :: EdgeKept(db, db', i))
    && (forall i | i in db.edges && i < db.nextEdge && SameRow(db, db', db.edges[i].parent) && Blocking(db.edges[i])
          && db.jobs[db.edges[i].parent].state == Parked :: db'.jobs[db.edges[i].parent].state == Parked)
  }

  /** Lists in order stay so, whether their queue runs or not. */
  ghost predicate StaysListed(db: Db, db': Db) {
    InPlace(db) ==> ListsKept(db, db')
  }

  ghost predicate Gentle(db: Db, db': Db) {
    Calm(db, db') && EdgesCalm(db, db') && StaysListed(db, db')
  }

  lemma SameRowTrans(a: Db, b: Db, c: Db, k: Key)
    requires RowsCalm(a, b) && RowsCalm(b, c) && SameRow(a, c, k)
    ensures SameRow(a, b, k) && SameRow(b, c, k)
  {
    assert KeptOrNew(b, c, k);
    assert KeptOrNew(a, b, k);
  }

  lemma EdgesCalmTrans(a: Db, b: Db, c: Db)
    requires RowsCalm(a, b) && RowsCalm(b, c) && EdgesCalm(a, b) && EdgesCalm(b, c)
    ensures EdgesCalm(a, c)
  {
    forall i | i in a.edges && i < a.nextEdge && SameRow(a, c, a.edges[i].parent)
      ensures EdgeKept(a, c, i)
      ensures Blocking(a.edges[i]) && a.jobs[a.edges[i].parent].state == Parked ==>
        c.jobs[a.edges[i].parent].state == Parked
    {
      SameRowTrans(a, b, c, a.edges[i].parent);
      assert EdgeKept(a, b, i) && EdgeKept(b, c, i);
    }
  }

  lemma GentleTrans(a: Db, b: Db, c: Db)
    requires Gentle(a, b) && Gentle(b, c)
    ensures Gentle(a, c)
  {
    hide RowsCalm, EdgesCalm, InPlace, ListsKept, OrderKept;
    CalmTrans(a, b, c);
    EdgesCalmTrans(a, b, c);
    if InPlace(a) { ListsTrans(a, b, c); }
  }

  lemma GentleRefl(db: Db)
    ensures Gentle(db, db)
  {
    hide ListOrdered;
  }

  lemma ListsStay(db: Db, db': Db)
    requires ListsKept(db, db')
    ensures StaysListed(db, db')
  {
    hide ListsKept;
  }

  lemma ListedTrans(a: Db, b: Db, c: Db)
    requires Calm(a, b) && StaysListed(a, b) && StaysListed(b, c)
    ensures StaysListed(a, c)
  {
    hide RowsCalm, InPlace, ListsKept, OrderKept;
    if InPlace(a) { ListsTrans(a, b, c); }
  }

  /** The rows and nothing else decide about the lists. */
  lemma SameRowsListed(db: Db, db': Db)
    requires db'.jobs == db.jobs
    ensures StaysListed(db, db')
  {
    SubsetListed(db, db');
  }

  // ---------------------------------------------------------------- building blocks

  lemma SameRowsGentle(db: Db, db': Db)
    requires db'.jobs == db.jobs && db'.queues == db.queues && db'.now == db.now && db'.nextPk == db.nextPk
    requires db'.edges == db.edges && db'.nextEdge == db.nextEdge
    ensures Gentle(db, db')
  {
    hide Calm, StaysListed;
    SameRowsCalm(db, db');
    SameRowsListed(db, db');
  }

  lemma SameRowsCalm(db: Db, db': Db)
    requires db'.jobs == db.jobs && db'.queues == db.queues && db'.now == db.now && db'.nextPk == db.nextPk
    ensures Calm(db, db')
  {
    if InPlace(db) { SubsetInPlace(db, db'); }
  }

  /** One row rewritten calmly. */
  lemma RowCalm(db: Db, db': Db, k: Key)
    requires k in db.jobs && k in db'.jobs && db'.jobs == db.jobs[k := db'.jobs[k]] && db'.nextPk == db.nextPk
    requires CalmRow(db.jobs[k], db'.jobs[k]) && EntersAtTail(db, db', k)
    requires QueuesCalm(db, db') && PlacesKept(db, db')
    ensures Calm(db, db')
  {
    forall x | x in db'.jobs ensures KeptOrNew(db, db', x) {}
  }

  lemma PutCalm(db: Db, k: Key, j: Job)
    requires k in db.jobs && CalmRow(db.jobs[k], j) && SamePlace(db.jobs[k], j)
    ensures Calm(db, Put(db, k, j))
  {
    if InPlace(db) { SubsetInPlace(db, Put(db, k, j)); }
    RowCalm(db, Put(db, k, j), k);
  }

  lemma BumpCalm(db: Db, q: QueueId)
    ensures Calm(db, BumpWait(db, q)) && Calm(db, BumpPrio(db, q))
  {
    if InPlace(db) { BumpInPlace(db, q); }
  }

  lemma EnqueueCalm(db: Db, k: Key, j: Job)
    requires k in db.jobs && Resting(db.jobs[k], j)
    ensures Calm(db, Enqueue(db, k, j))
  {
    if InPlace(db) { EnqueueInPlace(db, k, j); }
    RowCalm(db, Enqueue(db, k, j), k);
  }

  lemma PrioritizeCalm(db: Db, k: Key, j: Job, state: JobState)
    requires k in db.jobs && Resting(db.jobs[k], j)
    requires state == Prioritized || (state == Paused && QueueOf(db, k.queue).paused)
    ensures Calm(db, Prioritize(db, k, j, state))
  {
    if InPlace(db) { PrioritizeInPlace(db, k, j, state); }
    RowCalm(db, Prioritize(db, k, j, state), k);
  }

  lemma DeleteGentle(db: Db, s: set<Key>)
    requires forall k | k in s && k in db.jobs :: db.jobs[k].state != Active
    ensures Gentle(db, DeleteJobs(db, s))
  {
    var db' := DeleteJobs(db, s);
    hide OrderKept, ListsKept;
    if InPlace(db) { DeleteInPlace(db, s); }
    forall k | k in db'.jobs ensures KeptOrNew(db, db', k) {}
  }

  // ---------------------------------------------------------------- parents

  lemma ReleaseParentCalm(db: Db, p: Key)
    requires p in db.jobs
    ensures Calm(db, ReleaseParent(db, p))
  {
    hide Calm;
    CalmRefl(db);
    var j := db.jobs[p];
    if j.state == Parked {
      PutCalm(db, p, j.(state := Delayed, processAt := Some(db.now + j.delayMs), waitSeq := None, prioSeq := None));
      PrioritizeCalm(db, p, j.(waitSeq := None), Prioritized);
      EnqueueCalm(db, p, j);
    }
  }

  lemma ReleaseUnblockedGentle(db: Db, p: Key)
    requires p in db.jobs && !HasBlockingEdge(db, p)
    ensures Gentle(db, ReleaseParent(db, p))
  {
    hide Calm, ReleaseParent, StaysListed;
    ReleaseParentCalm(db, p);
    ReleaseParentListed(db, p);
    ReleaseParentShape(db, p);
    CalmKeepsRows(db, ReleaseParent(db, p));
  }

  lemma CalmKeepsRows(db: Db, db': Db)
    requires Calm(db, db')
    ensures RowsCalm(db, db')
  {}

  lemma ReleaseParentListed(db: Db, p: Key)
    requires p in db.jobs
    ensures StaysListed(db, ReleaseParent(db, p))
  {
    hide ListsKept, OrderKept, PeersDistinct;
    SameRowsListed(db, db);
    var j := db.jobs[p];
    if InPlace(db) && j.state == Parked {
      assert Placed(db.queues[p.queue], j);
      DelayedListed(db, p,
        j.(state := Delayed, processAt := Some(db.now + j.delayMs), waitSeq := None, prioSeq := None));
      PrioritizeInPlace(db, p, j.(waitSeq := None), Prioritized);
      EnqueueInPlace(db, p, j);
    }
  }

  lemma DelayedListed(db: Db, k: Key, j: Job)
    requires !Queued(j)
    ensures ListsKept(db, Put(db, k, j))
  {
    PutListsKept(db, k, j);
  }

  lemma ReleaseParentShape(db: Db, p: Key)
    requires p in db.jobs
    ensures var db' := ReleaseParent(db, p);
      && db'.jobs.Keys == db.jobs.Keys && db'.edges == db.edges && db'.nextEdge == db.nextEdge
        && db'.nextPk == db.nextPk
      && db'.dedups == db.dedups && db'.now == db.now
      && (forall x | x in db.jobs && x != p :: db'.jobs[x] == db.jobs[x])
      && db'.jobs[p].pk == db.jobs[p].pk && db'.jobs[p].payload == db.jobs[p].payload && db'.jobs[p].state != Parked
      && (db.jobs[p].state != Parked ==> db' == db)
  {}

  lemma AddEdgeGentle(db: Db, parent: Key, child: Key, status: EdgeStatus)
    requires parent in db.jobs && child in db.jobs
    ensures Gentle(db, AddEdge(db, parent, child, status))
  {
    hide Calm, StaysListed;
    SameRowsListed(db, AddEdge(db, parent, child, status));
    SameRowsCalm(db, AddEdge(db, parent, child, status));
  }

  lemma LinkGentle(db: Db, parent: Key, child: Key)
    ensures Gentle(db, Link(db, parent, child))
  {
    hide Gentle, ReleaseParent, AddEdge;
    GentleRefl(db);
    if parent in db.jobs && child in db.jobs {
      var db1 := AddEdge(db, parent, child, LinkStatus(db.jobs[child]));
      AddEdgeGentle(db, parent, child, LinkStatus(db.jobs[child]));
      assert db1.jobs == db.jobs by { AddEdgeRows(db, parent, child, LinkStatus(db.jobs[child])); }
      if !HasBlockingEdge(db1, parent) {
        ReleaseUnblockedGentle(db1, parent);
        GentleTrans(db, db1, ReleaseParent(db1, parent));
      }
    }
  }

  lemma AddEdgeRows(db: Db, parent: Key, child: Key, status: EdgeStatus)
    ensures AddEdge(db, parent, child, status).jobs == db.jobs
  {}

  lemma ForceParentCalm(db: Db, p: Key)
    requires p in db.jobs
    ensures Calm(db, ForceParent(db, p))
  {
    hide Calm;
    var j := db.jobs[p].(deferred := true);
    if j.state == Parked { EnqueueCalm(db, p, j); }
    else if j.state == Delayed { EnqueueCalm(db, p, j.(delayMs := 0, processAt := None)); }
    else { PutCalm(db, p, j); }
  }

  lemma {:induction false} ForceParentsCalm(db: Db, ps: seq<Key>)
    ensures Calm(db, ForceParents(db, ps))
  {
    hide Calm, ForceParent;
    CalmRefl(db);
    if ps != [] {
      var front, p := ps[..|ps| - 1], ps[|ps| - 1];
      ForceParentsCalm(db, front);
      var db1 := ForceParents(db, front);
      if p in db1.jobs {
        ForceParentCalm(db1, p);
        CalmTrans(db, db1, ForceParent(db1, p));
      }
    }
  }

  lemma {:induction false} SettleParentsCalm(db: Db, ps: seq<Key>, cpof: bool)
    ensures Calm(db, SettleParents(db, ps, cpof))
  {
    hide Calm, ReleaseParent, HasBlockingEdge;
    CalmRefl(db);
    if ps != [] {
      var front, p := ps[..|ps| - 1], ps[|ps| - 1];
      SettleParentsCalm(db, front, cpof);
      var db1 := SettleParents(db, front, cpof);
      if p in db1.jobs {
        ReleaseParentCalm(db1, p);
        CalmRefl(db1);
        CalmTrans(db, db1, SettleParent(db1, p, cpof));
      }
    }
  }

  // ---------------------------------------------------------------- adds

  /** A new row with a fresh primary key. */
  lemma NewRowGentle(db: Db, db': Db, k: Key, j: Job)
    requires db'.nextPk == db.nextPk + 1 && db'.jobs == db.jobs[k := j] && QueuesCalm(db, db')
    requires db'.edges == db.edges && db'.nextEdge == db.nextEdge
    requires Newborn(j) && j.pk == db.nextPk
    requires j.state == Prioritized ==> j.prioSeq.Some? && j.prioSeq.value > QueueOf(db, k.queue).prioNum
    requires k !in db.jobs
    requires PlacesKept(db, db') && StaysListed(db, db')
    ensures Gentle(db, db')
  {
    hide PlacesKept, StaysListed;
    forall x | x in db'.jobs ensures KeptOrNew(db, db', x) {}
  }

  lemma InsertStandardInPlace(db: Db, k: Key, j: Job)
    requires j.state == Delayed && j.prioSeq.None? && k.queue in db.queues && InPlace(db)
    ensures InPlace(InsertStandard(db, k, j)) && OrderKept(db, InsertStandard(db, k, j))
    ensures ListsKept(db, InsertStandard(db, k, j))
  {
    hide InPlace, WaitSeqs, OrderKept, ListsKept;
    EnqueueInPlace(db, k, j);
    var head := Least(WaitSeqs(db, k.queue, {Wait, Paused}, None));
    if head.Some? {
      HeadInPlace(db, k, j, head.value);
    }
  }

  lemma HeadInPlace(db: Db, k: Key, j: Job, head: int)
    requires j.prioSeq.None? && k.queue in db.queues && InPlace(db)
    requires Least(WaitSeqs(db, k.queue, {Wait, Paused}, None)) == Some(head)
    ensures var db' := Put(db, k, j.(state := Route(QueueOf(db, k.queue)), waitSeq := Some(head - 1)));
      InPlace(db') && OrderKept(db, db') && ListsKept(db, db')
  {
    hide Least, WaitSeqs, OwnSeq, ListOrdered;
    var j' := j.(state := Route(QueueOf(db, k.queue)), waitSeq := Some(head - 1));
    WaitHeadFits(db, k.queue, {Wait, Paused}, None);
    HeadIsOwn(db, k, {Wait, Paused}, None, j');
    PutInPlace(db, k, j');
    PutListsKept(db, k, j');
  }

  lemma InsertStandardShape(db: Db, k: Key, j: Job)
    requires j.state == Delayed && j.prioSeq.None? && k.queue in db.queues
    ensures var db' := InsertStandard(db, k, j);
      && db'.nextPk == db.nextPk && QueuesCalm(db, db') && k in db'.jobs
      && db'.jobs == db.jobs[k := db'.jobs[k]] && db'.edges == db.edges && db'.nextEdge == db.nextEdge
      && Queued(db'.jobs[k]) && db'.jobs[k] == j.(state := db'.jobs[k].state, waitSeq := db'.jobs[k].waitSeq)
      && PlacesKept(db, db') && StaysListed(db, db')
  {
    hide InPlace, WaitSeqs, Least, OrderKept, ListsKept;
    if InPlace(db) { InsertStandardInPlace(db, k, j); }
  }

  lemma InsertRowGentle(db: Db, k: Key, r: Request)
    requires k !in db.jobs && k.queue in db.queues
    ensures Gentle(db, InsertRow(db, k, r))
  {
    hide Gentle, InsertStandard, InPlace, OrderKept, PlacesKept, StaysListed;
    var db1 := db.(nextPk := db.nextPk + 1);
    var j := NewRow(db, r);
    assert PlacesKept(db, db1) by { NextPkInPlace(db); }
    var db' := InsertRow(db, k, r);
    match r.kind {
      case Standard => InsertStandardShape(db1, k, j);
      case Prio => NewPrioInPlace(db1, k, j);
      case Later => NewUnlistedInPlace(db1, k, j.(processAt := Some(r.timestamp + j.delayMs)));
      case FlowParent => NewUnlistedInPlace(db1, k, j.(state := Parked));
    }
    PlacesTrans(db, db1, db');
    NextPkListed(db, db');
    NewRowGentle(db, db', k, db'.jobs[k]);
  }

  lemma NextPkInPlace(db: Db)
    ensures PlacesKept(db, db.(nextPk := db.nextPk + 1))
  {
    hide WaitOrdered, ListOrdered;
    if InPlace(db) { SubsetInPlace(db, db.(nextPk := db.nextPk + 1)); }
  }

  lemma NextPkListed(db: Db, db': Db)
    requires StaysListed(db.(nextPk := db.nextPk + 1), db')
    ensures StaysListed(db, db')
  {
    hide ListOrdered, OrderKept;
    var db1 := db.(nextPk := db.nextPk + 1);
    if InPlace(db) {
      SubsetInPlace(db, db1);
      ListsTrans(db, db1, db');
    }
  }

  lemma NewPrioInPlace(db: Db, k: Key, j: Job)
    requires k.queue in db.queues && j.waitSeq.None?
    ensures PlacesKept(db, Prioritize(db, k, j, Prioritized)) && StaysListed(db, Prioritize(db, k, j, Prioritized))
  {
    hide OrderKept, ListsKept;
    if InPlace(db) { PrioritizeInPlace(db, k, j, Prioritized); }
  }

  lemma NewUnlistedInPlace(db: Db, k: Key, j: Job)
    requires k.queue in db.queues && j.waitSeq.None? && j.prioSeq.None? && (j.state == Delayed || j.state == Parked)
    ensures PlacesKept(db, Put(db, k, j)) && StaysListed(db, Put(db, k, j))
  {
    hide OrderKept, ListsKept, WaitOrdered;
    if InPlace(db) {
      PutInPlace(db, k, j);
      DelayedListed(db, k, j);
    }
  }

  lemma ClearStaleGentle(db: Db, q: QueueId, d: DedupId)
    ensures Gentle(db, ClearStale(db, q, d))
    ensures ClearStale(db, q, d).jobs.Keys == db.jobs.Keys && ClearStale(db, q, d).queues == db.queues
  {
    hide LiveDedup;
    var db' := ClearStale(db, q, d);
    if InPlace(db) { SubsetInPlace(db, db'); }
    TagsOnlyGentle(db, db');
  }

  /** Only deduplication ids of rows change. */
  lemma TagsOnlyGentle(db: Db, db': Db)
    requires db' == db.(jobs := db'.jobs) && db'.jobs.Keys == db.jobs.Keys && PlacesKept(db, db')
    requires forall k | k in db.jobs :: db'.jobs[k] == db.jobs[k].(dedup := db'.jobs[k].dedup)
    ensures Gentle(db, db')
  {
    hide InPlace;
    forall k | k in db'.jobs ensures KeptOrNew(db, db', k) {}
  }

  lemma InsertConflictGentle(db: Db, k: Key, r: Request)
    ensures Gentle(db, InsertConflict(db, k, r))
  {
    hide Calm, StaysListed;
    BumpCalm(db, k.queue);
    CalmRefl(db);
    SameRowsListed(db, InsertConflict(db, k, r));
  }

  lemma InsertClearedGentle(db: Db, r: Request, k: Key)
    requires k.queue in db.queues
    ensures Gentle(db, InsertCleared(db, r, k))
  {
    hide Gentle, InsertRow, Link, InsertConflict;
    if k in db.jobs {
      InsertConflictGentle(db, k, r);
    } else {
      var db2 := InsertRow(db, k, r);
      InsertRowGentle(db, k, r);
      var db3 := HoldDedup(db2, r, k.id);
      SameRowsGentle(db2, db3);
      GentleTrans(db, db2, db3);
      if r.parent.Some? {
        LinkGentle(db3, r.parent.value, k);
        GentleTrans(db, db3, Link(db3, r.parent.value, k));
      }
    }
  }

  lemma InsertGentle(db: Db, r: Request, k: Key)
    requires k.queue in db.queues
    ensures Gentle(db, Insert(db, r, k).0)
  {
    hide Gentle, ClearStale, InsertCleared;
    var db1 := db;
    GentleRefl(db);
    if r.dedup.Some? {
      db1 := ClearStale(db, r.queue, r.dedup.value);
      ClearStaleGentle(db, r.queue, r.dedup.value);
    }
    InsertClearedGentle(db1, r, k);
    GentleTrans(db, db1, InsertCleared(db1, r, k));
  }

  lemma ReplaceGentle(db: Db, r: Request, k: Key)
    requires Replaces(r) && k.queue in db.queues
    ensures Gentle(db, Replace(db, r, k).0)
  {
    hide Gentle, Insert, DeleteJobs;
    GentleRefl(db);
    var dk := DedupKey(r.queue, r.dedup.value);
    InsertGentle(db, r, k);
    if dk in db.dedups {
      var h := Key(r.queue, db.dedups[dk].job);
      if h in db.jobs && db.jobs[h].state in Replaceable(r.kind) {
        var db0 := DeleteJobs(db, {h});
        var db1 := DeleteDedups(db0, {dk});
        DeleteGentle(db, {h});
        SameRowsGentle(db0, db1);
        GentleTrans(db, db0, db1);
        assert db0.queues == db.queues by { DeleteKeepsQueues(db, {h}); }
        InsertGentle(db1, r, k);
        GentleTrans(db, db1, Insert(db1, r, k).0);
      }
    }
  }

  lemma DeleteKeepsQueues(db: Db, s: set<Key>)
    ensures DeleteJobs(db, s).queues == db.queues
  {}

  lemma JobNumGentle(db: Db, q: QueueId)
    requires q in db.queues
    ensures Gentle(db, PutQueue(db, q, db.queues[q].(jobNum := db.queues[q].jobNum + 1)))
  {
    if InPlace(db) { SubsetInPlace(db, PutQueue(db, q, db.queues[q].(jobNum := db.queues[q].jobNum + 1))); }
  }

  lemma AddGentle(db: Db, r: Request)
    ensures Gentle(db, Add(db, r).0)
  {
    hide Gentle, Insert, AddExisting, Replace;
    GentleRefl(db);
    if r.queue in db.queues {
      var q := db.queues[r.queue];
      var id := if r.custom.Some? then r.custom.value else q.jobNum + 1;
      var db1 := if r.custom.Some? then db else PutQueue(db, r.queue, q.(jobNum := q.jobNum + 1));
      var k := Key(r.queue, id);
      var db' := Add(db, r).0;
      JobNumGentle(db, r.queue);
      if r.parent.Some? && r.parent.value !in db1.jobs {
      } else if r.custom.Some? && k in db1.jobs {
        AddExistingGentle(db1, r, k);
        GentleTrans(db, db1, db');
      } else if Suppressed(db1, r) {
        SameRowsGentle(db1, db');
        GentleTrans(db, db1, db');
      } else if Replaces(r) {
        ReplaceGentle(db1, r, k);
        GentleTrans(db, db1, db');
      } else {
        InsertGentle(db1, r, k);
        GentleTrans(db, db1, db');
      }
    }
  }

  lemma ParentFieldGentle(db: Db, k: Key, parent: Option<Key>)
    requires k in db.jobs
    ensures Gentle(db, Put(db, k, db.jobs[k].(parent := parent)))
  {
    hide Calm, StaysListed;
    SubsetListed(db, Put(db, k, db.jobs[k].(parent := parent)));
    ListsStay(db, Put(db, k, db.jobs[k].(parent := parent)));
    PutCalm(db, k, db.jobs[k].(parent := parent));
  }

  lemma AddExistingGentle(db: Db, r: Request, k: Key)
    requires k in db.jobs
    ensures Gentle(db, AddExisting(db, r, k).0)
  {
    hide Gentle, Link;
    GentleRefl(db);
    if r.parent.Some? {
      LinkGentle(db, r.parent.value, k);
      var db1 := Link(db, r.parent.value, k);
      if k in db1.jobs {
        ParentFieldGentle(db1, k, r.parent);
        GentleTrans(db, db1, Put(db1, k, db1.jobs[k].(parent := r.parent)));
      }
    }
  }

  lemma {:induction false} LinkAllGentle(db: Db, parent: Key, ks: seq<Key>)
    ensures Gentle(db, LinkAll(db, parent, ks))
  {
    hide Gentle, Link;
    GentleRefl(db);
    if ks != [] {
      var db1 := LinkAll(db, parent, ks[..|ks| - 1]);
      LinkAllGentle(db, parent, ks[..|ks| - 1]);
      LinkGentle(db1, parent, ks[|ks| - 1]);
      GentleTrans(db, db1, Link(db1, parent, ks[|ks| - 1]));
    }
  }

  lemma EnsureQueueGentle(db: Db, q: QueueId)
    ensures Gentle(db, EnsureQueue(db, q))
  {
    if InPlace(db) { SubsetInPlace(db, EnsureQueue(db, q)); }
  }

  lemma {:induction false} AddNodeGentle(db: Db, n: Node, parent: Option<Key>)
    ensures AddNode(db, n, parent).Built? ==> Gentle(db, AddNode(db, n, parent).db)
    decreases n, 0
  {
    hide Gentle, Add, LinkAll, EnsureQueue;
    var db0 := EnsureQueue(db, n.queue);
    EnsureQueueGentle(db, n.queue);
    var (db1, r) := Add(db0, NodeRequest(n, parent));
    AddGentle(db0, NodeRequest(n, parent));
    GentleTrans(db, db0, db1);
    if r.Added? && n.children != [] && r.id == n.id {
      AddChildrenGentle(db1, n.children, KeyOf(n));
      var b := AddChildren(db1, n.children, KeyOf(n));
      if b.BuiltAll? {
        GentleTrans(db, db1, b.db);
        LinkAllGentle(b.db, KeyOf(n), b.ids);
        GentleTrans(db, b.db, LinkAll(b.db, KeyOf(n), b.ids));
      }
    }
  }

  lemma {:induction false} AddChildrenGentle(db: Db, ns: seq<Node>, parent: Key)
    ensures AddChildren(db, ns, parent).BuiltAll? ==> Gentle(db, AddChildren(db, ns, parent).db)
    decreases ns, 1
  {
    hide Gentle;
    GentleRefl(db);
    if ns != [] {
      AddNodeGentle(db, ns[0], Some(parent));
      var b := AddNode(db, ns[0], Some(parent));
      if b.Built? {
        AddChildrenGentle(b.db, ns[1..], parent);
        var rest := AddChildren(b.db, ns[1..], parent);
        if rest.BuiltAll? { GentleTrans(db, b.db, rest.db); }
      }
    }
  }

  lemma AddFlowGentle(db: Db, n: Node, parent: Option<Key>)
    ensures Gentle(db, AddFlow(db, n, parent))
  {
    hide Gentle, AddNode;
    GentleRefl(db);
    AddNodeGentle(db, n, parent);
  }

  // ---------------------------------------------------------------- promotion

  predicate Distinct(ks: seq<Key>) {
    forall i, j | 0 <= i < j < |ks| :: ks[i] != ks[j]
  }

  /** One row is rewritten, the other tables are left alone. */
  ghost predicate OneRow(db: Db, db': Db, k: Key) {
    && k in db'.jobs && db'.jobs == db.jobs[k := db'.jobs[k]]
    && db'.edges == db.edges && db'.nextEdge == db.nextEdge && db'.nextPk == db.nextPk
    && db'.dedups == db.dedups && db'.now == db.now
  }

  lemma PromoteOneCalm(db: Db, k: Key)
    requires k in db.jobs && db.jobs[k].state == Delayed
    ensures Calm(db, PromoteOne(db, k)) && OneRow(db, PromoteOne(db, k), k)
    ensures CalmRow(db.jobs[k], PromoteOne(db, k).jobs[k])
    ensures PromoteOne(db, k).jobs[k].dedup == db.jobs[k].dedup
  {
    hide Calm;
    var j := db.jobs[k].(delayMs := 0);
    if j.priority > 0 {
      PrioritizeCalm(db, k, j, if QueueOf(db, k.queue).paused then Paused else Prioritized);
    } else {
      EnqueueCalm(db, k, j);
    }
  }

  /** Rows rewritten, the other tables left alone. */
  ghost predicate SomeRows(db: Db, db': Db) {
    && db'.jobs.Keys == db.jobs.Keys
    && db'.edges == db.edges && db'.nextEdge == db.nextEdge && db'.nextPk == db.nextPk
    && db'.dedups == db.dedups && db'.now == db.now
  }

  /** The rows `ks` are promoted, the others left alone. */
  ghost predicate Promotes(db: Db, db': Db, ks: seq<Key>) {
    && SomeRows(db, db')
    && (forall k | k in db.jobs && k !in ks :: db'.jobs[k] == db.jobs[k])
    && (forall k | k in db.jobs :: CalmRow(db.jobs[k], db'.jobs[k]))
  }

  lemma PromotesMore(db: Db, db1: Db, db': Db, ks: seq<Key>, k: Key)
    requires Promotes(db, db1, ks) && k in db.jobs && k !in ks
    requires OneRow(db1, db', k) && CalmRow(db1.jobs[k], db'.jobs[k])
    ensures Promotes(db, db', ks + [k])
  {
    hide CalmRow;
    forall x | x in db.jobs ensures CalmRow(db.jobs[x], db'.jobs[x]) {
      assert x == k ==> db1.jobs[x] == db.jobs[x];
    }
  }

  predicate AllDelayed(db: Db, ks: seq<Key>) {
    Distinct(ks) && forall i | 0 <= i < |ks| :: ks[i] in db.jobs && db.jobs[ks[i]].state == Delayed
  }

  lemma AllDelayedSnoc(db: Db, front: seq<Key>, k: Key)
    requires AllDelayed(db, front + [k])
    ensures AllDelayed(db, front) && k in db.jobs && db.jobs[k].state == Delayed && k !in front
  {
    var ks := front + [k];
    assert ks[|front|] == k;
    forall i | 0 <= i < |front| ensures front[i] == ks[i] {}
  }

  lemma PromoteSeqSnoc(db: Db, front: seq<Key>, k: Key)
    ensures var db1 := PromoteSeq(db, front);
      PromoteSeq(db, front + [k]) == if k in db1.jobs then PromoteOne(db1, k) else db1
  {
    hide PromoteOne;
    assert (front + [k])[..|front|] == front;
  }

  lemma {:induction false} PromoteSeqCalm(db: Db, ks: seq<Key>)
    requires AllDelayed(db, ks)
    ensures Calm(db, PromoteSeq(db, ks)) && Promotes(db, PromoteSeq(db, ks), ks)
  {
    if ks == [] {
      CalmRefl(db);
    } else {
      hide Calm, PromoteOne, PromoteSeq, CalmRow, AllDelayed;
      var front, k := ks[..|ks| - 1], ks[|ks| - 1];
      var db1, db' := PromoteSeq(db, front), PromoteSeq(db, ks);
      assert ks == front + [k];
      AllDelayedSnoc(db, front, k);
      PromoteSeqCalm(db, front);
      PromoteSeqSnoc(db, front, k);
      PromoteOneCalm(db1, k);
      PromotesMore(db, db1, db', front, k);
      CalmTrans(db, db1, db');
    }
  }

  lemma DueListed(db: Db, q: QueueId)
    ensures var ks := Sorted(ByDue, db.jobs, Due(db, q));
      Distinct(ks) && (forall i | 0 <= i < |ks| :: ks[i] in Due(db, q))
  {
    var ks := Sorted(ByDue, db.jobs, Due(db, q));
    SortedInOrder(ByDue, db.jobs, Due(db, q));
    forall i | 0 <= i < |ks| ensures ks[i] in Due(db, q) { assert ks[i] in ks; }
    forall i, j | 0 <= i < j < |ks| ensures ks[i] != ks[j] { InOrderDistinct(ByDue, db.jobs, ks, i, j); }
  }

  /** Promotion is calm and touches only the due rows. */
  lemma PromoteDueCalm(db: Db, q: QueueId)
    ensures var db' := PromoteDue(db, q);
      && Calm(db, db') && SomeRows(db, db')
      && (forall k | k in db.jobs && k !in Due(db, q) :: db'.jobs[k] == db.jobs[k])
      && (forall k | k in db.jobs :: CalmRow(db.jobs[k], db'.jobs[k]))
  {
    hide Calm, CalmRow;
    DueListed(db, q);
    PromoteSeqCalm(db, Sorted(ByDue, db.jobs, Due(db, q)));
  }
}

/** Tying a child to a parent, said in columns, and flows over jobs that have already completed. */
module Adopting {
  import opened Rows
  import opened Tables
  import opened Linking
  import opened Adding
  import opened Flows
  import opened Machine
  import opened Frames
  import opened Waiting
  import opened Trees
  import opened Inserting

  // ---------------------------------------------------------------- one link

  /** An edge of the parent whose child has not completed: it has not ended, or it has failed. */
  ghost predicate Unsettled(db: Db, p: Key) {
    exists i :: i in db.edges && db.edges[i].parent == p
      && (db.edges[i].status == Pending || db.edges[i].status == Broken)
  }

  ghost predicate HasLink(db: Db, p: Key, c: Key) {
    exists i :: i in db.edges && db.edges[i].parent == p && db.edges[i].linked && db.edges[i].child == c
  }

  /** A released parent waits for its own delay, or enters its priority or the tail of its list. */
  predicate LetGo(q: Queue, now: Millis, j: Job, j': Job) {
    if j.delayMs > 0 then
      j' == j.(state := Delayed, processAt := Some(now + j.delayMs), waitSeq := None, prioSeq := None)
    else if j.priority > 0 then j' == j.(state := Prioritized, waitSeq := None, prioSeq := Some(q.prioNum + 1))
    else j' == j.(state := if q.paused then Paused else Wait, waitSeq := Some(q.waitNum + 1))
  }

  /** Only row `p` may have changed, and it was let go or stayed as it was. */
  ghost predicate LetsGoOnly(db: Db, db': Db, p: Key, lets: bool) {
    && p in db.jobs && p in db'.jobs && db'.jobs == db.jobs[p := db'.jobs[p]]
    && if lets then LetGo(QueueOf(db, p.queue), db.now, db.jobs[p], db'.jobs[p]) else db'.jobs[p] == db.jobs[p]
  }

  lemma ReleaseLetsGo(db: Db, p: Key)
    requires p in db.jobs
    ensures LetsGoOnly(db, ReleaseParent(db, p), p, db.jobs[p].state == Parked)
  {}

  lemma BlockedIsUnsettled(db: Db, p: Key)
    ensures HasBlockingEdge(db, p) <==> Unsettled(db, p)
  {
    if i :| i in db.edges && db.edges[i].parent == p && Blocking(db.edges[i]) {}
  }

  lemma LinkedHasLink(db: Db, p: Key, c: Key)
    ensures Linked(db, p, c) <==> HasLink(db, p, c)
  {
    if i :| i in db.edges && db.edges[i].parent == p && EdgeOf(db.edges[i], c) {}
  }

  /** Tying two rows not tied before writes one edge, settled if the child has completed, broken if it has
      failed, and pending otherwise; a parked parent is let go if and only if the child has completed and
      no other edge of the parent is pending or broken. */
  lemma LinkWrites(db: Db, db': Db, p: Key, c: Key)
    requires db' == Link(db, p, c) && p in db.jobs && c in db.jobs && EdgesNumbered(db) && !HasLink(db, p, c)
    ensures db'.nextEdge == db.nextEdge + 1
    ensures db'.edges == db.edges[db.nextEdge := Edge(p, c, true,
      if db.jobs[c].state == Completed then Processed else if db.jobs[c].state == Failed then Broken else Pending)]
    ensures LetsGoOnly(db, db', p,
      db.jobs[p].state == Parked && db.jobs[c].state == Completed && !Unsettled(db, p))
  {
    hide ReleaseParent, HasBlockingEdge, Linked, HasLink, LetsGoOnly;
    LinkedHasLink(db, p, c);
    var status := LinkStatus(db.jobs[c]);
    var db1 := AddEdge(db, p, c, status);
    assert db1.edges == db.edges[db.nextEdge := Edge(p, c, true, status)] && db1.jobs == db.jobs;
    NewEdgeUnsettles(db, db1, p, c, status);
    BlockedIsUnsettled(db1, p);
    ReleaseLetsGo(db1, p);
    ReleaseParentShape(db1, p);
    LetGoSame(db, db1, db', p);
  }

  lemma NewEdgeUnsettles(db: Db, db1: Db, p: Key, c: Key, status: EdgeStatus)
    requires EdgesNumbered(db) && db1.edges == db.edges[db.nextEdge := Edge(p, c, true, status)]
    ensures Unsettled(db1, p) <==> Unsettled(db, p) || status == Pending || status == Broken
  {
    if Unsettled(db, p) {
      var i :| i in db.edges && db.edges[i].parent == p
        && (db.edges[i].status == Pending || db.edges[i].status == Broken);
      assert i in db1.edges && db1.edges[i] == db.edges[i];
    }
    if status == Pending || status == Broken { assert db1.edges[db.nextEdge].parent == p; }
  }

  lemma LetGoSame(db: Db, db1: Db, db': Db, p: Key)
    requires db1.jobs == db.jobs && db1.queues == db.queues && db1.now == db.now && p in db.jobs
    ensures forall lets :: LetsGoOnly(db1, db', p, lets) ==> LetsGoOnly(db, db', p, lets)
    ensures LetsGoOnly(db, db1, p, false)
  {}

  /** Tying a pair once more writes no edge, and lets a parked parent go if and only if the child has
      ended and no edge of the parent is pending or broken. */
  lemma RelinkWrites(db: Db, db': Db, p: Key, c: Key)
    requires db' == Link(db, p, c) && p in db.jobs && c in db.jobs && HasLink(db, p, c)
    ensures db'.nextEdge == db.nextEdge && db'.edges == db.edges
    ensures LetsGoOnly(db, db', p,
      db.jobs[p].state == Parked && (db.jobs[c].state == Completed || db.jobs[c].state == Failed) && !Unsettled(db, p))
  {
    hide ReleaseParent, HasBlockingEdge, Linked, HasLink, LetsGoOnly, Unsettled;
    LinkedHasLink(db, p, c);
    BlockedIsUnsettled(db, p);
    ReleaseLetsGo(db, p);
    ReleaseParentShape(db, p);
    LetGoSame(db, db, db', p);
  }

  // ---------------------------------------------------------------- flows over completed jobs

  lemma {:induction false} NodeParks(db: Db, n: Node, parent: Option<Key>)
    ensures AddNode(db, n, parent).Built? ==> OnlyParks(db, AddNode(db, n, parent).db, KeysOf(n))
    decreases n, 0
  {
    hide Add, LinkAll, EnsureQueue, OnlyParks;
    var db0 := EnsureQueue(db, n.queue);
    var (db1, r) := Add(db0, NodeRequest(n, parent));
    RootParks(db, n, parent);
    if r.Added? && n.children != [] && r.id == n.id {
      BelowParks(db1, n.children, KeyOf(n));
      var b := AddChildren(db1, n.children, KeyOf(n));
      if b.BuiltAll? {
        LinkAllParks(b.db, KeyOf(n), b.ids);
        ParksMore(db, db1, {KeyOf(n)}, KeysOf(n));
        ParksMore(db1, b.db, KeysOfAll(n.children), KeysOf(n));
        ParksMore(b.db, LinkAll(b.db, KeyOf(n), b.ids), {}, KeysOf(n));
        OnlyParksTrans(db, db1, b.db, KeysOf(n));
        OnlyParksTrans(db, b.db, LinkAll(b.db, KeyOf(n), b.ids), KeysOf(n));
      }
    } else {
      ParksMore(db, db1, {KeyOf(n)}, KeysOf(n));
    }
  }

  lemma RootParks(db: Db, n: Node, parent: Option<Key>)
    ensures OnlyParks(db, Add(EnsureQueue(db, n.queue), NodeRequest(n, parent)).0, {KeyOf(n)})
  {
    hide Add;
    EnsureQueueRows(db, n.queue);
    AddParks(EnsureQueue(db, n.queue), NodeRequest(n, parent));
  }

  lemma ParksMore(db: Db, db': Db, ks: set<Key>, more: set<Key>)
    requires OnlyParks(db, db', ks) && ks <= more
    ensures OnlyParks(db, db', more)
  {}

  lemma {:induction false} BelowParks(db: Db, ns: seq<Node>, p: Key)
    ensures AddChildren(db, ns, p).BuiltAll? ==> OnlyParks(db, AddChildren(db, ns, p).db, KeysOfAll(ns))
    decreases ns, 1
  {
    hide AddNode;
    if ns != [] {
      hide OnlyParks;
      NodeParks(db, ns[0], Some(p));
      var b := AddNode(db, ns[0], Some(p));
      if b.Built? {
        BelowParks(b.db, ns[1..], p);
        var rest := AddChildren(b.db, ns[1..], p);
        if rest.BuiltAll? {
          ParksMore(db, b.db, KeysOf(ns[0]), KeysOfAll(ns));
          ParksMore(b.db, rest.db, KeysOfAll(ns[1..]), KeysOfAll(ns));
          OnlyParksTrans(db, b.db, rest.db, KeysOfAll(ns));
        }
      }
    }
  }

  /** No add removes a job that has ended, or changes how. */
  lemma EndedStays(db: Db, r: Request, c: Key)
    requires c in db.jobs && Finished(db.jobs[c]) && db.jobs[c].pk < db.nextPk
    ensures c in Add(db, r).0.jobs && Add(db, r).0.jobs[c].state == db.jobs[c].state
  {
    hide Gentle, Add;
    AddGentle(db, r);
    EndedThere(db, r, c);
    EndedSameState(db, Add(db, r).0, c);
  }

  predicate KeptPk(jobs: map<Key, Job>, jobs': map<Key, Job>, c: Key) {
    c in jobs && c in jobs' && jobs'[c].pk == jobs[c].pk
  }

  lemma EndedThere(db: Db, r: Request, c: Key)
    requires c in db.jobs && Finished(db.jobs[c])
    ensures KeptPk(db.jobs, Add(db, r).0.jobs, c)
  {
    hide Insert, Link, Replace;
    if r.queue in db.queues {
      var q := db.queues[r.queue];
      var k := AddKey(db, r);
      var db1 := if r.custom.Some? then db else PutQueue(db, r.queue, q.(jobNum := q.jobNum + 1));
      InsertKeepsPks(db1, r, k, c);
      if Replaces(r) { ReplaceKeepsPks(db1, r, k, c); }
      if r.parent.Some? { LinkGains(db1, r.parent.value, k); }
    }
  }

  /** A job that has ended is in no state that may be replaced. */
  lemma ReplaceKeepsPks(db: Db, r: Request, k: Key, c: Key)
    requires Replaces(r) && k.queue in db.queues && c in db.jobs && Finished(db.jobs[c])
    ensures KeptPk(db.jobs, Replace(db, r, k).0.jobs, c)
  {
    hide Insert;
    InsertKeepsPks(db, r, k, c);
    var dk := DedupKey(r.queue, r.dedup.value);
    if dk in db.dedups {
      var h := Key(r.queue, db.dedups[dk].job);
      if h in db.jobs && db.jobs[h].state in Replaceable(r.kind) {
        InsertKeepsPks(DeleteDedups(DeleteJobs(db, {h}), {dk}), r, k, c);
      }
    }
  }

  lemma InsertKeepsPks(db: Db, r: Request, k: Key, c: Key)
    requires c in db.jobs && k.queue in db.queues
    ensures KeptPk(db.jobs, Insert(db, r, k).0.jobs, c)
  {
    hide InsertRow, Link, InsertConflict;
    var db1 := if r.dedup.Some? then ClearStale(db, r.queue, r.dedup.value) else db;
    if k in db1.jobs {
      ConflictKeepsRows(db1, k, r);
    } else {
      InsertRowGains(db1, k, r);
      if r.parent.Some? { LinkKeepsParked(HoldDedup(InsertRow(db1, k, r), r, k.id), r.parent.value, k); }
    }
  }

  lemma EndedSameState(db: Db, db': Db, c: Key)
    requires Gentle(db, db') && c in db.jobs && c in db'.jobs && db'.jobs[c].pk == db.jobs[c].pk
    requires Finished(db.jobs[c]) && db.jobs[c].pk < db.nextPk
    ensures db'.jobs[c].state == db.jobs[c].state
  {
    hide EdgesCalm, StaysListed;
    assert KeptOrNew(db, db', c);
  }

  lemma NewParent(db: Db, n: Node, parent: Option<Key>)
    requires Standing(db) && KeyOf(n) !in db.jobs && n.children != []
    ensures var db1 := Add(EnsureQueue(db, n.queue), NodeRequest(n, parent)).0;
      Standing(db1) && (KeyOf(n) in db1.jobs ==> FreshParked(db1, KeyOf(n)))
  {
    hide Add, Gentle, Standing, NoEdges;
    var db0, r0, p := EnsureQueue(db, n.queue), NodeRequest(n, parent), KeyOf(n);
    EnsureQueueRows(db, n.queue);
    EnsureQueueGentle(db, n.queue);
    GentleStanding(db, db0);
    AddGentle(db0, r0);
    GentleStanding(db0, Add(db0, r0).0);
    AddFresh(db0, r0);
    if p in Add(db0, r0).0.jobs { AddWrites(db0, r0, p); }
  }

  /** A completed job added under a parent without edges lets the parent go. */
  lemma CompletedChildFrees(db: Db, n: Node, p: Key)
    requires Standing(db) && FreshParked(db, p) && KeyOf(n) != p
    requires KeyOf(n) in db.jobs && db.jobs[KeyOf(n)].state == Completed
    ensures var (db1, r) := Add(EnsureQueue(db, n.queue), NodeRequest(n, Some(p)));
      r.Added? ==> !ParkedIn(db1.jobs, p)
  {
    hide Link, Insert, Replace;
    var db0, r0, c := EnsureQueue(db, n.queue), NodeRequest(n, Some(p)), KeyOf(n);
    EnsureQueueRows(db, n.queue);
    assert Add(db0, r0) == AddExisting(db0, r0, c);
    var db1 := Link(db0, p, c);
    assert !HasLink(db0, p, c) && !Unsettled(db0, p);
    LinkWrites(db0, db1, p, c);
  }

  lemma StaysFree(db: Db, db': Db, ks: set<Key>, p: Key)
    requires OnlyParks(db, db', ks) && p !in ks && !ParkedIn(db.jobs, p)
    ensures !ParkedIn(db'.jobs, p)
  {}

  /** A child's whole subtree. */
  lemma CompletedNodeFrees(db: Db, n: Node, p: Key)
    requires Standing(db) && FreshParked(db, p) && p !in KeysOf(n)
    requires KeyOf(n) in db.jobs && db.jobs[KeyOf(n)].state == Completed
    requires AddNode(db, n, Some(p)).Built?
    ensures !ParkedIn(AddNode(db, n, Some(p)).db.jobs, p)
  {
    hide Add, LinkAll, EnsureQueue, OnlyParks, AddChildren, Standing, FreshParked;
    var (db1, r) := Add(EnsureQueue(db, n.queue), NodeRequest(n, Some(p)));
    assert KeyOf(n) in KeysOf(n);
    CompletedChildFrees(db, n, p);
    if n.children != [] && r.id == n.id {
      BelowParks(db1, n.children, KeyOf(n));
      var b := AddChildren(db1, n.children, KeyOf(n));
      StaysFree(db1, b.db, KeysOfAll(n.children), p);
      LinkAllParks(b.db, KeyOf(n), b.ids);
      StaysFree(b.db, LinkAll(b.db, KeyOf(n), b.ids), {}, p);
    }
  }

  lemma CompletedFirstFrees(db: Db, ns: seq<Node>, p: Key)
    requires Standing(db) && FreshParked(db, p) && ns != [] && p !in KeysOfAll(ns)
    requires KeyOf(ns[0]) in db.jobs && db.jobs[KeyOf(ns[0])].state == Completed
    requires AddChildren(db, ns, p).BuiltAll?
    ensures !ParkedIn(AddChildren(db, ns, p).db.jobs, p)
  {
    hide AddNode, OnlyParks, Standing, FreshParked;
    var b := AddNode(db, ns[0], Some(p));
    CompletedNodeFrees(db, ns[0], p);
    BelowParks(b.db, ns[1..], p);
    StaysFree(b.db, AddChildren(b.db, ns[1..], p).db, KeysOfAll(ns[1..]), p);
  }

  /** A flow whose first child names a job that has already completed does not leave its new parent in
      waiting-children, whatever the other children are; so none does all of whose children have. */
  lemma FlowOverCompleted(db: Db, n: Node, parent: Option<Key>)
    requires Standing(db) && KeyOf(n) !in db.jobs && KeyOf(n) !in KeysOfAll(n.children) && n.children != []
    requires var c := KeyOf(n.children[0]); c in db.jobs && db.jobs[c].state == Completed
    ensures var db' := Step(db, OpFlow(n, parent));
      KeyOf(n) in db'.jobs ==> db'.jobs[KeyOf(n)].state != Parked
  {
    hide Add, LinkAll, AddChildren, Standing, FreshParked, EnsureQueue, OnlyParks;
    var p, c := KeyOf(n), KeyOf(n.children[0]);
    var db0 := EnsureQueue(db, n.queue);
    var (db1, r) := Add(db0, NodeRequest(n, parent));
    NewParent(db, n, parent);
    EnsureQueueRows(db, n.queue);
    assert db.jobs[c].pk < db.nextPk by { BelowNextPk(db, c); }
    EndedStays(db0, NodeRequest(n, parent), c);
    if AddNode(db, n, parent).Built? {
      if p !in db1.jobs {
        MissingParentAborts(db1, n.children, p);
      } else if r.id == n.id {
        var b := AddChildren(db1, n.children, p);
        CompletedFirstFrees(db1, n.children, p);
        LinkAllParks(b.db, p, b.ids);
        StaysFree(b.db, LinkAll(b.db, p, b.ids), {}, p);
      } else {
        AddsExactly(db0, NodeRequest(n, parent));
      }
    }
  }

  lemma BelowNextPk(db: Db, c: Key)
    requires Standing(db) && c in db.jobs
    ensures db.jobs[c].pk < db.nextPk
  {}

  // ---------------------------------------------------------------- leaves

  /** A flow node without children comes in as a delayed, prioritized or plain job, by its options. */
  lemma LeafWrites(db: Db, n: Node, parent: Option<Key>)
    requires n.children == [] && KeyOf(n) !in db.jobs && KeyOf(n) in Step(db, OpFlow(n, parent)).jobs
    ensures var o := n.payload.opts;
      var kind := if o.delay > 0 then Later else if o.priority != 0 then Prio else Standard;
      AddedAs(db, Step(db, OpFlow(n, parent)),
        Request(kind, n.queue, Some(n.id), n.payload, n.timestamp, parent, n.dedup), KeyOf(n))
  {
    hide Add, AddedAs;
    var db0, r := EnsureQueue(db, n.queue), NodeRequest(n, parent);
    EnsureQueueRows(db, n.queue);
    AddWrites(db0, r, KeyOf(n));
    SameRowsAdded(db0, Add(db0, r).0, db, Add(db0, r).0, r, KeyOf(n));
  }

  /** A queue on first use runs, without a cap, a limiter or a window, and counts from zero. */
  lemma QueueStartsEmpty(db: Db, q: QueueId)
    ensures var db' := Step(db, OpQueue(q));
      && q in db'.queues && db' == db.(queues := db'.queues)
      && db'.queues == db.queues[q := if q in db.queues then db.queues[q] else Queue(false, None, None, 0, 0, 0, None)]
  {}
}

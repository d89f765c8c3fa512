/** No parent waits on nothing: while a parent is parked, some edge of it is still unsettled.
    This module follows inserts, single and by flow. */
module Waiting {
  import opened Rows
  import opened Tables
  import opened Linking
  import opened Adding
  import opened Flows
  import opened Frames
  import opened Lives

  ghost predicate Standing(db: Db) {
    Grounded(db) && EdgesNumbered(db) && PksBounded(db)
  }

  predicate ParkedIn(jobs: map<Key, Job>, p: Key) {
    p in jobs && jobs[p].state == Parked
  }

  /** Every parked row outside `except` has an edge that blocks it. */
  ghost predicate Waits(db: Db, except: set<Key>) {
    forall p | ParkedIn(db.jobs, p) :: p in except || HasBlockingEdge(db, p)
  }

  /** A parked row of `db'` outside `ks` was the same row, parked, before. */
  ghost predicate OnlyParks(db: Db, db': Db, ks: set<Key>) {
    forall p | ParkedIn(db'.jobs, p) && p !in ks :: ParkedIn(db.jobs, p) && db'.jobs[p].pk == db.jobs[p].pk
  }

  lemma OnlyParksTrans(a: Db, b: Db, c: Db, ks: set<Key>)
    requires OnlyParks(a, b, ks) && OnlyParks(b, c, ks)
    ensures OnlyParks(a, c, ks)
  {}

  lemma GentleStanding(db: Db, db': Db)
    requires Gentle(db, db') && Standing(db)
    ensures Standing(db')
  {
    forall k | k in db'.jobs ensures db'.jobs[k].pk < db'.nextPk { assert KeptOrNew(db, db', k); }
  }

  lemma GentleWaits(db: Db, db': Db, ks: set<Key>, except: set<Key>)
    requires Gentle(db, db') && Standing(db) && OnlyParks(db, db', ks) && Waits(db, except)
    ensures Waits(db', except + ks)
  {
    hide Calm;
    forall p | ParkedIn(db'.jobs, p) ensures p in except + ks || HasBlockingEdge(db', p) {
      if p !in except + ks {
        BlockingKept(db, db', p);
      }
    }
  }

  lemma BlockingKept(db: Db, db': Db, p: Key)
    requires EdgesCalm(db, db') && Standing(db) && SameRow(db, db', p)
    ensures HasBlockingEdge(db, p) ==> HasBlockingEdge(db', p)
  {
    if i :| i in db.edges && db.edges[i].parent == p && Blocking(db.edges[i]) {
      assert EdgeKept(db, db', i);
    }
  }

  // ---------------------------------------------------------------- which rows an insert parks

  lemma LinkParks(db: Db, parent: Key, child: Key)
    ensures OnlyParks(db, Link(db, parent, child), {})
  {
    if parent in db.jobs && child in db.jobs {
      ReleaseParentShape(AddEdge(db, parent, child, LinkStatus(db.jobs[child])), parent);
    }
  }

  lemma InsertRowParks(db: Db, k: Key, r: Request)
    requires k.queue in db.queues
    ensures OnlyParks(db, InsertRow(db, k, r), if r.kind == FlowParent then {k} else {})
  {
    hide InsertStandard;
    if r.kind == Standard { InsertStandardShape(db.(nextPk := db.nextPk + 1), k, NewRow(db, r)); }
  }

  lemma InsertParks(db: Db, r: Request, k: Key)
    requires k.queue in db.queues
    ensures OnlyParks(db, Insert(db, r, k).0, if r.kind == FlowParent then {k} else {})
  {
    hide InsertRow, Link, InsertConflict;
    var ks := if r.kind == FlowParent then {k} else {};
    var db1 := if r.dedup.Some? then ClearStale(db, r.queue, r.dedup.value) else db;
    if k in db1.jobs {
      ConflictKeepsRows(db1, k, r);
    } else {
      InsertRowParks(db1, k, r);
      var db3 := HoldDedup(InsertRow(db1, k, r), r, k.id);
      assert OnlyParks(db, db3, ks);
      if r.parent.Some? {
        LinkParks(db3, r.parent.value, k);
      }
    }
  }

  lemma ConflictKeepsRows(db: Db, k: Key, r: Request)
    ensures InsertConflict(db, k, r).jobs == db.jobs && InsertConflict(db, k, r).edges == db.edges
  {}

  /** An insert parks no row but the flow parent it creates, and that only when the outcome
      names it. */
  lemma AddParks(db: Db, r: Request)
    requires r.custom.Some?
    ensures var (db', out) := Add(db, r);
      var k := Key(r.queue, r.custom.value);
      OnlyParks(db, db', if r.kind == FlowParent && out == Added(k.id) && k !in db.jobs then {k} else {})
  {
    hide Insert, Link, DeleteJobs;
    var k := Key(r.queue, r.custom.value);
    if r.queue in db.queues {
      InsertParks(db, r, k);
      InsertAdds(db, r, k);
      if k in db.jobs {
        if r.parent.Some? { LinkParks(db, r.parent.value, k); }
      } else if !Suppressed(db, r) && Replaces(r) {
        ReplaceParks(db, r, k);
      }
    }
  }

  /** An insert of any other kind parks nothing. */
  lemma PlainAddParks(db: Db, r: Request)
    requires r.kind != FlowParent
    ensures OnlyParks(db, Add(db, r).0, {})
  {
    hide Insert, Link, DeleteJobs, Replace, AddExisting, PutQueue;
    if r.queue in db.queues {
      var q := db.queues[r.queue];
      var id := if r.custom.Some? then r.custom.value else q.jobNum + 1;
      var db1 := if r.custom.Some? then db else PutQueue(db, r.queue, q.(jobNum := q.jobNum + 1));
      NumberTaken(db, r.queue);
      var k := Key(r.queue, id);
      InsertParks(db1, r, k);
      if r.custom.Some? {
        AddParks(db, r);
      } else if Replaces(r) {
        ReplaceTakenParks(db1, r, k);
      }
    }
  }

  lemma NumberTaken(db: Db, q: QueueId)
    requires q in db.queues
    ensures var db1 := PutQueue(db, q, db.queues[q].(jobNum := db.queues[q].jobNum + 1));
      db1.jobs == db.jobs && db1.queues.Keys == db.queues.Keys && db1.edges == db.edges && db1.dedups == db.dedups
  {}

  lemma ReplaceTakenParks(db: Db, r: Request, k: Key)
    requires Replaces(r) && k.queue in db.queues && r.kind != FlowParent
    ensures OnlyParks(db, Replace(db, r, k).0, {})
  {
    hide Insert;
    InsertParks(db, r, k);
    var dk := DedupKey(r.queue, r.dedup.value);
    if dk in db.dedups {
      var h := Key(r.queue, db.dedups[dk].job);
      if h in db.jobs && db.jobs[h].state in Replaceable(r.kind) {
        InsertParks(DeleteDedups(DeleteJobs(db, {h}), {dk}), r, k);
      }
    }
  }

  lemma ReplaceParks(db: Db, r: Request, k: Key)
    requires Replaces(r) && k.queue in db.queues && k !in db.jobs
    ensures OnlyParks(db, Replace(db, r, k).0,
      if r.kind == FlowParent && Replace(db, r, k).1 == Added(k.id) then {k} else {})
  {
    hide Insert;
    InsertParks(db, r, k);
    InsertAdds(db, r, k);
    var dk := DedupKey(r.queue, r.dedup.value);
    if dk in db.dedups {
      var h := Key(r.queue, db.dedups[dk].job);
      if h in db.jobs && db.jobs[h].state in Replaceable(r.kind) {
        var db1 := DeleteDedups(DeleteJobs(db, {h}), {dk});
        InsertParks(db1, r, k);
        InsertAdds(db1, r, k);
      }
    }
  }

  lemma InsertAdds(db: Db, r: Request, k: Key)
    ensures Insert(db, r, k).1 == Added(k.id)
  {}

  // ---------------------------------------------------------------- children under a new parent

  ghost predicate Settled(db: Db, p: Key) {
    ParkedIn(db.jobs, p) ==> HasBlockingEdge(db, p)
  }

  ghost predicate NoEdges(db: Db, p: Key) {
    forall i | i in db.edges :: db.edges[i].parent != p
  }

  /** A parent just created: parked, and no edge yet. */
  ghost predicate FreshParked(db: Db, p: Key) {
    ParkedIn(db.jobs, p) && NoEdges(db, p)
  }

  predicate Untouched(db: Db, db': Db) {
    db'.jobs == db.jobs && db'.edges == db.edges && db'.nextEdge == db.nextEdge && db'.nextPk == db.nextPk
  }

  /** Deduplication rows keep naming the same jobs. */
  ghost predicate SameHolders(db: Db, db': Db) {
    db'.dedups.Keys == db.dedups.Keys && forall d | d in db.dedups :: db'.dedups[d].job == db.dedups[d].job
  }

  /** The branch that loses a child: it carries `replace`, and the row that holds its
      deduplication id is gone. Nothing is inserted, and there is nothing to link. */
  ghost predicate Lost(db: Db, r: Request) {
    && r.custom.Some? && Key(r.queue, r.custom.value) !in db.jobs && Replaces(r)
    && var dk := DedupKey(r.queue, r.dedup.value);
       dk in db.dedups && Key(r.queue, db.dedups[dk].job) !in db.jobs
  }

  lemma LinkSettles(db: Db, p: Key, c: Key)
    requires c in db.jobs && (Settled(db, p) || NoEdges(db, p)) && EdgesNumbered(db)
    ensures Settled(Link(db, p, c), p)
  {
    hide ReleaseParent;
    if p in db.jobs {
      var status := LinkStatus(db.jobs[c]);
      var db1 := AddEdge(db, p, c, status);
      ReleaseParentShape(db1, p);
      if Linked(db, p, c) {
        assert !NoEdges(db, p);
      } else {
        assert db1.edges[db.nextEdge] == Edge(p, c, true, status);
        if status != Processed { assert Blocking(db1.edges[db.nextEdge]); }
      }
    }
  }

  lemma InsertSettles(db: Db, r: Request, k: Key, p: Key)
    requires r.parent == Some(p) && k !in db.jobs && NoEdges(db, p) && EdgesNumbered(db)
    ensures Settled(Insert(db, r, k).0, p)
  {
    hide Link, Settled;
    var db1 := if r.dedup.Some? then ClearStale(db, r.queue, r.dedup.value) else db;
    var db2 := InsertRow(db1, k, r);
    InsertRowEdges(db1, k, r);
    var db3 := HoldDedup(db2, r, k.id);
    LinkSettles(db3, p, k);
  }

  lemma InsertRowEdges(db: Db, k: Key, r: Request)
    ensures var db' := InsertRow(db, k, r); db'.edges == db.edges && db'.nextEdge == db.nextEdge && k in db'.jobs
  {}

  /** Nothing inserted; the outcome names an existing row unless the child is lost. */
  ghost predicate Declined(db: Db, db': Db, r: Request, id: JobId) {
    && Untouched(db, db') && SameHolders(db, db') && r.custom.Some? && Key(r.queue, r.custom.value) !in db.jobs
    && (Key(r.queue, id) in db.jobs <==> !Lost(db, r))
  }

  /** A child added under a new parent either settles the parent or inserts nothing; in the
      latter case its outcome names a row that exists unless the child is lost. */
  lemma AddUnder(db: Db, r: Request, p: Key)
    requires r.custom.Some? && r.parent == Some(p) && EdgesNumbered(db) && FreshParked(db, p)
    requires Add(db, r).1.Added?
    ensures var (db', out) := Add(db, r);
      && (Settled(db', p) || Declined(db, db', r, out.id))
      && (Lost(db, r) ==> Declined(db, db', r, out.id))
  {
    hide Insert, Link, Settled;
    var k := Key(r.queue, r.custom.value);
    if k in db.jobs {
      LinkSettles(db, p, k);
      var db1 := Link(db, p, k);
      if k in db1.jobs { ParentFieldSettles(db1, k, r.parent, p); }
    } else if Suppressed(db, r) {
    } else if Replaces(r) {
      ReplaceUnder(db, r, k, p);
    } else {
      InsertSettles(db, r, k, p);
    }
  }

  lemma ParentFieldSettles(db: Db, k: Key, parent: Option<Key>, p: Key)
    requires k in db.jobs && Settled(db, p)
    ensures Settled(Put(db, k, db.jobs[k].(parent := parent)), p)
  {}

  lemma ReplaceUnder(db: Db, r: Request, k: Key, p: Key)
    requires Replaces(r) && k == Key(r.queue, k.id) && r.custom == Some(k.id) && k !in db.jobs
    requires r.parent == Some(p) && EdgesNumbered(db) && NoEdges(db, p)
    ensures var (db', out) := Replace(db, r, k);
      && out.Added?
      && (Settled(db', p) || Declined(db, db', r, out.id))
      && (Lost(db, r) ==> Declined(db, db', r, out.id))
  {
    hide Insert, Settled;
    InsertAdds(db, r, k);
    InsertSettles(db, r, k, p);
    var dk := DedupKey(r.queue, r.dedup.value);
    if dk in db.dedups {
      var h := Key(r.queue, db.dedups[dk].job);
      if h in db.jobs && db.jobs[h].state in Replaceable(r.kind) {
        var db1 := DeleteDedups(DeleteJobs(db, {h}), {dk});
        InsertAdds(db1, r, k);
        InsertSettles(db1, r, k, p);
      }
    }
  }

  /** A parent that an insert parks either has a blocking edge or is a fresh one. */
  lemma AddFresh(db: Db, r: Request)
    requires r.custom.Some? && Standing(db)
    ensures var db' := Add(db, r).0; var k := Key(r.queue, r.custom.value);
      ParkedIn(db'.jobs, k) && k !in db.jobs ==> NoEdges(db', k)
  {
    hide Link, InsertRow;
    var k := Key(r.queue, r.custom.value);
    if r.queue in db.queues && k !in db.jobs && r.parent != Some(k) {
      InsertFresh(db, r, k);
      if Replaces(r) {
        var dk := DedupKey(r.queue, r.dedup.value);
        if dk in db.dedups {
          var h := Key(r.queue, db.dedups[dk].job);
          if h in db.jobs { InsertFresh(DeleteDedups(DeleteJobs(db, {h}), {dk}), r, k); }
        }
      }
    }
  }

  lemma InsertFresh(db: Db, r: Request, k: Key)
    requires k !in db.jobs && NoEdges(db, k) && r.parent != Some(k)
    ensures NoEdges(Insert(db, r, k).0, k)
  {
    hide InsertRow;
    var db1 := if r.dedup.Some? then ClearStale(db, r.queue, r.dedup.value) else db;
    InsertRowEdges(db1, k, r);
    var db3 := HoldDedup(InsertRow(db1, k, r), r, k.id);
    if r.parent.Some? { LinkEdges(db3, r.parent.value, k, k); }
  }

  lemma LinkEdges(db: Db, p: Key, c: Key, x: Key)
    requires p != x && NoEdges(db, x)
    ensures NoEdges(Link(db, p, c), x)
  {
    if p in db.jobs && c in db.jobs {
      ReleaseParentShape(AddEdge(db, p, c, LinkStatus(db.jobs[c])), p);
    }
  }

  // ---------------------------------------------------------------- flows

  ghost predicate AllLost(db: Db, ns: seq<Node>, p: Key) {
    forall i | 0 <= i < |ns| :: Lost(db, NodeRequest(ns[i], Some(p)))
  }

  /** Somewhere in the flow a new parent is created all of whose children are lost. */
  ghost predicate Strands(db: Db, n: Node, parent: Option<Key>)
    decreases n, 0
  {
    var (db1, r) := Add(EnsureQueue(db, n.queue), NodeRequest(n, parent));
    && r.Added? && n.children != [] && r.id == n.id
    && ((FreshParked(db1, KeyOf(n)) && AllLost(db1, n.children, KeyOf(n))) || StrandsBelow(db1, n.children, KeyOf(n)))
  }

  ghost predicate StrandsBelow(db: Db, ns: seq<Node>, p: Key)
    decreases ns, 1
  {
    ns != [] && (Strands(db, ns[0], Some(p))
                 || (AddNode(db, ns[0], Some(p)).Built? && StrandsBelow(AddNode(db, ns[0], Some(p)).db, ns[1..], p)))
  }

  lemma EnsureQueueRows(db: Db, q: QueueId)
    ensures Untouched(db, EnsureQueue(db, q)) && EnsureQueue(db, q).dedups == db.dedups
  {}

  lemma {:induction false} LinkAllParks(db: Db, p: Key, ks: seq<Key>)
    ensures OnlyParks(db, LinkAll(db, p, ks), {})
  {
    hide Link;
    if ks != [] {
      LinkAllParks(db, p, ks[..|ks| - 1]);
      LinkParks(LinkAll(db, p, ks[..|ks| - 1]), p, ks[|ks| - 1]);
    }
  }

  lemma LinkAllWaits(db: Db, p: Key, ks: seq<Key>, except: set<Key>)
    requires Standing(db) && Waits(db, except)
    ensures Waits(LinkAll(db, p, ks), except)
  {
    hide LinkAll, Gentle, Waits;
    LinkAllGentle(db, p, ks);
    LinkAllParks(db, p, ks);
    GentleWaits(db, LinkAll(db, p, ks), {}, except);
    assert except + {} == except;
  }

  /** After the root of a flow node is in, and before its children are. */
  lemma RootWaits(db: Db, n: Node, parent: Option<Key>, except: set<Key>)
    requires Standing(db) && Waits(db, except)
    requires Add(EnsureQueue(db, n.queue), NodeRequest(n, parent)).1.Added?
    ensures var (db1, r) := Add(EnsureQueue(db, n.queue), NodeRequest(n, parent));
      && Standing(db1) && Waits(db1, except + {KeyOf(n)})
      && (n.children == [] || r.id != n.id || !FreshParked(db1, KeyOf(n)) ==> Waits(db1, except))
  {
    hide Add, Gentle, Waits, FreshParked;
    var db0, r0 := EnsureQueue(db, n.queue), NodeRequest(n, parent);
    var (db1, r) := Add(db0, r0);
    var k := KeyOf(n);
    EnsureQueueGentle(db, n.queue);
    GentleStanding(db, db0);
    EnsureQueueWaits(db, n.queue, except);
    AddGentle(db0, r0);
    GentleStanding(db0, db1);
    AddParks(db0, r0);
    AddFresh(db0, r0);
    var ks := if r0.kind == FlowParent && r == Added(n.id) && k !in db0.jobs then {k} else {};
    GentleWaits(db0, db1, ks, except);
    assert except + {} == except;
    if ks == {} {
      WaitsMore(db1, except, {k});
    } else if !FreshParked(db1, k) {
      WaitsNotFresh(db1, k, except) by { assert ParkedIn(db1.jobs, k) ==> NoEdges(db1, k); }
    }
  }

  lemma WaitsMore(db: Db, except: set<Key>, more: set<Key>)
    requires Waits(db, except)
    ensures Waits(db, except + more)
  {}

  lemma WaitsNotFresh(db: Db, k: Key, except: set<Key>)
    requires Waits(db, except + {k})
    requires (ParkedIn(db.jobs, k) ==> NoEdges(db, k) || k in except || HasBlockingEdge(db, k))
    requires !FreshParked(db, k)
    ensures Waits(db, except)
  {}

  lemma EnsureQueueWaits(db: Db, q: QueueId, except: set<Key>)
    requires Waits(db, except)
    ensures Waits(EnsureQueue(db, q), except)
  {}

  /** An insert of a whole subtree leaves no parent waiting on nothing, unless it strands one. */
  lemma {:induction false} NodeWaits(db: Db, n: Node, parent: Option<Key>, except: set<Key>)
    requires Standing(db) && Waits(db, except)
    requires AddNode(db, n, parent).Built? && !Strands(db, n, parent)
    ensures Standing(AddNode(db, n, parent).db) && Waits(AddNode(db, n, parent).db, except)
    decreases n, 0
  {
    hide Add, Gentle, Waits, FreshParked, Standing, LinkAll, AllLost, AddChildren, StrandsBelow;
    var (db1, r) := Add(EnsureQueue(db, n.queue), NodeRequest(n, parent));
    RootWaits(db, n, parent, except);
    if n.children != [] && r.id == n.id {
      var k := KeyOf(n);
      var b := AddChildren(db1, n.children, k);
      if FreshParked(db1, k) {
        FreshBelow(db1, n.children, k, except);
        LinkAllFresh(db1, b.db, n.children, k, b.ids, except);
      } else {
        BelowWaits(db1, n.children, k, except);
        LinkAllWaits(b.db, k, b.ids, except);
      }
      LinkAllGentle(b.db, k, b.ids);
      GentleStanding(b.db, LinkAll(b.db, k, b.ids));
    }
  }

  lemma {:induction false} BelowWaits(db: Db, ns: seq<Node>, p: Key, except: set<Key>)
    requires Standing(db) && Waits(db, except)
    requires AddChildren(db, ns, p).BuiltAll? && !StrandsBelow(db, ns, p)
    ensures Standing(AddChildren(db, ns, p).db) && Waits(AddChildren(db, ns, p).db, except)
    decreases ns, 1
  {
    hide Standing, Waits, AddNode, Strands;
    if ns != [] {
      NodeWaits(db, ns[0], Some(p), except);
      BelowWaits(AddNode(db, ns[0], Some(p)).db, ns[1..], p, except);
    }
  }

  /** What the children of a fresh parent leave: either the parent is settled, or nothing has
      been inserted and exactly the children that are not lost name a row that exists. */
  lemma {:induction false} FreshBelow(db: Db, ns: seq<Node>, p: Key, except: set<Key>)
    requires Standing(db) && Waits(db, except + {p}) && FreshParked(db, p)
    requires AddChildren(db, ns, p).BuiltAll? && !StrandsBelow(db, ns, p)
    ensures var b := AddChildren(db, ns, p);
      Standing(b.db) && (Waits(b.db, except) || (Waits(b.db, except + {p}) && Fruitless(db, b.db, ns, p, b.ids)))
    decreases ns, 1
  {
    hide Standing, Waits, AddNode, Strands, FreshParked, Lost;
    var b := AddChildren(db, ns, p);
    if ns != [] {
      hide Untouched;
      var b0 := AddNode(db, ns[0], Some(p));
      var rest := AddChildren(b0.db, ns[1..], p);
      NodeWaits(db, ns[0], Some(p), except + {p});
      ChildUnder(db, ns[0], p);
      if Settled(b0.db, p) {
        SettledWaits(b0.db, p, except);
        BelowWaits(b0.db, ns[1..], p, except);
      } else {
        UntouchedFresh(db, b0.db, p);
        FreshBelow(b0.db, ns[1..], p, except);
        if !Waits(b.db, except) {
          FruitlessCons(db, b0.db, rest.db, ns, p, Key(ns[0].queue, b0.id), rest.ids);
        }
      }
    }
  }

  ghost predicate Fruitless(db: Db, db': Db, ns: seq<Node>, p: Key, ids: seq<Key>) {
    && Untouched(db, db') && |ids| == |ns|
    && forall i | 0 <= i < |ns| :: ids[i] in db.jobs <==> !Lost(db, NodeRequest(ns[i], Some(p)))
  }

  lemma SettledWaits(db: Db, p: Key, except: set<Key>)
    requires Waits(db, except + {p}) && Settled(db, p)
    ensures Waits(db, except)
  {}

  lemma UntouchedFresh(db: Db, db': Db, p: Key)
    requires Untouched(db, db') && FreshParked(db, p)
    ensures FreshParked(db', p)
  {}

  lemma FruitlessCons(db: Db, db1: Db, db': Db, ns: seq<Node>, p: Key, id: Key, ids: seq<Key>)
    requires ns != [] && Untouched(db, db1) && SameHolders(db, db1) && Fruitless(db1, db', ns[1..], p, ids)
    requires id in db.jobs <==> !Lost(db, NodeRequest(ns[0], Some(p)))
    ensures Fruitless(db, db', ns, p, [id] + ids)
  {
    forall i | 0 <= i < |ns| ensures ([id] + ids)[i] in db.jobs <==> !Lost(db, NodeRequest(ns[i], Some(p))) {
      if i > 0 {
        assert ns[i] == ns[1..][i - 1] && ([id] + ids)[i] == ids[i - 1];
        assert Lost(db1, NodeRequest(ns[i], Some(p))) <==> Lost(db, NodeRequest(ns[i], Some(p)));
      }
    }
  }

  lemma MissingParentAborts(db: Db, ns: seq<Node>, p: Key)
    requires p !in db.jobs && ns != []
    ensures AddChildren(db, ns, p).AbortedAll?
  {
    hide Link, Insert, Replace, AddExisting;
    var c := ns[0];
    EnsureQueueRows(db, c.queue);
    assert Add(EnsureQueue(db, c.queue), NodeRequest(c, Some(p))).1 == ParentMissing;
    assert AddNode(db, c, Some(p)).Aborted?;
  }

  lemma ChildRoot(db: Db, c: Node, p: Key)
    requires Standing(db) && FreshParked(db, p)
    requires Add(EnsureQueue(db, c.queue), NodeRequest(c, Some(p))).1.Added?
    ensures var (db1, r) := Add(EnsureQueue(db, c.queue), NodeRequest(c, Some(p)));
      Standing(db1) && (Settled(db1, p) || Declined(db, db1, NodeRequest(c, Some(p)), r.id))
  {
    hide Add, Gentle, Grounded, PksBounded;
    var db0, r0 := EnsureQueue(db, c.queue), NodeRequest(c, Some(p));
    EnsureQueueGentle(db, c.queue);
    GentleStanding(db, db0);
    EnsureQueueRows(db, c.queue);
    UntouchedFresh(db, db0, p);
    AddUnder(db0, r0, p);
    AddGentle(db0, r0);
    GentleStanding(db0, Add(db0, r0).0);
  }

  /** Adding one child, with its subtree, under a fresh parent. */
  lemma {:induction false} ChildUnder(db: Db, c: Node, p: Key)
    requires Standing(db) && FreshParked(db, p)
    requires AddNode(db, c, Some(p)).Built? && !Strands(db, c, Some(p))
    ensures var b := AddNode(db, c, Some(p));
      Settled(b.db, p) || Declined(db, b.db, NodeRequest(c, Some(p)), b.id)
    decreases c, 0
  {
    hide Add, Waits, FreshParked, Standing, LinkAll, AllLost, AddChildren, StrandsBelow, Declined, Settled;
    var (db1, r) := Add(EnsureQueue(db, c.queue), NodeRequest(c, Some(p)));
    var k := KeyOf(c);
    ChildRoot(db, c, p);
    if c.children != [] && r.id == c.id {
      if Settled(db1, p) {
        var except := db1.jobs.Keys - {p};
        AllButWaits(db1, p);
        BelowWaits(db1, c.children, k, except);
        var b := AddChildren(db1, c.children, k);
        LinkAllWaits(b.db, k, b.ids, except);
        WaitsSettled(LinkAll(b.db, k, b.ids), except, p);
      } else {
        DeclinedMissing(db, db1, NodeRequest(c, Some(p)), r.id);
        MissingParentAborts(db1, c.children, k);
      }
    }
  }

  lemma AllButWaits(db: Db, p: Key)
    requires Settled(db, p)
    ensures Waits(db, db.jobs.Keys - {p})
  {}

  lemma WaitsSettled(db: Db, except: set<Key>, p: Key)
    requires Waits(db, except) && p !in except
    ensures Settled(db, p)
  {}

  lemma DeclinedMissing(db: Db, db': Db, r: Request, id: JobId)
    requires Declined(db, db', r, id)
    ensures Key(r.queue, r.custom.value) !in db'.jobs
  {}

  /** Linking the children of a fresh parent settles it as soon as one of them exists. */
  lemma {:induction false} LinkAllSettles(db: Db, p: Key, ks: seq<Key>)
    requires Standing(db) && (Settled(db, p) || NoEdges(db, p))
    ensures var db' := LinkAll(db, p, ks);
      && Standing(db') && db'.jobs.Keys == db.jobs.Keys
      && (Settled(db', p) || (NoEdges(db', p) && forall i | 0 <= i < |ks| :: ks[i] !in db.jobs))
      && ((forall i | 0 <= i < |ks| :: ks[i] !in db.jobs) ==> db' == db)
  {
    hide Link, Settled, NoEdges, Standing;
    if ks != [] {
      var front, c := ks[..|ks| - 1], ks[|ks| - 1];
      LinkAllSettles(db, p, front);
      var db1 := LinkAll(db, p, front);
      LinkGentle(db1, p, c);
      GentleStanding(db1, Link(db1, p, c));
      LinkKeys(db1, p, c);
      if c in db1.jobs { LinkOne(db1, p, c); }
      assert forall i | 0 <= i < |front| :: front[i] == ks[i];
    }
  }

  lemma LinkKeys(db: Db, p: Key, c: Key)
    ensures Link(db, p, c).jobs.Keys == db.jobs.Keys
    ensures c !in db.jobs ==> Link(db, p, c) == db
  {
    hide ReleaseParent;
    if p in db.jobs && c in db.jobs { ReleaseParentShape(AddEdge(db, p, c, LinkStatus(db.jobs[c])), p); }
  }

  lemma LinkOne(db: Db, p: Key, c: Key)
    requires Standing(db) && c in db.jobs && (Settled(db, p) || NoEdges(db, p))
    ensures Settled(Link(db, p, c), p)
  {
    LinkSettles(db, p, c);
  }

  lemma LinkAllFresh(db: Db, db1: Db, ns: seq<Node>, p: Key, ids: seq<Key>, except: set<Key>)
    requires Standing(db1) && FreshParked(db, p) && !AllLost(db, ns, p)
    requires Waits(db1, except) || (Waits(db1, except + {p}) && Fruitless(db, db1, ns, p, ids))
    ensures Waits(LinkAll(db1, p, ids), except)
  {
    hide Waits, Standing, LinkAll, Lost;
    if Waits(db1, except) {
      LinkAllWaits(db1, p, ids, except);
    } else {
      LinkAllWaits(db1, p, ids, except + {p});
      UntouchedFresh(db, db1, p);
      LinkAllSettles(db1, p, ids);
      SettledWaits(LinkAll(db1, p, ids), p, except);
    }
  }
}

/** No parent waits on nothing, in any run: the steps that settle, cut or reset edges, and the
    exact moment at which the end of a child releases its parent. */
module Parents {
  import opened Rows
  import opened Ordering
  import opened Tables
  import opened Linking
  import opened Adding
  import opened Claiming
  import opened Ending
  import opened Managing
  import opened Flows
  import opened Machine
  import opened Frames
  import opened Lives
  import opened Waiting

  // ---------------------------------------------------------------- the flow that strands a parent

  lemma LostDeclines(db: Db, c: Node, p: Key)
    requires Standing(db) && FreshParked(db, p) && Lost(db, NodeRequest(c, Some(p))) && AddNode(db, c, Some(p)).Built?
    ensures var b := AddNode(db, c, Some(p));
      Declined(db, b.db, NodeRequest(c, Some(p)), b.id)
  {
    hide AddChildren, LinkAll;
    var db0, r0 := EnsureQueue(db, c.queue), NodeRequest(c, Some(p));
    EnsureQueueRows(db, c.queue);
    EnsureQueueGentle(db, c.queue);
    GentleStanding(db, db0);
    UntouchedFresh(db, db0, p);
    AddUnder(db0, r0, p) by { hide Add; }
    var (db1, r) := Add(db0, r0);
    if c.children != [] && r.id == c.id {
      MissingParentAborts(db1, c.children, KeyOf(c));
    }
  }

  lemma {:induction false} LostBelow(db: Db, ns: seq<Node>, p: Key)
    requires Standing(db) && FreshParked(db, p) && AllLost(db, ns, p) && AddChildren(db, ns, p).BuiltAll?
    ensures var b := AddChildren(db, ns, p); Fruitless(db, b.db, ns, p, b.ids) && Standing(b.db)
    decreases ns
  {
    if ns != [] {
      hide AddNode, FreshParked, Standing, Lost, Untouched;
      assert Lost(db, NodeRequest(ns[0], Some(p)));
      LostDeclines(db, ns[0], p);
      var b0 := AddNode(db, ns[0], Some(p));
      var rest := AddChildren(b0.db, ns[1..], p);
      DeclinedStands(db, b0.db, NodeRequest(ns[0], Some(p)), b0.id, p);
      forall i | 0 <= i < |ns[1..]| ensures Lost(b0.db, NodeRequest(ns[1..][i], Some(p))) {
        assert Lost(db, NodeRequest(ns[i + 1], Some(p)));
        DeclinedLost(db, b0.db, NodeRequest(ns[0], Some(p)), b0.id, NodeRequest(ns[i + 1], Some(p)));
      }
      LostBelow(b0.db, ns[1..], p);
      FruitlessCons(db, b0.db, rest.db, ns, p, Key(ns[0].queue, b0.id), rest.ids);
    } else {
      LostNone(db, p);
    }
  }

  lemma LostNone(db: Db, p: Key)
    ensures Untouched(db, db)
  {}

  lemma DeclinedStands(db: Db, db': Db, r: Request, id: JobId, p: Key)
    requires Declined(db, db', r, id) && Standing(db) && FreshParked(db, p)
    ensures Standing(db') && FreshParked(db', p) && Untouched(db, db') && SameHolders(db, db')
  {}

  lemma DeclinedLost(db: Db, db': Db, r: Request, id: JobId, r': Request)
    requires Declined(db, db', r, id) && Lost(db, r')
    ensures Lost(db', r')
  {}

  /** A new parent is left waiting on nothing exactly when every one of its children carries
      `replace` under a deduplication id whose job row is gone. */
  lemma StrandedExactly(db: Db, n: Node, parent: Option<Key>)
    requires Standing(db) && Waits(db, {}) && KeyOf(n) !in db.jobs && n.children != []
    requires AddNode(db, n, parent).Built?
    requires var db1 := Add(EnsureQueue(db, n.queue), NodeRequest(n, parent)).0;
      FreshParked(db1, KeyOf(n)) && !StrandsBelow(db1, n.children, KeyOf(n))
    ensures var db1 := Add(EnsureQueue(db, n.queue), NodeRequest(n, parent)).0;
      Waits(AddNode(db, n, parent).db, {}) <==> !AllLost(db1, n.children, KeyOf(n))
  {
    hide Add, Waits, Standing, FreshParked, AllLost, AddChildren, LinkAll, StrandsBelow;
    var (db1, r) := Add(EnsureQueue(db, n.queue), NodeRequest(n, parent));
    var k := KeyOf(n);
    RootNamed(db, n, parent);
    assert ParkedIn(db1.jobs, k) by { FreshIsParked(db1, k); }
    assert AddNode(db, n, parent) ==
      (var b := AddChildren(db1, n.children, k);
       if b.AbortedAll? then Aborted else Built(LinkAll(b.db, k, b.ids), n.id));
    RootWaits(db, n, parent, {});
    if AllLost(db1, n.children, k) {
      LostBelow(db1, n.children, k);
      var b := AddChildren(db1, n.children, k);
      LostLeavesFresh(db1, b.db, n.children, k, b.ids);
    } else {
      NodeWaits(db, n, parent, {});
    }
  }

  lemma FreshIsParked(db: Db, p: Key)
    requires FreshParked(db, p)
    ensures ParkedIn(db.jobs, p)
  {}

  lemma RootNamed(db: Db, n: Node, parent: Option<Key>)
    requires KeyOf(n) !in db.jobs
    ensures var (db1, r) := Add(EnsureQueue(db, n.queue), NodeRequest(n, parent));
      ParkedIn(db1.jobs, KeyOf(n)) ==> r == Added(n.id)
  {
    hide Add;
    AddParks(EnsureQueue(db, n.queue), NodeRequest(n, parent));
  }

  lemma LostLeavesFresh(db: Db, db1: Db, ns: seq<Node>, p: Key, ids: seq<Key>)
    requires Standing(db1) && FreshParked(db, p) && AllLost(db, ns, p) && Fruitless(db, db1, ns, p, ids)
    ensures !Waits(LinkAll(db1, p, ids), {})
  {
    hide Standing, LinkAll;
    LinkAllSettles(db1, p, ids);
    assert ParkedIn(db1.jobs, p);
  }

  /** Flows in which no deduplicated node carries `replace` strand nobody. */
  predicate NoReplace(n: Node) {
    && !(n.dedup.Some? && n.payload.opts.dedup.Some? && n.payload.opts.dedup.value.replace)
    && forall i | 0 <= i < |n.children| :: NoReplace(n.children[i])
  }

  lemma {:induction false} NoReplaceStrandsNone(db: Db, n: Node, parent: Option<Key>)
    requires NoReplace(n)
    ensures !Strands(db, n, parent)
    decreases n, 0
  {
    hide Add, Link;
    var db1 := Add(EnsureQueue(db, n.queue), NodeRequest(n, parent)).0;
    NoneStrandBelow(db1, n.children, KeyOf(n));
    if n.children != [] {
      assert NoReplace(n.children[0]);
      assert !Lost(db1, NodeRequest(n.children[0], Some(KeyOf(n))));
    }
  }

  lemma {:induction false} NoneStrandBelow(db: Db, ns: seq<Node>, p: Key)
    requires forall i | 0 <= i < |ns| :: NoReplace(ns[i])
    ensures !StrandsBelow(db, ns, p)
    decreases ns, 1
  {
    hide AddNode, Strands;
    if ns != [] {
      NoReplaceStrandsNone(db, ns[0], Some(p));
      var b := AddNode(db, ns[0], Some(p));
      if b.Built? { NoneStrandBelow(b.db, ns[1..], p); }
    }
  }

  // ---------------------------------------------------------------- steps that leave edges alone

  /** Same edges, and the same rows parked. */
  ghost predicate Placid(db: Db, db': Db) {
    && db'.jobs.Keys == db.jobs.Keys && db'.edges == db.edges && db'.nextEdge == db.nextEdge && db'.nextPk == db.nextPk
    && forall k | k in db.jobs ::
      db'.jobs[k].pk == db.jobs[k].pk && (db'.jobs[k].state == Parked <==> db.jobs[k].state == Parked)
  }

  lemma PlacidWaits(db: Db, db': Db)
    requires Placid(db, db') && Standing(db) && Waits(db, {})
    ensures Standing(db') && Waits(db', {})
  {
    forall p | ParkedIn(db'.jobs, p) ensures HasBlockingEdge(db', p) {
      assert ParkedIn(db.jobs, p);
    }
  }

  lemma OneRowPlacid(db: Db, db': Db, k: Key)
    requires k in db.jobs && OneRow(db, db', k)
    requires db'.jobs[k].pk == db.jobs[k].pk && (db'.jobs[k].state == Parked <==> db.jobs[k].state == Parked)
    ensures Placid(db, db')
  {}

  lemma ClaimPlacid(db: Db, a: ClaimArgs)
    ensures Placid(db, Claim(db, a))
  {
    hide PromoteDue, Calm;
    if a.queue in db.queues {
      var db0 := DropExpiredWindow(db, a.queue);
      PromoteDueCalm(db0, a.queue);
    }
  }

  lemma RetryPlacid(db: Db, k: Key, t: Token, lifo: bool)
    ensures Placid(db, Retry(db, k, t, lifo).0)
  {
    hide PromoteDue, Calm, RetryRow;
    if HeldBy(db, k, t) {
      PromoteDueCalm(db, k.queue);
      RetryRowShape(PromoteDue(db, k.queue), k, lifo);
      OneRowPlacid(PromoteDue(db, k.queue), RetryRow(PromoteDue(db, k.queue), k, lifo), k);
    }
  }

  lemma ReleasePlacid(db: Db, k: Key, t: Token)
    ensures Placid(db, Release(db, k, t).0)
  {
    if HeldBy(db, k, t) {
      hide Release;
      ReleaseShape(db, k, t);
      OneRowPlacid(db, Release(db, k, t).0, k);
    } else {
      assert Release(db, k, t).0 == db;
    }
  }

  lemma SweepPlacid(db: Db, q: QueueId, m: int)
    ensures Placid(db, Sweep(db, q, m))
  {
    hide SweepNumber;
  }

  lemma PromotePlacid(db: Db, k: Key)
    ensures Placid(db, Promote(db, k).0)
  {
    hide Enqueue, Prioritize;
    if k in db.jobs {
      EnqueueShape(db, k, db.jobs[k].(processAt := None));
      PrioritizeShape(db, k, db.jobs[k].(processAt := None),
        if QueueOf(db, k.queue).paused then Paused else Prioritized);
    }
  }

  lemma ChangePriorityPlacid(db: Db, k: Key, p: int, h: bool)
    ensures Placid(db, ChangePriority(db, k, p, h).0)
  {
    if k in db.jobs {
      hide ChangePriority;
      ChangePriorityShape(db, k, p, h);
      OneRowPlacid(db, ChangePriority(db, k, p, h).0, k);
    }
  }

  lemma MoveBatchPlacid(db: Db, q: QueueId, from: JobState, n: nat, t: Millis)
    ensures Placid(db, MoveBatch(db, q, from, n, t))
  {
    hide Sorted, FirstN, MoveSeq;
    var st := SourceState(from);
    var ks := FirstN(Sorted(BatchOrder(st), db.jobs, Movable(db, q, st, t)), n);
    MovedListed(db, q, st, n, t);
    MoveSeqRows(db, ks, st);
  }

  lemma LeasePlacid(db: Db, op: Op)
    requires op.OpDelay? || op.OpExtend? || op.OpExtendMany?
    ensures Placid(db, Step(db, op))
  {
    hide Renews;
  }

  lemma MiscPlacid(db: Db, op: Op)
    requires op.OpTick? || op.OpQueue? || op.OpPause?
    ensures Placid(db, Step(db, op))
  {}

  // ---------------------------------------------------------------- steps that touch edges

  lemma ToChildrenWaits(db: Db, k: Key, t: Token, c: Option<Key>)
    requires Standing(db) && Waits(db, {})
    ensures Standing(ToChildren(db, k, t, c).0) && Waits(ToChildren(db, k, t, c).0, {})
  {
    var db' := ToChildren(db, k, t, c).0;
    if ToChildren(db, k, t, c).1 == Ok {
      forall p | ParkedIn(db'.jobs, p) ensures HasBlockingEdge(db', p) {
        if p == k {
          assert HasEdge(db, k, Pending);
        } else {
          assert ParkedIn(db.jobs, p);
        }
      }
    }
  }

  lemma ReprocessWaits(db: Db, k: Key, m: bool, s: bool, t: Option<bool>)
    requires Standing(db) && Waits(db, {})
    ensures Standing(Reprocess(db, k, m, s, t).0) && Waits(Reprocess(db, k, m, s, t).0, {})
  {
    hide Enqueue;
    if Reprocess(db, k, m, s, t).1 == Ok {
      var j := db.jobs[k];
      var j1 := Unlocked(j).(attemptsMade := if m then 0 else j.attemptsMade,
                             attemptsStarted := if s then 0 else j.attemptsStarted, finishedOn := None);
      EnqueueShape(db, k, j1);
      var db1 := Enqueue(db, k, j1);
      OneRowPlacid(db, db1, k);
      PlacidWaits(db, db1);
      ResetWaits(db1, Reprocess(db, k, m, s, t).0);
    }
  }

  /** A job put back to work blocks each of its parents again. */
  lemma ReprocessBlocks(db: Db, k: Key, m: bool, s: bool, t: Option<bool>, p: Key)
    requires Reprocess(db, k, m, s, t).1 == Ok && Linked(db, p, k)
    ensures HasBlockingEdge(Reprocess(db, k, m, s, t).0, p)
  {
    var i :| i in db.edges && db.edges[i].parent == p && EdgeOf(db.edges[i], k);
    assert Blocking(Reprocess(db, k, m, s, t).0.edges[i]);
  }

  /** Edges that are only reset to pending block as much as before. */
  lemma ResetWaits(db: Db, db': Db)
    requires Standing(db) && Waits(db, {}) && db' == db.(edges := db'.edges) && db'.edges.Keys == db.edges.Keys
    requires forall i | i in db.edges :: db'.edges[i] == db.edges[i] || db'.edges[i] == db.edges[i].(status := Pending)
    ensures Standing(db') && Waits(db', {})
  {
    forall p | ParkedIn(db'.jobs, p) ensures HasBlockingEdge(db', p) {
      assert ParkedIn(db.jobs, p);
      var i :| i in db.edges && db.edges[i].parent == p && Blocking(db.edges[i]);
      assert Blocking(db'.edges[i]);
    }
  }

  lemma CutEdgeWaits(db: Db, c: Key, p: Key)
    requires Standing(db) && Waits(db, {})
    ensures Standing(CutEdge(db, c, p).0) && Waits(CutEdge(db, c, p).0, {})
  {
    hide Enqueue;
    if CutEdge(db, c, p).1 == CutOk {
      var db1 := db.(edges := map i | i in db.edges && !(db.edges[i].parent == p && EdgeOf(db.edges[i], c)) ::
        db.edges[i]);
      CutStands(db, db1, c, p);
      if HasEdge(db1, p, Pending) || db.jobs[p].state != Parked {
        assert HasEdge(db1, p, Pending) ==> HasBlockingEdge(db1, p);
        CutSettled(db1, p);
      } else {
        EnqueueShape(db1, p, db1.jobs[p]);
        EnqueuedWaits(db1, Enqueue(db1, p, db1.jobs[p]), p);
      }
    }
  }

  lemma CutStands(db: Db, db1: Db, c: Key, p: Key)
    requires Standing(db) && Waits(db, {})
    requires db1 ==
      db.(edges := map i | i in db.edges && !(db.edges[i].parent == p && EdgeOf(db.edges[i], c)) :: db.edges[i])
    ensures Standing(db1) && Waits(db1, {p})
  {
    forall x | ParkedIn(db1.jobs, x) && x != p ensures HasBlockingEdge(db1, x) {
      assert ParkedIn(db.jobs, x);
      var i :| i in db.edges && db.edges[i].parent == x && Blocking(db.edges[i]);
      assert i in db1.edges;
    }
  }

  lemma CutSettled(db: Db, p: Key)
    requires Waits(db, {p}) && (ParkedIn(db.jobs, p) ==> HasBlockingEdge(db, p))
    ensures Waits(db, {})
  {}

  lemma EnqueuedWaits(db: Db, db': Db, p: Key)
    requires Standing(db) && Waits(db, {p}) && p in db.jobs && OneRow(db, db', p)
    requires Queued(db'.jobs[p]) && db'.jobs[p].pk == db.jobs[p].pk
    ensures Standing(db') && Waits(db', {})
  {
    forall x | ParkedIn(db'.jobs, x) ensures HasBlockingEdge(db', x) { assert ParkedIn(db.jobs, x); }
  }
}

/** Flow order over whole runs: a node of a flow tree is claimed only after every one of its
    descendants has completed, under any interleaving of the other steps. */
module FlowOrder {
  import opened Rows
  import opened Tables
  import opened Places
  import opened Linking
  import opened Adding
  import opened Claiming
  import opened Ending
  import opened Managing
  import opened Flows
  import opened Machine
  import opened Frames
  import opened Lives
  import opened Waiting
  import opened Parents
  import opened Releasing
  import opened Trees

  /** The row that carried the key when the flow was added; keys may be reused, primary keys not. */
  ghost predicate Orig(db: Db, pks: map<Key, nat>, k: Key) {
    k in db.jobs && k in pks && db.jobs[k].pk == pks[k]
  }

  /** Edge `i` makes `t.parent` wait for `t.child`, and a link it has is a link to the original row. */
  ghost predicate TieHolds(db: Db, pks: map<Key, nat>, t: Tie, i: nat) {
    && i in db.edges && db.edges[i].parent == t.parent && db.edges[i].child == t.child && Blocking(db.edges[i])
    && (db.edges[i].linked ==> Orig(db, pks, t.child))
  }

  /** Until the child has completed, the parent stays parked behind its edge. */
  ghost predicate Guarded(db: Db, pks: map<Key, nat>, done: set<Key>, t: Tie) {
    Orig(db, pks, t.parent) && t.child !in done ==> ParkedIn(db.jobs, t.parent) && exists i :: TieHolds(db, pks, t, i)
  }

  predicate Closed(done: set<Key>, ts: set<Tie>) {
    forall t | t in ts && t.parent in done :: t.child in done
  }

  ghost predicate InFlow(db: Db, pks: map<Key, nat>, done: set<Key>, ts: set<Tie>) {
    && Closed(done, ts) && (forall k | k in pks :: pks[k] < db.nextPk)
    && forall t | t in ts :: Guarded(db, pks, done, t)
  }

  /** The step completes the original row of `k`. */
  ghost predicate Completes(db: Db, op: Op, pks: map<Key, nat>, k: Key) {
    op.OpFinish? && op.finish.key == k && op.finish.ok && Finishes(db, op.finish) && Orig(db, pks, k)
  }

  predicate PlainOpts(o: JobOpts) {
    !o.fpof && !o.cpof && !o.idof && !o.rdof
  }

  /** No edge of a parent in `ps` is cut, and a failing job under one carries none of the options
      that would let the parent go, nor is it removed at once. */
  ghost predicate Sparing(db: Db, op: Op, ps: set<Key>) {
    match op
    case OpCutEdge(_, p) => p !in ps
    case OpFinish(a) => !a.ok && a.key in db.jobs && (exists p :: p in ps && Linked(db, p, a.key)) ==>
      PlainOpts(db.jobs[a.key].payload.opts) && a.keep != Some(0)
    case _ => true
  }

  // ---------------------------------------------------------------- steps that let edges be

  lemma GentleGuards(db: Db, db': Db, pks: map<Key, nat>, done: set<Key>, t: Tie)
    requires Gentle(db, db') && Standing(db) && Guarded(db, pks, done, t)
    requires forall k | k in pks :: pks[k] < db.nextPk
    ensures Guarded(db', pks, done, t)
  {
    if Orig(db', pks, t.parent) && t.child !in done {
      assert KeptOrNew(db, db', t.parent);
      var i :| TieHolds(db, pks, t, i);
      assert SameRow(db, db', t.parent);
      assert EdgeKept(db, db', i);
      assert TieHolds(db', pks, t, i);
    }
  }

  /** Rows stay, and those parked by an edge of `ts` stay parked behind it. */
  ghost predicate Kept(db: Db, db': Db, t: Tie) {
    && db'.jobs.Keys == db.jobs.Keys
    && (forall k | k in db.jobs :: db'.jobs[k].pk == db.jobs[k].pk)
    && (ParkedIn(db.jobs, t.parent) ==> ParkedIn(db'.jobs, t.parent))
    && (forall i | i in db.edges && db.edges[i].parent == t.parent
      && db.edges[i].child == t.child && Blocking(db.edges[i]) ::
          i in db'.edges && Blocking(db'.edges[i]) && SameEnds(db.edges[i], db'.edges[i]))
  }

  lemma KeptGuards(db: Db, db': Db, pks: map<Key, nat>, done: set<Key>, t: Tie)
    requires Kept(db, db', t) && Guarded(db, pks, done, t)
    ensures Guarded(db', pks, done, t)
  {
    if Orig(db', pks, t.parent) && t.child !in done {
      var i :| TieHolds(db, pks, t, i);
      assert TieHolds(db', pks, t, i);
    }
  }

  lemma PlacidKept(db: Db, db': Db, t: Tie)
    requires Placid(db, db')
    ensures Kept(db, db', t)
  {}

  lemma ToChildrenKept(db: Db, k: Key, tok: Token, c: Option<Key>, t: Tie)
    ensures Kept(db, ToChildren(db, k, tok, c).0, t)
  {}

  lemma ReprocessKept(db: Db, k: Key, m: bool, s: bool, o: Option<bool>, t: Tie)
    ensures Kept(db, Reprocess(db, k, m, s, o).0, t)
  {}

  lemma CutEdgeKept(db: Db, c: Key, p: Key, t: Tie)
    requires p != t.parent
    ensures Kept(db, CutEdge(db, c, p).0, t)
  {}

  // ---------------------------------------------------------------- the finish

  /** The child of `t` has not just completed, so resolving leaves its edge blocking. */
  lemma ResolveKept(db: Db, a: FinishArgs, opts: JobOpts, t: Tie, pks: map<Key, nat>, i: nat)
    requires TieHolds(db, pks, t, i)
    requires a.ok ==> !(t.child == a.key && Orig(db, pks, t.child))
    requires !a.ok && Linked(db, t.parent, a.key) ==> PlainOpts(opts) && a.keep != Some(0)
    ensures TieHolds(ResolveEdges(db, a.key, opts, a.ok, a.keep == Some(0)), pks, t, i)
  {}

  /** Up to the settling, a parent whose child has not just completed is left alone. */
  lemma ResolvedHolds(db: Db, a: FinishArgs, opts: JobOpts, pks: map<Key, nat>, t: Tie, i: nat)
    requires Grounded(db) && TieHolds(db, pks, t, i) && t.parent in db.jobs
    requires a.ok ==> !(t.child == a.key && Orig(db, pks, t.child))
    requires !a.ok && Linked(db, t.parent, a.key) ==> PlainOpts(opts) && a.keep != Some(0)
    ensures var db2 := Resolved(db, a, opts);
      && TieHolds(db2, pks, t, i) && t.parent in db2.jobs && db2.jobs[t.parent] == db.jobs[t.parent]
      && !(t.parent in Notified(db, a) && Lets(db2, t.parent, !a.ok && opts.cpof))
  {
    hide ForceParents, ResolveEdges, Notified, TieHolds, HasBlockingEdge, Linked, Orig;
    var ps := Notified(db, a);
    NotifiedListed(db, a);
    var db1 := ResolveEdges(db, a.key, opts, a.ok, a.keep == Some(0));
    ResolveRooted(db, a.key, opts, a.ok, a.keep == Some(0));
    ResolveKept(db, a, opts, t, pks, i);
    if !a.ok && opts.fpof {
      ForceParentsShape(db1, ps);
      HoldsSame(db1, ForceParents(db1, ps), pks, t, i);
    }
    HoldsBlocks(Resolved(db, a, opts), pks, t, i);
  }

  lemma NotifyGuards(db: Db, a: FinishArgs, opts: JobOpts, pks: map<Key, nat>, done: set<Key>, t: Tie)
    requires Standing(db) && QueuesExist(Resolved(db, a, opts)) && Guarded(db, pks, done, t)
    requires a.ok && Orig(db, pks, a.key) ==> a.key in done
    requires !a.ok && Linked(db, t.parent, a.key) ==> PlainOpts(opts) && a.keep != Some(0)
    ensures Guarded(NotifyParents(db, a, opts), pks, done, t)
  {
    hide SettleParents, Resolved, Standing, Notified, TieHolds, QueuesCalm, Released, Linked, Lets, NotifyParents;
    NotifySplit(db, a, opts);
    StandsGrounded(db);
    NotifiedListed(db, a);
    var ps, cpof, db2 := Notified(db, a), !a.ok && opts.cpof, Resolved(db, a, opts);
    SettleParentsExactly(db2, ps, cpof);
    var db3 := SettleParents(db2, ps, cpof);
    ResolvedPks(db, a, opts);
    if Orig(db3, pks, t.parent) && t.child !in done {
      var i :| TieHolds(db, pks, t, i);
      ResolvedHolds(db, a, opts, pks, t, i);
      HoldsSame(db2, db3, pks, t, i);
    }
  }

  lemma HoldsSame(db: Db, db': Db, pks: map<Key, nat>, t: Tie, i: nat)
    requires TieHolds(db, pks, t, i) && db'.edges == db.edges && db'.jobs.Keys == db.jobs.Keys
    requires forall k | k in db.jobs :: db'.jobs[k].pk == db.jobs[k].pk
    ensures TieHolds(db', pks, t, i)
  {}

  lemma HoldsBlocks(db: Db, pks: map<Key, nat>, t: Tie, i: nat)
    requires TieHolds(db, pks, t, i)
    ensures HasBlockingEdge(db, t.parent)
  {}

  lemma GuardedMore(db: Db, pks: map<Key, nat>, done: set<Key>, done': set<Key>, t: Tie)
    requires Guarded(db, pks, done, t) && done <= done'
    ensures Guarded(db, pks, done', t)
  {}

  lemma KeepsLinked(db: Db, db': Db, p: Key, c: Key)
    requires db'.edges == db.edges
    ensures Linked(db', p, c) == Linked(db, p, c)
  {}

  lemma KeepsOrig(db: Db, db': Db, pks: map<Key, nat>, k: Key)
    requires Keeps(db, db') && k in db.jobs
    ensures Orig(db', pks, k) == Orig(db, pks, k)
  {}

  lemma FinishGuards(db: Db, a: FinishArgs, pks: map<Key, nat>, done: set<Key>, t: Tie)
    requires Sane(db) && Finishes(db, a) && Guarded(db, pks, done, t)
    requires forall k | k in pks :: pks[k] < db.nextPk
    requires a.ok && Orig(db, pks, a.key) ==> a.key in done
    requires !a.ok && Linked(db, t.parent, a.key) ==> PlainOpts(db.jobs[a.key].payload.opts) && a.keep != Some(0)
    ensures Guarded(DoFinish(db, a), pks, done, t)
  {
    hide Requeue, NotifyParents, Trim, Calm, Standing, InPlace, EdgesCalm, OnlyParks, Placid, Rooted, Resolved;
    hide Guarded, Orig, Linked, Keeps;
    var j := db.jobs[a.key];
    assert Sound(LifeOf(j)) && j.state == Active;
    var db1 := Put(db, a.key, EndedRow(j, a.ok, db.now));
    EndedPlacid(db, a);
    PlacidKept(db, db1, t);
    KeptGuards(db, db1, pks, done, t);
    EndedRooted(db, a);
    RootedStanding(db, db1);
    EndedInPlace(db, a);
    EndedOrig(db, a, pks);
    var db2 := Requeue(db1, a.key);
    RequeueKeeps(db1, a.key);
    GentleGuards(db1, db2, pks, done, t);
    GentleStanding(db1, db2);
    KeepsOrig(db1, db2, pks, a.key);
    KeepsEdges(db1, db2);
    KeepsLinked(db, db2, t.parent, a.key);
    CalmQueuesExist(db1, db2);
    ResolvedQueues(db2, a, j.payload.opts);
    NotifyGuards(db2, a, j.payload.opts, pks, done, t);
    var db3 := NotifyParents(db2, a, j.payload.opts);
    NotifyRooted(db2, a, j.payload.opts);
    NotifyParentsCalm(db2, a, j.payload.opts);
    CalmTrans(db1, db2, db3);
    CalmStaysIdle(db1, db3, a.key);
    CalmPks(db1, db3);
    TrimGentle(db3, a);
    GentleGuards(db3, Trim(db3, a), pks, done, t);
  }

  lemma EndedOrig(db: Db, a: FinishArgs, pks: map<Key, nat>)
    requires a.key in db.jobs
    ensures var db1 := Put(db, a.key, EndedRow(db.jobs[a.key], a.ok, db.now));
      Orig(db1, pks, a.key) == Orig(db, pks, a.key) && db1.edges == db.edges && db1.nextPk == db.nextPk
  {}

  lemma KeepsEdges(db: Db, db': Db)
    requires Keeps(db, db')
    ensures db'.edges == db.edges
  {}

  lemma CalmPks(db: Db, db': Db)
    requires Calm(db, db')
    ensures db'.nextPk >= db.nextPk
  {}

  // ---------------------------------------------------------------- every step

  ghost function NowDone(db: Db, op: Op, pks: map<Key, nat>, done: set<Key>): set<Key> {
    if op.OpFinish? && Completes(db, op, pks, op.finish.key) then done + {op.finish.key} else done
  }

  lemma StepGuards(db: Db, op: Op, pks: map<Key, nat>, done: set<Key>, t: Tie)
    requires Sane(db) && Guarded(db, pks, done, t) && Sparing(db, op, {t.parent})
    requires forall k | k in pks :: pks[k] < db.nextPk
    ensures Guarded(Step(db, op), pks, NowDone(db, op, pks, done), t)
  {
    hide Guarded, LeasesSound, InPlace, Standing, Placid, Gentle, DoFinish, Finishes, Add, AddNode, ToChildren;
    hide Reprocess, CutEdge, Kept, Orig, Linked;
    var db', done' := Step(db, op), NowDone(db, op, pks, done);
    GuardedMore(db, pks, done, done', t);
    if PlacidOp(op) {
      StepPlacid(db, op);
      PlacidKept(db, db', t);
      KeptGuards(db, db', pks, done', t);
    } else {
      match op
      case OpAdd(r) => AddGentle(db, r); GentleGuards(db, db', pks, done', t);
      case OpFlow(n, p) => AddFlowGentle(db, n, p); GentleGuards(db, db', pks, done', t);
      case OpFinish(a) =>
        if Finishes(db, a) {
          FinishesAt(db, a);
          assert t.parent in {t.parent};
          FinishGuards(db, a, pks, done', t);
        }
      case OpToChildren(k, o, c) => ToChildrenKept(db, k, o, c, t); KeptGuards(db, db', pks, done', t);
      case OpReprocess(k, m, s, o) => ReprocessKept(db, k, m, s, o, t); KeptGuards(db, db', pks, done', t);
      case OpCutEdge(c, p) => CutEdgeKept(db, c, p, t); KeptGuards(db, db', pks, done', t);
    }
  }

  lemma FinishesAt(db: Db, a: FinishArgs)
    requires Finishes(db, a)
    ensures a.key in db.jobs
  {}

  /** A job that completes was running, so nothing was holding it back. */
  lemma CompletedWasFree(db: Db, op: Op, pks: map<Key, nat>, done: set<Key>, t: Tie)
    requires LeasesSound(db) && Completes(db, op, pks, t.parent) && Guarded(db, pks, done, t)
    ensures t.child in done
  {
    assert Sound(LifeOf(db.jobs[t.parent]));
  }

  lemma StepInFlow(db: Db, op: Op, pks: map<Key, nat>, done: set<Key>, ts: set<Tie>, ps: set<Key>)
    requires Sane(db) && InFlow(db, pks, done, ts) && Sparing(db, op, ps)
    requires forall t | t in ts :: t.parent in ps
    ensures InFlow(Step(db, op), pks, NowDone(db, op, pks, done), ts)
  {
    hide Sane, Guarded, Step, Orig;
    var done' := NowDone(db, op, pks, done);
    forall t | t in ts ensures Guarded(Step(db, op), pks, done', t) {
      SparingLess(db, op, ps, t.parent);
      StepGuards(db, op, pks, done, t);
    }
    forall t | t in ts && t.parent in done' ensures t.child in done' {
      if t.parent !in done { CompletedWasFree(db, op, pks, done, t) by { SaneSound(db); } }
    }
    SaneSound(db);
    StepLife(db, op);
    LivesPks(db, EffectOf(db, op), Step(db, op));
  }

  lemma LivesPks(db: Db, e: Effect, db': Db)
    requires AllLiveOn(db, e, db')
    ensures db'.nextPk >= db.nextPk
  {}

  lemma SparingLess(db: Db, op: Op, ps: set<Key>, p: Key)
    requires Sparing(db, op, ps) && p in ps
    ensures Sparing(db, op, {p})
  {}

  // ---------------------------------------------------------------- whole runs

  ghost predicate SparingRun(db: Db, ops: seq<Op>, ps: set<Key>) {
    forall i | 0 <= i < |ops| :: Sparing(At(db, ops, i), ops[i], ps)
  }

  lemma SparingFront(db: Db, ops: seq<Op>, ps: set<Key>)
    requires ops != [] && SparingRun(db, ops, ps)
    ensures SparingRun(db, ops[..|ops| - 1], ps) && Sparing(Run(db, ops[..|ops| - 1]), ops[|ops| - 1], ps)
  {
    hide Sparing, Run;
    var front := ops[..|ops| - 1];
    forall i | 0 <= i < |front| ensures Sparing(At(db, front, i), front[i], ps) {
      assert front[..i] == ops[..i];
      assert Sparing(At(db, ops, i), ops[i], ps);
    }
    assert Sparing(At(db, ops, |ops| - 1), ops[|ops| - 1], ps);
  }

  /** The keys whose original row has completed at some time in the run. */
  ghost function DoneIn(db: Db, ops: seq<Op>, pks: map<Key, nat>): set<Key> {
    if ops == [] then {}
    else NowDone(Run(db, ops[..|ops| - 1]), ops[|ops| - 1], pks, DoneIn(db, ops[..|ops| - 1], pks))
  }

  /** At some step of the run the original row of `k` completes. */
  ghost predicate CompletedIn(db: Db, ops: seq<Op>, pks: map<Key, nat>, k: Key) {
    exists i :: 0 <= i < |ops| && Completes(At(db, ops, i), ops[i], pks, k)
  }

  lemma {:induction false} DoneHasCompleted(db: Db, ops: seq<Op>, pks: map<Key, nat>, k: Key)
    requires k in DoneIn(db, ops, pks)
    ensures CompletedIn(db, ops, pks, k)
  {
    hide Run, Completes;
    var front := ops[..|ops| - 1];
    if k in DoneIn(db, front, pks) {
      DoneHasCompleted(db, front, pks, k);
      var i :| 0 <= i < |front| && Completes(At(db, front, i), front[i], pks, k);
      assert front[..i] == ops[..i];
      assert Completes(At(db, ops, i), ops[i], pks, k);
    } else {
      assert Completes(At(db, ops, |ops| - 1), ops[|ops| - 1], pks, k);
    }
  }

  lemma {:induction false} RunInFlow(db: Db, ops: seq<Op>, pks: map<Key, nat>, ts: set<Tie>, ps: set<Key>)
    requires Sane(db) && InFlow(db, pks, {}, ts) && SparingRun(db, ops, ps)
    requires forall t | t in ts :: t.parent in ps
    ensures InFlow(Run(db, ops), pks, DoneIn(db, ops, pks), ts)
  {
    if ops != [] {
      hide Step, Sane, InFlow, NowDone, Sparing;
      var front := ops[..|ops| - 1];
      SparingFront(db, ops, ps);
      RunInFlow(db, front, pks, ts, ps);
      RunSane(db, front);
      StepInFlow(Run(db, front), ops[|ops| - 1], pks, DoneIn(db, front, pks), ts, ps);
    }
  }

  /** Primary keys of the rows of a tree. */
  ghost function PksOf(db: Db, ks: set<Key>): map<Key, nat> {
    map k | k in ks && k in db.jobs :: db.jobs[k].pk
  }

  lemma GrownInFlow(db: Db, ks: set<Key>, ts: set<Tie>)
    requires Standing(db)
    requires forall t | t in ts :: Tied(db, t) && t.parent in ks && t.child in ks
    ensures InFlow(db, PksOf(db, ks), {}, ts)
  {
    forall t | t in ts ensures Guarded(db, PksOf(db, ks), {}, t) {
      var i :| i in db.edges && db.edges[i].parent == t.parent && db.edges[i].child == t.child && Blocking(db.edges[i]);
      assert TieHolds(db, PksOf(db, ks), t, i);
    }
  }

  /** `m` is a node of the tree `n`. */
  ghost predicate Within(m: Node, n: Node) {
    m == n || exists i :: 0 <= i < |n.children| && Within(m, n.children[i])
  }

  lemma {:induction false} ChildTies(ns: seq<Node>, p: Key, i: nat)
    requires i < |ns|
    ensures Tie(p, KeyOf(ns[i])) in TiesOfAll(ns, p) && TiesOf(ns[i]) <= TiesOfAll(ns, p)
    ensures KeysOf(ns[i]) <= KeysOfAll(ns)
    decreases ns
  {
    if i > 0 {
      ChildTies(ns[1..], p, i - 1);
      assert ns[1..][i - 1] == ns[i];
    }
  }

  lemma {:induction false} WithinTies(m: Node, n: Node)
    requires Within(m, n)
    ensures TiesOf(m) <= TiesOf(n) && KeysOf(m) <= KeysOf(n)
    decreases n
  {
    if m != n {
      var i :| 0 <= i < |n.children| && Within(m, n.children[i]);
      WithinTies(m, n.children[i]);
      ChildTies(n.children, KeyOf(n), i);
    }
  }

  lemma {:induction false} TiesInside(n: Node)
    ensures forall t | t in TiesOf(n) :: t.parent in KeysOf(n) && t.child in KeysOf(n)
    decreases n, 0
  {
    TiesInsideAll(n.children, KeyOf(n));
  }

  lemma {:induction false} TiesInsideAll(ns: seq<Node>, p: Key)
    ensures forall t | t in TiesOfAll(ns, p) :: (t.parent == p || t.parent in KeysOfAll(ns)) && t.child in KeysOfAll(ns)
    decreases ns, 1
  {
    if ns != [] {
      TiesInside(ns[0]);
      TiesInsideAll(ns[1..], p);
      assert KeyOf(ns[0]) in KeysOf(ns[0]);
    }
  }

  /** All children of a node done, and done closed downwards: everything below is done. */
  lemma {:induction false} BelowDone(ns: seq<Node>, p: Key, done: set<Key>, ts: set<Tie>)
    requires Closed(done, ts) && TiesOfAll(ns, p) <= ts
    requires forall i | 0 <= i < |ns| :: KeyOf(ns[i]) in done
    ensures KeysOfAll(ns) <= done
    decreases ns
  {
    if ns != [] {
      var c := ns[0];
      assert KeyOf(c) in done;
      forall i | 0 <= i < |c.children| ensures KeyOf(c.children[i]) in done {
        ChildTies(c.children, KeyOf(c), i);
        assert Tie(KeyOf(c), KeyOf(c.children[i])) in ts;
      }
      BelowDone(c.children, KeyOf(c), done, ts);
      forall i | 0 <= i < |ns[1..]| ensures KeyOf(ns[1..][i]) in done { assert ns[1..][i] == ns[i + 1]; }
      BelowDone(ns[1..], p, done, ts);
    }
  }

  lemma BuiltHasParent(db: Db, n: Node, parent: Option<Key>)
    requires AddNode(db, n, parent).Built?
    ensures parent.Some? ==> parent.value in db.jobs
  {
    hide Link, Insert, Replace, AddExisting, AddChildren;
    EnsureQueueRows(db, n.queue);
  }

  /** The state a flow leaves is one in which nothing of the tree is done and every parent waits. */
  lemma FlowPlanted(db: Db, n: Node, parent: Option<Key>)
    requires Sane(db) && PlainTree(n) && KeysOf(n) !! db.jobs.Keys && AddNode(db, n, parent).Built?
    ensures var start := AddFlow(db, n, parent);
      Sane(start) && KeysOf(n) <= start.jobs.Keys && InFlow(start, PksOf(start, KeysOf(n)), {}, TiesOf(n))
  {
    hide InFlow, AddNode, Sane, Step, PksOf, Standing, TiesOf, KeysOf, PlainTree, Tied;
    SaneSound(db);
    FlowTied(db, n, parent);
    StepSane(db, OpFlow(n, parent));
    assert Step(db, OpFlow(n, parent)) == AddFlow(db, n, parent) by { FlowStep(db, n, parent); }
    SaneSound(AddFlow(db, n, parent));
    GrownInFlow(AddFlow(db, n, parent), KeysOf(n), TiesOf(n));
  }

  lemma FlowStep(db: Db, n: Node, parent: Option<Key>)
    ensures Step(db, OpFlow(n, parent)) == AddFlow(db, n, parent)
  {
    hide AddFlow;
  }

  lemma FlowTied(db: Db, n: Node, parent: Option<Key>)
    requires Standing(db) && PlainTree(n) && KeysOf(n) !! db.jobs.Keys && AddNode(db, n, parent).Built?
    ensures var start := AddFlow(db, n, parent);
      KeysOf(n) <= start.jobs.Keys && forall t | t in TiesOf(n) ::
        Tied(start, t) && t.parent in KeysOf(n) && t.child in KeysOf(n)
  {
    hide AddNode, Gentle, Standing, Gains, TiesOf, KeysOf, PlainTree, Tied;
    BuiltHasParent(db, n, parent);
    TreeGrows(db, n, parent);
    GainsKeys(db, AddFlow(db, n, parent), KeysOf(n));
    TiesInside(n);
  }

  /** A flow is added with fresh, distinct ids. Whatever is then claimed, retried, stalled,
      delayed, renewed, added, promoted, reprocessed or moved, a node that is claimed, or leaves
      `waiting-children` in any other way, has seen every job below it complete. */
  lemma DescendantsCompleteFirst(db: Db, n: Node, parent: Option<Key>, ops: seq<Op>, m: Node)
    requires Sane(db) && PlainTree(n) && KeysOf(n) !! db.jobs.Keys && AddNode(db, n, parent).Built?
    requires SparingRun(AddFlow(db, n, parent), ops, KeysOf(n)) && Within(m, n)
    ensures var start := AddFlow(db, n, parent); var pks := PksOf(start, KeysOf(n)); var end := Run(start, ops);
      Orig(end, pks, KeyOf(m)) && end.jobs[KeyOf(m)].state != Parked ==>
        forall k | k in KeysOfAll(m.children) :: CompletedIn(start, ops, pks, k)
  {
    hide AddNode, Sane, Step, Run, InFlow, SparingRun, CompletedIn, DoneIn, PksOf;
    var start := AddFlow(db, n, parent);
    var pks := PksOf(start, KeysOf(n));
    var end, done := Run(start, ops), DoneIn(start, ops, pks);
    FlowPlanted(db, n, parent);
    TiesInside(n);
    RunInFlow(start, ops, pks, TiesOf(n), KeysOf(n));
    if Orig(end, pks, KeyOf(m)) && end.jobs[KeyOf(m)].state != Parked {
      AllBelowDone(end, pks, done, n, m);
      forall x | x in KeysOfAll(m.children)
        ensures CompletedIn(start, ops, pks, x) { DoneHasCompleted(start, ops, pks, x); }
    }
  }

  lemma AllBelowDone(db: Db, pks: map<Key, nat>, done: set<Key>, n: Node, m: Node)
    requires InFlow(db, pks, done, TiesOf(n)) && Within(m, n)
    requires Orig(db, pks, KeyOf(m)) && db.jobs[KeyOf(m)].state != Parked
    ensures KeysOfAll(m.children) <= done
  {
    hide Guarded, Orig;
    var k := KeyOf(m);
    WithinTies(m, n);
    forall i | 0 <= i < |m.children| ensures KeyOf(m.children[i]) in done {
      ChildTies(m.children, k, i);
      FreeParent(db, pks, done, Tie(k, KeyOf(m.children[i])));
    }
    BelowDone(m.children, k, done, TiesOf(n));
  }

  lemma FreeParent(db: Db, pks: map<Key, nat>, done: set<Key>, t: Tie)
    requires Guarded(db, pks, done, t) && Orig(db, pks, t.parent) && !ParkedIn(db.jobs, t.parent)
    ensures t.child in done
  {}

  /** In particular for the step that claims it. */
  lemma ClaimedAfterDescendants(db: Db, n: Node, parent: Option<Key>, ops: seq<Op>, a: ClaimArgs, m: Node)
    requires Sane(db) && PlainTree(n) && KeysOf(n) !! db.jobs.Keys && AddNode(db, n, parent).Built?
    requires SparingRun(AddFlow(db, n, parent), ops, KeysOf(n)) && Within(m, n) && a.pick == KeyOf(m)
    requires Takes(Run(AddFlow(db, n, parent), ops), a)
    ensures var start := AddFlow(db, n, parent); var pks := PksOf(start, KeysOf(n));
      Orig(Run(start, ops), pks, KeyOf(m)) ==> forall k | k in KeysOfAll(m.children) :: CompletedIn(start, ops, pks, k)
  {
    hide AddNode, Sane, Step, CompletedIn, SparingRun, Takes;
    var end := Run(AddFlow(db, n, parent), ops);
    ClaimUnparked(end, a);
    DescendantsCompleteFirst(db, n, parent, ops, m);
  }

  lemma ClaimUnparked(db: Db, a: ClaimArgs)
    requires Takes(db, a)
    ensures a.pick in db.jobs && db.jobs[a.pick].state != Parked
  {
    hide GatesOpen;
    PreparedRows(db, a.queue);
  }
}

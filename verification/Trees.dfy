/** A flow tree going in: with fresh, distinct ids and no deduplication, every node gets its own
    row, every parent is parked, and every child blocks its parent. */
module Trees {
  import opened Rows
  import opened Linking
  import opened Adding
  import opened Flows
  import opened Frames
  import opened Waiting

  datatype Tie = Tie(parent: Key, child: Key)

  function KeysOf(n: Node): set<Key>
    decreases n, 0
  {
    {KeyOf(n)} + KeysOfAll(n.children)
  }

  function KeysOfAll(ns: seq<Node>): set<Key>
    decreases ns, 1
  {
    if ns == [] then {} else KeysOf(ns[0]) + KeysOfAll(ns[1..])
  }

  /** The parent-child pairs of a tree. */
  function TiesOf(n: Node): set<Tie>
    decreases n, 0
  {
    TiesOfAll(n.children, KeyOf(n))
  }

  function TiesOfAll(ns: seq<Node>, p: Key): set<Tie>
    decreases ns, 1
  {
    if ns == [] then {} else {Tie(p, KeyOf(ns[0]))} + TiesOf(ns[0]) + TiesOfAll(ns[1..], p)
  }

  /** Distinct ids and no deduplication anywhere in the tree. */
  predicate PlainTree(n: Node)
    decreases n, 0
  {
    n.dedup.None? && KeyOf(n) !in KeysOfAll(n.children) && PlainTrees(n.children)
  }

  predicate PlainTrees(ns: seq<Node>)
    decreases ns, 1
  {
    ns == [] || (PlainTree(ns[0]) && KeysOf(ns[0]) !! KeysOfAll(ns[1..]) && PlainTrees(ns[1..]))
  }

  /** The parent is parked and an edge to the child blocks it. */
  ghost predicate Tied(db: Db, t: Tie) {
    ParkedIn(db.jobs, t.parent) && t.child in db.jobs
    && exists i ::
      i in db.edges && db.edges[i].parent == t.parent && db.edges[i].child == t.child && Blocking(db.edges[i])
  }

  /** Rows stay; new ones carry the given keys. */
  ghost predicate Gains(db: Db, db': Db, ks: set<Key>) {
    && db'.jobs.Keys == db.jobs.Keys + ks
    && forall k | k in db.jobs :: db'.jobs[k].pk == db.jobs[k].pk
  }

  lemma GainsTrans(a: Db, b: Db, c: Db, ks: set<Key>, ks': set<Key>)
    requires Gains(a, b, ks) && Gains(b, c, ks')
    ensures Gains(a, c, ks + ks')
  {}

  lemma TiedStays(db: Db, db': Db, ks: set<Key>, t: Tie)
    requires Gentle(db, db') && Standing(db) && Gains(db, db', ks) && Tied(db, t)
    ensures Tied(db', t)
  {
    hide Calm;
    var i :| i in db.edges && db.edges[i].parent == t.parent && db.edges[i].child == t.child && Blocking(db.edges[i]);
    assert SameRow(db, db', t.parent);
    assert EdgeKept(db, db', i);
  }

  // ---------------------------------------------------------------- one node

  lemma LinkGains(db: Db, p: Key, c: Key)
    ensures Gains(db, Link(db, p, c), {})
  {
    hide ReleaseParent;
    if p in db.jobs && c in db.jobs { ReleaseParentShape(AddEdge(db, p, c, LinkStatus(db.jobs[c])), p); }
  }

  lemma InsertRowGains(db: Db, k: Key, r: Request)
    requires k !in db.jobs && k.queue in db.queues
    ensures Gains(db, InsertRow(db, k, r), {k})
    ensures !Finished(InsertRow(db, k, r).jobs[k]) && (r.kind == FlowParent ==> ParkedIn(InsertRow(db, k, r).jobs, k))
    ensures InsertRow(db, k, r).edges == db.edges && InsertRow(db, k, r).nextEdge == db.nextEdge
    ensures forall x | x in db.jobs :: InsertRow(db, k, r).jobs[x] == db.jobs[x]
  {
    hide InsertStandard;
    var db1 := db.(nextPk := db.nextPk + 1);
    if r.kind == Standard { InsertStandardShape(db1, k, NewRow(db, r)); }
  }

  lemma LinkTies(db: Db, p: Key, c: Key)
    requires ParkedIn(db.jobs, p) && c in db.jobs && !Finished(db.jobs[c]) && EdgesNumbered(db)
    requires forall i | i in db.edges :: db.edges[i].child != c || !db.edges[i].linked
    ensures Tied(Link(db, p, c), Tie(p, c)) && Link(db, p, c).jobs == db.jobs
  {
    var db' := Link(db, p, c);
    assert !Linked(db, p, c);
    assert db'.edges[db.nextEdge] == Edge(p, c, true, Pending);
  }

  /** One node: its own row, parked if it has children, tied under its parent. */
  lemma RootGains(db: Db, n: Node, parent: Option<Key>)
    requires Standing(db) && n.dedup.None? && KeyOf(n) !in db.jobs
    requires parent.Some? ==> parent.value in db.jobs
    ensures var (db1, r) := Add(EnsureQueue(db, n.queue), NodeRequest(n, parent));
      && r == Added(n.id) && Gains(db, db1, {KeyOf(n)}) && Gentle(db, db1) && Standing(db1)
      && (n.children != [] ==> ParkedIn(db1.jobs, KeyOf(n)))
      && (parent.Some? && ParkedIn(db.jobs, parent.value) ==> Tied(db1, Tie(parent.value, KeyOf(n))))
  {
    hide Gentle, InsertRow, Link, Tied;
    var db0, r0, k := EnsureQueue(db, n.queue), NodeRequest(n, parent), KeyOf(n);
    EnsureQueueGentle(db, n.queue);
    GentleStanding(db, db0);
    EnsureQueueRows(db, n.queue);
    AddGentle(db0, r0);
    var (db1, r) := Add(db0, r0);
    GentleTrans(db, db0, db1);
    GentleStanding(db0, db1);
    var db2 := InsertRow(db0, k, r0);
    InsertRowGains(db0, k, r0);
    if parent.Some? {
      assert db1 == Link(db2, parent.value, k);
      LinkGains(db2, parent.value, k);
      if ParkedIn(db.jobs, parent.value) {
        LinkTies(db2, parent.value, k);
      } else if n.children != [] {
        LinkKeepsParked(db2, parent.value, k);
      }
    }
  }

  /** Linking is idempotent: a second link of the same pair adds no edge and releases nobody. */
  lemma LinkTwice(db: Db, p: Key, c: Key)
    ensures Link(Link(db, p, c), p, c) == Link(db, p, c)
    ensures p in db.jobs && c in db.jobs ==> Linked(Link(db, p, c), p, c)
  {
    hide ReleaseParent;
    if p in db.jobs && c in db.jobs {
      var status := LinkStatus(db.jobs[c]);
      var db1 := AddEdge(db, p, c, status);
      assert Linked(db1, p, c) by {
        if !Linked(db, p, c) { assert EdgeOf(db1.edges[db.nextEdge], c); }
      }
      ReleaseParentShape(db1, p);
      var db' := Link(db, p, c);
      SameEdgesSameLinks(db1, db', p, c);
      ReleaseParentShape(db', p);
      assert db'.jobs[c].state == db.jobs[c].state || p == c;
    }
  }

  lemma SameEdgesSameLinks(db: Db, db': Db, p: Key, c: Key)
    requires db'.edges == db.edges
    ensures Linked(db', p, c) == Linked(db, p, c) && HasBlockingEdge(db', p) == HasBlockingEdge(db, p)
  {}

  lemma LinkKeepsParked(db: Db, p: Key, c: Key)
    requires c in db.jobs && !Finished(db.jobs[c])
    ensures Link(db, p, c).jobs == db.jobs
  {}

  // ---------------------------------------------------------------- the whole tree

  lemma {:induction false} LinkAllGains(db: Db, p: Key, ks: seq<Key>)
    ensures Gains(db, LinkAll(db, p, ks), {})
  {
    hide Link;
    if ks != [] {
      LinkAllGains(db, p, ks[..|ks| - 1]);
      LinkGains(LinkAll(db, p, ks[..|ks| - 1]), p, ks[|ks| - 1]);
    }
  }

  /** The tree is in: its rows, and all its ties. */
  ghost predicate Grown(db: Db, db': Db, ks: set<Key>, ts: set<Tie>) {
    Gentle(db, db') && Standing(db') && Gains(db, db', ks) && forall t | t in ts :: Tied(db', t)
  }

  lemma GrownTrans(a: Db, b: Db, c: Db, ks: set<Key>, ts: set<Tie>, ks': set<Key>, ts': set<Tie>)
    requires Standing(a) && Grown(a, b, ks, ts) && Grown(b, c, ks', ts')
    ensures Grown(a, c, ks + ks', ts + ts')
  {
    hide Gentle, Standing, Tied, Gains;
    GentleTrans(a, b, c);
    GainsTrans(a, b, c, ks, ks');
    forall t | t in ts ensures Tied(c, t) { TiedStays(b, c, ks', t); }
  }

  lemma {:induction false} TreeGrows(db: Db, n: Node, parent: Option<Key>)
    requires Standing(db) && PlainTree(n) && KeysOf(n) !! db.jobs.Keys
    requires parent.Some? ==> parent.value in db.jobs
    requires AddNode(db, n, parent).Built?
    ensures var b := AddNode(db, n, parent);
      && b.id == n.id
      && Grown(db, b.db, KeysOf(n),
        TiesOf(n) + (if parent.Some? && ParkedIn(db.jobs, parent.value) then {Tie(parent.value, KeyOf(n))} else {}))
    decreases n, 0
  {
    hide Add, Gentle, Standing, Tied, Gains, LinkAll, EnsureQueue, AddChildren;
    var (db1, r) := Add(EnsureQueue(db, n.queue), NodeRequest(n, parent));
    var k := KeyOf(n);
    var up: set<Tie> := if parent.Some? && ParkedIn(db.jobs, parent.value) then {Tie(parent.value, k)} else {};
    assert k in KeysOf(n);
    RootGains(db, n, parent);
    assert Grown(db, db1, {k}, up);
    if n.children != [] {
      GainsKeys(db, db1, {k});
      TreesGrow(db1, n.children, k);
      var b := AddChildren(db1, n.children, k);
      GrownTrans(db, db1, b.db, {k}, up, KeysOfAll(n.children), TiesOf(n));
      LinkAllGentle(b.db, k, b.ids);
      GentleStanding(b.db, LinkAll(b.db, k, b.ids));
      LinkAllGains(b.db, k, b.ids);
      GrownTrans(db, b.db, LinkAll(b.db, k, b.ids), KeysOf(n), up + TiesOf(n), {}, {});
      assert KeysOf(n) + {} == KeysOf(n) && up + TiesOf(n) + {} == TiesOf(n) + up;
    } else {
      assert KeysOf(n) == {k} && TiesOf(n) + up == up;
    }
  }

  lemma GainsKeys(db: Db, db': Db, ks: set<Key>)
    requires Gains(db, db', ks)
    ensures db'.jobs.Keys == db.jobs.Keys + ks
  {}

  lemma {:induction false} TreesGrow(db: Db, ns: seq<Node>, p: Key)
    requires Standing(db) && PlainTrees(ns) && KeysOfAll(ns) !! db.jobs.Keys && ParkedIn(db.jobs, p)
    requires AddChildren(db, ns, p).BuiltAll?
    ensures Grown(db, AddChildren(db, ns, p).db, KeysOfAll(ns), TiesOfAll(ns, p))
    decreases ns, 1
  {
    hide Gentle, Standing, Tied, Gains, AddNode;
    if ns == [] {
      GrownRefl(db);
    } else {
      var b := AddNode(db, ns[0], Some(p));
      TreeGrows(db, ns[0], Some(p));
      GainsKeys(db, b.db, KeysOf(ns[0]));
      TiedParked(b.db, Tie(p, KeyOf(ns[0])));
      TreesGrow(b.db, ns[1..], p);
      GrownTrans(db, b.db, AddChildren(db, ns, p).db, KeysOf(ns[0]),
        TiesOf(ns[0]) + {Tie(p, KeyOf(ns[0]))}, KeysOfAll(ns[1..]), TiesOfAll(ns[1..], p));
      assert TiesOf(ns[0]) + {Tie(p, KeyOf(ns[0]))} + TiesOfAll(ns[1..], p) == TiesOfAll(ns, p);
    }
  }

  lemma GrownRefl(db: Db)
    requires Standing(db)
    ensures Grown(db, db, {}, {})
  {
    GentleRefl(db);
  }

  lemma TiedParked(db: Db, t: Tie)
    requires Tied(db, t)
    ensures ParkedIn(db.jobs, t.parent)
  {}
}

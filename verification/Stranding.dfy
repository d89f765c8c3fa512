/** Which flows leave a parent waiting on nothing: read off the tables before the insert and the
    tree, however deep the parent lies. */
module Stranding {
  import opened Rows
  import opened Tables
  import opened Linking
  import opened Adding
  import opened Flows
  import opened Frames
  import opened Waiting
  import opened Parents
  import opened Trees

  // ---------------------------------------------------------------- the condition

  function OwnIds(n: Node): set<DedupKey> {
    if n.dedup.Some? then {DedupKey(n.queue, n.dedup.value)} else {}
  }

  function IdsOf(n: Node): set<DedupKey>
    decreases n, 0
  {
    OwnIds(n) + IdsOfAll(n.children)
  }

  function IdsOfAll(ns: seq<Node>): set<DedupKey>
    decreases ns, 1
  {
    if ns == [] then {} else IdsOf(ns[0]) + IdsOfAll(ns[1..])
  }

  /** Distinct ids and distinct deduplication ids throughout the tree. */
  predicate Apart(n: Node)
    decreases n, 0
  {
    KeyOf(n) !in KeysOfAll(n.children) && OwnIds(n) !! IdsOfAll(n.children) && AllApart(n.children)
  }

  predicate AllApart(ns: seq<Node>)
    decreases ns, 1
  {
    ns == [] ||
    (Apart(ns[0]) && KeysOf(ns[0]) !! KeysOfAll(ns[1..]) && IdsOf(ns[0]) !! IdsOfAll(ns[1..]) && AllApart(ns[1..]))
  }

  /** The job a deduplication row names. */
  function Holder(db: Db, d: DedupKey): Key
    requires d in db.dedups
  {
    Key(d.queue, db.dedups[d].job)
  }

  /** The keys are free, and the deduplication rows name different jobs, none of them under one of
      the keys. */
  ghost predicate Fit(db: Db, ks: set<Key>, ids: set<DedupKey>) {
    && (forall k | k in ks :: k !in db.jobs)
    && (forall d | d in ids && d in db.dedups :: Holder(db, d) !in ks)
    && (forall a, b | a in ids && b in ids && a in db.dedups && b in db.dedups && a != b ::
      Holder(db, a) != Holder(db, b))
  }

  /** The node gets a row of its own: nothing is deduplicated, its id is not held, or it carries
      `replace` and the holder is in a state it may be replaced in. */
  ghost predicate Grows(db: Db, n: Node) {
    var r := NodeRequest(n, None);
    r.dedup.None? ||
    var d := DedupKey(r.queue, r.dedup.value);
    d !in db.dedups ||
    if Replaces(r) then Holder(db, d) in db.jobs && db.jobs[Holder(db, d)].state in Replaceable(r.kind)
    else !(LiveDedup(db, r.queue, r.dedup.value) && Holder(db, d) in db.jobs)
  }

  ghost predicate AllGone(db: Db, ns: seq<Node>) {
    forall i | 0 <= i < |ns| :: Lost(db, NodeRequest(ns[i], None))
  }

  /** Somewhere in the tree a parent gets its row, and every child of it carries `replace` under an
      id whose job is gone; all the nodes above it get their rows as well. */
  ghost predicate StrandsIn(db: Db, n: Node)
    decreases n, 0
  {
    Grows(db, n) && n.children != [] && (AllGone(db, n.children) || SomeStrandsIn(db, n.children))
  }

  ghost predicate SomeStrandsIn(db: Db, ns: seq<Node>)
    decreases ns, 1
  {
    ns != [] && (StrandsIn(db, ns[0]) || SomeStrandsIn(db, ns[1..]))
  }

  // ---------------------------------------------------------------- what an insert leaves alone

  ghost predicate HeldUnder(db: Db, ids: set<DedupKey>, k: Key) {
    exists d :: d in ids && d in db.dedups && Holder(db, d) == k
  }

  predicate SameId(db: Db, db': Db, d: DedupKey) {
    (d in db'.dedups <==> d in db.dedups) && (d in db.dedups ==> db'.dedups[d] == db.dedups[d])
  }

  /** New rows carry the given keys, rows that go are holders of the given ids, the others keep
      their state; other deduplication rows stay, and only `up` and the new rows get edges. */
  ghost predicate Confined(db: Db, db': Db, ks: set<Key>, ids: set<DedupKey>, up: Option<Key>) {
    && db'.now == db.now
    && (forall k | k in db'.jobs :: k in db.jobs || k in ks)
    && (forall k | k in db.jobs :: k in db'.jobs || HeldUnder(db, ids, k))
    && (forall k | k in db.jobs && k in db'.jobs && k !in ks :: db'.jobs[k].state == db.jobs[k].state)
    && (forall d | d !in ids :: SameId(db, db', d))
    && (forall x | x !in ks && Some(x) != up && NoEdges(db, x) :: NoEdges(db', x))
  }

  lemma HeldEarlier(a: Db, b: Db, ids1: set<DedupKey>, ids2: set<DedupKey>, k: Key)
    requires ids1 !! ids2 && HeldUnder(b, ids2, k) && forall d | d !in ids1 :: SameId(a, b, d)
    ensures HeldUnder(a, ids2, k) && HeldUnder(a, ids1 + ids2, k)
  {
    var d :| d in ids2 && d in b.dedups && Holder(b, d) == k;
    assert SameId(a, b, d);
    assert d in ids1 + ids2 && Holder(a, d) == k;
  }

  lemma HeldMore(db: Db, ids: set<DedupKey>, more: set<DedupKey>, k: Key)
    requires HeldUnder(db, ids, k)
    ensures HeldUnder(db, ids + more, k)
  {
    var d :| d in ids && d in db.dedups && Holder(db, d) == k;
    assert d in ids + more;
  }

  lemma ConfinedTrans(a: Db, b: Db, c: Db, ks1: set<Key>, ids1: set<DedupKey>, up1: Option<Key>,
                    ks2: set<Key>, ids2: set<DedupKey>, up2: Option<Key>)
    requires Confined(a, b, ks1, ids1, up1) && Confined(b, c, ks2, ids2, up2) && ids1 !! ids2
    requires up2 == up1 || (up2.Some? && up2.value in ks1)
    ensures Confined(a, c, ks1 + ks2, ids1 + ids2, up1)
  {
    hide HeldUnder, NoEdges, SameId;
    forall k | k in a.jobs ensures k in c.jobs || HeldUnder(a, ids1 + ids2, k) {
      if k !in b.jobs { HeldMore(a, ids1, ids2, k); }
      else if k !in c.jobs { HeldEarlier(a, b, ids1, ids2, k); }
    }
    forall d | d !in ids1 + ids2 ensures SameId(a, c, d) { SameIdTrans(a, b, c, d); }
    forall k | k in a.jobs && k in c.jobs && k !in ks1 + ks2 ensures c.jobs[k].state == a.jobs[k].state {
      assert k in b.jobs;
    }
  }

  lemma SameIdTrans(a: Db, b: Db, c: Db, d: DedupKey)
    ensures SameId(a, b, d) && SameId(b, c, d) ==> SameId(a, c, d)
  {}

  lemma ConfinedRefl(db: Db, up: Option<Key>)
    ensures Confined(db, db, {}, {}, up)
  {}

  /** A parent left fresh stays so through what does not concern it. */
  lemma FreshStays(db: Db, db': Db, ks: set<Key>, ids: set<DedupKey>, up: Option<Key>, x: Key)
    requires Confined(db, db', ks, ids, up) && FreshParked(db, x) && x !in ks && Some(x) != up && !HeldUnder(db, ids, x)
    ensures FreshParked(db', x)
  {
    hide HeldUnder;
  }

  // ---------------------------------------------------------------- the condition does not change on the way

  /** The two states give the nodes with these keys and ids the same fate. */
  ghost predicate Agrees(db: Db, db': Db, ks: set<Key>, ids: set<DedupKey>) {
    && db'.now == db.now
    && (forall k | k in ks :: k !in db.jobs && k !in db'.jobs)
    && (forall d | d in ids :: SameId(db, db', d) && (d in db.dedups ==> SameStand(db, db', Holder(db, d))))
  }

  predicate SameStand(db: Db, db': Db, k: Key) {
    (k in db'.jobs <==> k in db.jobs) && (k in db.jobs ==> db'.jobs[k].state == db.jobs[k].state)
  }

  lemma AgreesLess(db: Db, db': Db, ks: set<Key>, ids: set<DedupKey>, ks': set<Key>, ids': set<DedupKey>)
    requires Agrees(db, db', ks, ids) && ks' <= ks && ids' <= ids
    ensures Agrees(db, db', ks', ids')
  {
    hide SameId, SameStand;
  }

  lemma SameFate(db: Db, db': Db, n: Node)
    requires Agrees(db, db', {KeyOf(n)}, OwnIds(n))
    ensures Grows(db', n) == Grows(db, n) && Lost(db', NodeRequest(n, None)) == Lost(db, NodeRequest(n, None))
  {
    if n.dedup.Some? { assert DedupKey(n.queue, n.dedup.value) in OwnIds(n); }
  }

  lemma {:induction false} StrandsAlike(db: Db, db': Db, n: Node)
    requires Agrees(db, db', KeysOf(n), IdsOf(n))
    ensures StrandsIn(db', n) == StrandsIn(db, n)
    ensures Grows(db', n) == Grows(db, n) && Lost(db', NodeRequest(n, None)) == Lost(db, NodeRequest(n, None))
    decreases n, 0
  {
    hide Agrees, Lost, Grows;
    AgreesLess(db, db', KeysOf(n), IdsOf(n), {KeyOf(n)}, OwnIds(n));
    SameFate(db, db', n);
    AgreesLess(db, db', KeysOf(n), IdsOf(n), KeysOfAll(n.children), IdsOfAll(n.children));
    AllStrandAlike(db, db', n.children);
  }

  lemma {:induction false} AllStrandAlike(db: Db, db': Db, ns: seq<Node>)
    requires Agrees(db, db', KeysOfAll(ns), IdsOfAll(ns))
    ensures SomeStrandsIn(db', ns) == SomeStrandsIn(db, ns) && AllGone(db', ns) == AllGone(db, ns)
    decreases ns, 1
  {
    if ns != [] {
      hide Agrees, Lost, StrandsIn;
      AgreesLess(db, db', KeysOfAll(ns), IdsOfAll(ns), KeysOf(ns[0]), IdsOf(ns[0]));
      AgreesLess(db, db', KeysOfAll(ns), IdsOfAll(ns), KeysOfAll(ns[1..]), IdsOfAll(ns[1..]));
      StrandsAlike(db, db', ns[0]);
      AllStrandAlike(db, db', ns[1..]);
      GoneCons(db, ns);
      GoneCons(db', ns);
    }
  }

  lemma GoneCons(db: Db, ns: seq<Node>)
    requires ns != []
    ensures AllGone(db, ns) <==> Lost(db, NodeRequest(ns[0], None)) && AllGone(db, ns[1..])
  {
    hide Lost;
    forall i | 0 < i < |ns| ensures ns[i] == ns[1..][i - 1] {}
    if AllGone(db, ns) {
      forall i | 0 <= i < |ns[1..]| ensures Lost(db, NodeRequest(ns[1..][i], None)) {
        assert Lost(db, NodeRequest(ns[i + 1], None));
      }
    }
  }

  /** After one part of the flow the rest still fits, has the same fate, and holds none of the keys
      of the first part. */
  lemma FitsOn(a: Db, b: Db, ks1: set<Key>, ids1: set<DedupKey>, up: Option<Key>, ks2: set<Key>, ids2: set<DedupKey>)
    requires Fit(a, ks1 + ks2, ids1 + ids2) && Confined(a, b, ks1, ids1, up) && ks1 !! ks2 && ids1 !! ids2
    ensures Fit(b, ks2, ids2) && Agrees(a, b, ks2, ids2)
    ensures forall k | k in ks1 :: !HeldUnder(b, ids2, k)
  {
    forall d | d in ids2 ensures SameId(a, b, d) { assert d !in ids1; }
    forall d | d in ids2 && d in a.dedups ensures SameStand(a, b, Holder(a, d)) && Holder(a, d) !in ks1 {
      assert d in ids1 + ids2;
      forall d1 | d1 in ids1 && d1 in a.dedups ensures Holder(a, d1) != Holder(a, d) { assert d1 in ids1 + ids2; }
      assert Holder(a, d) !in ks1 + ks2;
      assert !HeldUnder(a, ids1, Holder(a, d));
    }
  }

  lemma FitLess(db: Db, ks: set<Key>, ids: set<DedupKey>, ks': set<Key>, ids': set<DedupKey>)
    requires Fit(db, ks, ids) && ks' <= ks && ids' <= ids
    ensures Fit(db, ks', ids')
  {}

  // ---------------------------------------------------------------- one node

  function IdsAsked(r: Request): set<DedupKey> {
    if r.dedup.Some? then {DedupKey(r.queue, r.dedup.value)} else {}
  }

  lemma ClearedConfined(db: Db, q: QueueId, d: DedupId)
    ensures Confined(db, ClearStale(db, q, d), {}, {DedupKey(q, d)}, None)
    ensures ClearStale(db, q, d).jobs.Keys == db.jobs.Keys
    ensures ClearStale(db, q, d) == db.(jobs := ClearStale(db, q, d).jobs)
  {
    hide LiveDedup;
  }

  lemma RowConfined(db: Db, k: Key, r: Request)
    requires k !in db.jobs && k.queue in db.queues && k.queue == r.queue
    ensures var db' := HoldDedup(InsertRow(db, k, r), r, k.id);
      && Confined(db, db', {k}, IdsAsked(r), None) && k in db'.jobs && !Finished(db'.jobs[k])
      && (r.kind == FlowParent ==> ParkedIn(db'.jobs, k)) && db'.edges == db.edges
  {
    hide InsertRow;
    InsertRowGains(db, k, r);
    InsertRowHolds(db, k, r);
  }

  lemma InsertRowHolds(db: Db, k: Key, r: Request)
    ensures InsertRow(db, k, r).dedups == db.dedups && InsertRow(db, k, r).now == db.now
  {
    hide Least, WaitSeqs;
  }

  lemma LinkedConfined(db: Db, p: Key, c: Key)
    requires c in db.jobs && !Finished(db.jobs[c])
    ensures Confined(db, Link(db, p, c), {}, {}, Some(p)) && Link(db, p, c).jobs == db.jobs
    ensures forall x | x != p && NoEdges(db, x) :: NoEdges(Link(db, p, c), x)
  {
    LinkKeepsParked(db, p, c);
    forall x | x != p && NoEdges(db, x) ensures NoEdges(Link(db, p, c), x) { LinkEdges(db, p, c, x); }
    LinkHolds(db, p, c);
  }

  lemma LinkHolds(db: Db, p: Key, c: Key)
    ensures Link(db, p, c).dedups == db.dedups && Link(db, p, c).now == db.now
  {
    hide ReleaseParent;
    if p in db.jobs && c in db.jobs { ReleaseParentShape(AddEdge(db, p, c, LinkStatus(db.jobs[c])), p); }
  }

  lemma WiderUp(db: Db, db': Db, ks: set<Key>, ids: set<DedupKey>, up: Option<Key>)
    requires Confined(db, db', ks, ids, None)
    ensures Confined(db, db', ks, ids, up)
  {}

  /** The row is in, at most parked, with no edge of its own. */
  ghost predicate Planted(db: Db, r: Request, k: Key) {
    k in db.jobs && (r.kind == FlowParent ==> FreshParked(db, k))
  }

  lemma ClearedInsert(db: Db, r: Request, k: Key)
    requires k !in db.jobs && k.queue in db.queues && k.queue == r.queue && NoEdges(db, k) && r.parent != Some(k)
    ensures Confined(db, InsertCleared(db, r, k), {k}, IdsAsked(r), r.parent) && Planted(InsertCleared(db, r, k), r, k)
  {
    hide Link, InsertRow, HoldDedup, Confined;
    var db1 := HoldDedup(InsertRow(db, k, r), r, k.id);
    RowConfined(db, k, r);
    WiderUp(db, db1, {k}, IdsAsked(r), r.parent);
    if r.parent.Some? {
      LinkedConfined(db1, r.parent.value, k);
      ConfinedTrans(db, db1, Link(db1, r.parent.value, k), {k}, IdsAsked(r), r.parent, {}, {}, r.parent);
      assert {k} + {} == {k} && IdsAsked(r) + {} == IdsAsked(r);
    }
  }

  lemma InsertConfined(db: Db, r: Request, k: Key)
    requires k !in db.jobs && k.queue in db.queues && k.queue == r.queue && NoEdges(db, k) && r.parent != Some(k)
    ensures Confined(db, Insert(db, r, k).0, {k}, IdsAsked(r), r.parent) && Planted(Insert(db, r, k).0, r, k)
  {
    hide ClearStale, InsertCleared, Confined, Planted;
    if r.dedup.Some? {
      var db1 := ClearStale(db, r.queue, r.dedup.value);
      ClearedConfined(db, r.queue, r.dedup.value);
      ClearedInsert(db1, r, k);
      ClearedFirst(db, db1, Insert(db, r, k).0, {k}, IdsAsked(r), r.parent);
    } else {
      ClearedInsert(db, r, k);
    }
  }

  /** A change of deduplication ids of rows in front of another change. */
  lemma ClearedFirst(a: Db, b: Db, c: Db, ks: set<Key>, ids: set<DedupKey>, up: Option<Key>)
    requires Confined(a, b, {}, ids, None) && b.jobs.Keys == a.jobs.Keys && b.dedups == a.dedups
    requires Confined(b, c, ks, ids, up)
    ensures Confined(a, c, ks, ids, up)
  {
    forall k | HeldUnder(b, ids, k) ensures HeldUnder(a, ids, k) {
      var d :| d in ids && d in b.dedups && Holder(b, d) == k;
      assert Holder(a, d) == k;
    }
  }

  /** A holder removed with its deduplication row in front of an insert under that row. */
  lemma RemovedFirst(a: Db, c: Db, d: DedupKey, ks: set<Key>, up: Option<Key>)
    requires d in a.dedups && Confined(DeleteDedups(DeleteJobs(a, {Holder(a, d)}), {d}), c, ks, {d}, up)
    ensures Confined(a, c, ks, {d}, up)
  {
    var b := DeleteDedups(DeleteJobs(a, {Holder(a, d)}), {d});
    assert forall k :: !HeldUnder(b, {d}, k);
    assert HeldUnder(a, {d}, Holder(a, d));
    forall x | NoEdges(a, x) ensures NoEdges(b, x) {}
  }

  lemma ReplaceConfined(db: Db, r: Request, k: Key)
    requires k !in db.jobs && k.queue in db.queues && k.queue == r.queue && NoEdges(db, k) && r.parent != Some(k)
    requires Replaces(r)
    ensures var (db', out) := Replace(db, r, k); var d := DedupKey(r.queue, r.dedup.value);
      && Confined(db, db', {k}, IdsAsked(r), r.parent)
      && (d !in db.dedups || (Holder(db, d) in db.jobs && db.jobs[Holder(db, d)].state in Replaceable(r.kind)) ==>
            out == Added(k.id) && Planted(db', r, k))
      && (d in db.dedups && !(Holder(db, d) in db.jobs && db.jobs[Holder(db, d)].state in Replaceable(r.kind)) ==>
            out == Added(db.dedups[d].job))
  {
    hide Insert, Confined, Planted;
    var d := DedupKey(r.queue, r.dedup.value);
    InsertAdds(db, r, k);
    if d !in db.dedups {
      InsertConfined(db, r, k);
    } else if Holder(db, d) in db.jobs && db.jobs[Holder(db, d)].state in Replaceable(r.kind) {
      var db1 := DeleteDedups(DeleteJobs(db, {Holder(db, d)}), {d});
      RemovedPlain(db, d, k);
      InsertConfined(db1, r, k);
      InsertAdds(db1, r, k);
      RemovedFirst(db, Insert(db1, r, k).0, d, {k}, r.parent);
    } else {
      ConfinedSelf(db, {k}, IdsAsked(r), r.parent);
    }
  }

  lemma RemovedPlain(db: Db, d: DedupKey, k: Key)
    requires d in db.dedups && k !in db.jobs && NoEdges(db, k)
    ensures var db1 := DeleteDedups(DeleteJobs(db, {Holder(db, d)}), {d});
      k !in db1.jobs && db1.queues == db.queues && NoEdges(db1, k)
  {}

  lemma ConfinedSelf(db: Db, ks: set<Key>, ids: set<DedupKey>, up: Option<Key>)
    ensures Confined(db, db, ks, ids, up)
  {}

  lemma SuppressConfined(db: Db, r: Request, k: Key)
    requires Suppressed(db, r)
    ensures Confined(db, Suppress(db, r), {k}, IdsAsked(r), r.parent)
  {}

  predicate NamesHolder(db: Db, n: Node, out: Outcome) {
    n.dedup.Some? && var d := DedupKey(n.queue, n.dedup.value); d in db.dedups && out == Added(db.dedups[d].job)
  }

  /** The root of a subtree: it gets its row just when the condition says so, and otherwise the
      outcome names the holder. */
  lemma RootAdded(db: Db, n: Node, parent: Option<Key>)
    requires n.queue in db.queues && KeyOf(n) !in db.jobs && NoEdges(db, KeyOf(n))
    requires Add(db, NodeRequest(n, parent)).1.Added?
    ensures var (db', out) := Add(db, NodeRequest(n, parent)); var r := NodeRequest(n, None);
      && Confined(db, db', {KeyOf(n)}, OwnIds(n), parent)
      && (Grows(db, n) ==> out == Added(n.id) && Planted(db', r, KeyOf(n)))
      && (!Grows(db, n) ==> NamesHolder(db, n, out))
  {
    hide Insert, Replace, Confined, Planted, Suppress;
    var r, k := NodeRequest(n, parent), KeyOf(n);
    assert IdsAsked(r) == OwnIds(n);
    assert Planted(Add(db, r).0, r, k) == Planted(Add(db, r).0, NodeRequest(n, None), k)
      by { SamePlanted(Add(db, r).0, n, parent); }
    if Suppressed(db, r) {
      SuppressConfined(db, r, k);
    } else if Replaces(r) {
      ReplaceConfined(db, r, k);
    } else {
      InsertConfined(db, r, k);
      InsertAdds(db, r, k);
    }
  }

  lemma SamePlanted(db: Db, n: Node, parent: Option<Key>)
    ensures Planted(db, NodeRequest(n, parent), KeyOf(n)) == Planted(db, NodeRequest(n, None), KeyOf(n))
  {}

  // ---------------------------------------------------------------- the whole flow

  lemma LinkConfined(db: Db, p: Key, c: Key)
    ensures Confined(db, Link(db, p, c), {p}, {}, None)
  {
    LinkHolds(db, p, c);
    if p in db.jobs && c in db.jobs {
      ReleaseParentShape(AddEdge(db, p, c, LinkStatus(db.jobs[c])), p);
      forall x | x != p && NoEdges(db, x) ensures NoEdges(Link(db, p, c), x) { LinkEdges(db, p, c, x); }
    }
  }

  lemma {:induction false} LinkAllConfined(db: Db, p: Key, ks: seq<Key>)
    ensures Confined(db, LinkAll(db, p, ks), {p}, {}, None)
  {
    hide Link, Confined;
    ConfinedSelf(db, {p}, {}, None);
    if ks != [] {
      var front, c := ks[..|ks| - 1], ks[|ks| - 1];
      LinkAllConfined(db, p, front);
      LinkConfined(LinkAll(db, p, front), p, c);
      ConfinedTrans(db, LinkAll(db, p, front), LinkAll(db, p, ks), {p}, {}, None, {p}, {}, None);
      assert {p} + {p} == {p} && (var none: set<DedupKey> := {}; none + none == none);
    }
  }

  /** A parent among the given rows is parked without an edge. */
  ghost predicate Stuck(db: Db, ks: set<Key>) {
    exists k :: k in ks && FreshParked(db, k)
  }

  lemma StuckStays(db: Db, db': Db, on: set<Key>, ks: set<Key>, ids: set<DedupKey>, up: Option<Key>)
    requires Stuck(db, on) && Confined(db, db', ks, ids, up) && on !! ks && (up.Some? ==> up.value !in on)
    requires forall k | k in on :: !HeldUnder(db, ids, k)
    ensures Stuck(db', on)
  {
    hide Confined, FreshParked, HeldUnder;
    var x :| x in on && FreshParked(db, x);
    FreshStays(db, db', ks, ids, up, x);
  }

  lemma StuckMore(db: Db, ks: set<Key>, more: set<Key>)
    requires Stuck(db, ks) && ks <= more
    ensures Stuck(db, more)
  {
    hide FreshParked;
    var x :| x in ks && FreshParked(db, x);
    assert x in more;
  }

  lemma ConfinedMore(db: Db, db': Db, ks: set<Key>, ids: set<DedupKey>, up: Option<Key>,
    ks': set<Key>, ids': set<DedupKey>)
    requires Confined(db, db', ks, ids, up) && ks <= ks' && ids <= ids'
    ensures Confined(db, db', ks', ids', up)
  {
    hide NoEdges, SameId;
    forall k | HeldUnder(db, ids, k) ensures HeldUnder(db, ids', k) {
      var d :| d in ids && d in db.dedups && Holder(db, d) == k;
      assert d in ids';
    }
  }

  /** The root in its state before the flow and after the queue row has been made sure of. */
  lemma RootConfined(db: Db, n: Node, parent: Option<Key>)
    requires Standing(db) && Fit(db, KeysOf(n), IdsOf(n))
    requires Add(EnsureQueue(db, n.queue), NodeRequest(n, parent)).1.Added?
    ensures var (db1, r) := Add(EnsureQueue(db, n.queue), NodeRequest(n, parent));
      && Standing(db1) && Confined(db, db1, {KeyOf(n)}, OwnIds(n), parent)
      && (Grows(db, n) <==> r.id == n.id) && (Grows(db, n) && n.children != [] ==> FreshParked(db1, KeyOf(n)))
  {
    hide Add, Confined, Gentle;
    var db0, r0 := EnsureQueue(db, n.queue), NodeRequest(n, parent);
    EnsureQueueGentle(db, n.queue);
    GentleStanding(db, db0);
    AddGentle(db0, r0);
    GentleStanding(db0, Add(db0, r0).0);
    assert KeyOf(n) in KeysOf(n) && OwnIds(n) <= IdsOf(n);
    assert NoEdges(db0, KeyOf(n));
    RootAdded(db0, n, parent);
    QueueFirst(db, db0, Add(db0, r0).0, {KeyOf(n)}, OwnIds(n), parent);
    HolderElsewhere(db, n);
  }

  lemma HolderElsewhere(db: Db, n: Node)
    requires Fit(db, KeysOf(n), IdsOf(n))
    ensures forall out | NamesHolder(db, n, out) :: out.id != n.id
  {
    forall out | NamesHolder(db, n, out) ensures out.id != n.id {
      var d := DedupKey(n.queue, n.dedup.value);
      assert d in OwnIds(n) && d in IdsOf(n);
      assert Holder(db, d) !in KeysOf(n) && KeyOf(n) in KeysOf(n);
    }
  }

  lemma QueueFirst(db: Db, db0: Db, db': Db, ks: set<Key>, ids: set<DedupKey>, up: Option<Key>)
    requires db0 == db.(queues := db0.queues) && Confined(db0, db', ks, ids, up)
    ensures Confined(db, db', ks, ids, up)
  {
    hide HeldUnder, NoEdges;
    forall k ensures HeldUnder(db0, ids, k) == HeldUnder(db, ids, k) { HeldAlike(db, db0, ids, k); }
    forall x ensures NoEdges(db0, x) == NoEdges(db, x) { EdgesAlike(db, db0, x); }
  }

  lemma HeldAlike(db: Db, db0: Db, ids: set<DedupKey>, k: Key)
    requires db0.dedups == db.dedups
    ensures HeldUnder(db0, ids, k) == HeldUnder(db, ids, k)
  {}

  lemma EdgesAlike(db: Db, db0: Db, x: Key)
    requires db0.edges == db.edges
    ensures NoEdges(db0, x) == NoEdges(db, x)
  {}

  lemma GoneIsLost(db: Db, ns: seq<Node>, p: Key)
    ensures AllGone(db, ns) <==> AllLost(db, ns, p)
  {
    forall i | 0 <= i < |ns| ensures Lost(db, NodeRequest(ns[i], None)) <==> Lost(db, NodeRequest(ns[i], Some(p))) {}
  }

  /** All children gone: the parent stays as it was, parked without an edge. */
  lemma GoneLeavesStuck(db: Db, ns: seq<Node>, p: Key)
    requires Standing(db) && FreshParked(db, p) && AllGone(db, ns) && AddChildren(db, ns, p).BuiltAll?
    ensures var b := AddChildren(db, ns, p); FreshParked(LinkAll(b.db, p, b.ids), p)
  {
    hide AddChildren, LinkAll, Standing, Lost;
    var b := AddChildren(db, ns, p);
    GoneIsLost(db, ns, p);
    LostBelow(db, ns, p);
    UntouchedFresh(db, b.db, p);
    LinkAllSettles(b.db, p, b.ids);
  }

  /** What a node and its subtree do to the tables, and whether the condition tells a stuck parent. */
  lemma {:induction false} NodeStrandsExactly(db: Db, n: Node, parent: Option<Key>)
    requires Standing(db) && Apart(n) && Fit(db, KeysOf(n), IdsOf(n)) && AddNode(db, n, parent).Built?
    ensures var db' := AddNode(db, n, parent).db;
      && Standing(db') && Confined(db, db', KeysOf(n), IdsOf(n), parent)
      && (StrandsIn(db, n) ==> Stuck(db', KeysOf(n))) && (!StrandsIn(db, n) ==> !Strands(db, n, parent))
    decreases n, 0
  {
    hide Add, LinkAll, AddChildren, EnsureQueue, Standing, Confined, Grows, Fit, Agrees, HeldUnder;
    hide FreshParked, AllGone, Stuck;
    hide SomeStrandsIn, StrandsBelow, AllLost, AllApart;
    var k, ks, ids := KeyOf(n), KeysOfAll(n.children), IdsOfAll(n.children);
    var (db1, r) := Add(EnsureQueue(db, n.queue), NodeRequest(n, parent));
    RootConfined(db, n, parent);
    if n.children == [] || r.id != n.id {
      ConfinedMore(db, db1, {k}, OwnIds(n), parent, KeysOf(n), IdsOf(n));
    } else {
      FitsOn(db, db1, {k}, OwnIds(n), parent, ks, ids);
      AllStrandAlike(db, db1, n.children);
      ForestStrandsExactly(db1, n.children, k);
      var b := AddChildren(db1, n.children, k);
      var db' := LinkAll(b.db, k, b.ids);
      ConfinedTrans(db, db1, b.db, {k}, OwnIds(n), parent, ks, ids, Some(k));
      LinkAllConfined(b.db, k, b.ids);
      WiderUp(b.db, db', {k}, {}, Some(k));
      ConfinedTrans(db, b.db, db', KeysOf(n), IdsOf(n), parent, {k}, {}, Some(k));
      assert KeysOf(n) + {k} == KeysOf(n) && IdsOf(n) + {} == IdsOf(n);
      LinkAllStands(b.db, k, b.ids);
      GoneIsLost(db1, n.children, k);
      if AllGone(db1, n.children) {
        GoneLeavesStuck(db1, n.children, k);
        OneStuck(db', k, KeysOf(n));
      } else if SomeStrandsIn(db1, n.children) {
        NoneHeld(b.db, ks);
        StuckStays(b.db, db', ks, {k}, {}, None);
        StuckMore(db', ks, KeysOf(n));
      }
    }
  }

  lemma OneStuck(db: Db, k: Key, ks: set<Key>)
    requires FreshParked(db, k) && k in ks
    ensures Stuck(db, ks)
  {}

  lemma NoneHeld(db: Db, ks: set<Key>)
    ensures forall k | k in ks :: !HeldUnder(db, {}, k)
  {}

  lemma LinkAllStands(db: Db, p: Key, ks: seq<Key>)
    requires Standing(db)
    ensures Standing(LinkAll(db, p, ks))
  {
    hide LinkAll, Gentle;
    LinkAllGentle(db, p, ks);
    GentleStanding(db, LinkAll(db, p, ks));
  }

  lemma {:induction false} ForestStrandsExactly(db: Db, ns: seq<Node>, p: Key)
    requires Standing(db) && AllApart(ns) && Fit(db, KeysOfAll(ns), IdsOfAll(ns)) && p !in KeysOfAll(ns)
    requires AddChildren(db, ns, p).BuiltAll?
    ensures var db' := AddChildren(db, ns, p).db;
      && Standing(db') && Confined(db, db', KeysOfAll(ns), IdsOfAll(ns), Some(p))
      && (SomeStrandsIn(db, ns) ==> Stuck(db', KeysOfAll(ns))) && (!SomeStrandsIn(db, ns) ==> !StrandsBelow(db, ns, p))
    decreases ns, 1
  {
    hide AddNode, Standing, Confined, Fit, Agrees, HeldUnder, FreshParked, Stuck, StrandsIn, Strands, Apart;
    if ns == [] {
      ConfinedRefl(db, Some(p));
    } else {
      var c, rest := ns[0], ns[1..];
      var k1, i1, k2, i2 := KeysOf(c), IdsOf(c), KeysOfAll(rest), IdsOfAll(rest);
      FitLess(db, k1 + k2, i1 + i2, k1, i1);
      NodeStrandsExactly(db, c, Some(p));
      var b := AddNode(db, c, Some(p));
      FitsOn(db, b.db, k1, i1, Some(p), k2, i2);
      AllStrandAlike(db, b.db, rest);
      ForestStrandsExactly(b.db, rest, p);
      var db' := AddChildren(b.db, rest, p).db;
      ConfinedTrans(db, b.db, db', k1, i1, Some(p), k2, i2, Some(p));
      if StrandsIn(db, c) {
        StuckStays(b.db, db', k1, k2, i2, Some(p));
        StuckMore(db', k1, KeysOfAll(ns));
      } else if SomeStrandsIn(b.db, rest) {
        StuckMore(db', k2, KeysOfAll(ns));
      }
    }
  }

  /** A flow of any depth with ids of its own leaves a parent waiting on nothing exactly when, in the
      tables before it, some parent of the tree gets its row while each of its children carries
      `replace` under an id whose job is gone. */
  lemma FlowStrandsExactly(db: Db, n: Node, parent: Option<Key>)
    requires Standing(db) && Waits(db, {}) && Apart(n) && Fit(db, KeysOf(n), IdsOf(n)) && AddNode(db, n, parent).Built?
    ensures Waits(AddNode(db, n, parent).db, {}) <==> !StrandsIn(db, n)
  {
    hide AddNode, Standing, Confined, Fit, Strands, StrandsIn, Waits;
    NodeStrandsExactly(db, n, parent);
    if StrandsIn(db, n) {
      StuckWaitsNot(AddNode(db, n, parent).db, KeysOf(n));
    } else {
      NodeWaits(db, n, parent, {});
    }
  }

  lemma StuckWaitsNot(db: Db, ks: set<Key>)
    requires Stuck(db, ks)
    ensures !Waits(db, {})
  {
    var k :| k in ks && FreshParked(db, k);
    assert !HasBlockingEdge(db, k);
  }
}

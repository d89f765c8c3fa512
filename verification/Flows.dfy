/** Inserting a tree of jobs: a parent is parked, its children are added under it, and every
    child is linked once more when all of them are in. */
module Flows {
  import opened Rows
  import opened Tables
  import opened Linking
  import opened Adding

  datatype Node = Node(queue: QueueId, id: JobId, payload: Payload, timestamp: Millis,
    dedup: Option<DedupId>, children: seq<Node>)

  function KeyOf(n: Node): Key {
    Key(n.queue, n.id)
  }

  /** The queue row is created on first use. */
  ghost function EnsureQueue(db: Db, q: QueueId): Db {
    if q in db.queues then db else PutQueue(db, q, FRESH_QUEUE)
  }

  function LeafKind(p: Payload): Kind {
    if p.opts.delay > 0 then Later else if p.opts.priority != 0 then Prio else Standard
  }

  function NodeRequest(n: Node, parent: Option<Key>): Request {
    Request(if n.children != [] then FlowParent else LeafKind(n.payload),
            n.queue, Some(n.id), n.payload, n.timestamp, parent, n.dedup)
  }

  datatype Built = Aborted | Built(db: Db, id: JobId)
  datatype BuiltAll = AbortedAll | BuiltAll(db: Db, ids: seq<Key>)

  ghost function LinkAll(db: Db, parent: Key, children: seq<Key>): Db {
    if children == [] then db
    else Link(LinkAll(db, parent, children[..|children| - 1]), parent, children[|children| - 1])
  }

  /** Depth first; an error anywhere aborts the whole transaction. A parent folded into
      another row takes no children. */
  ghost function AddNode(db: Db, n: Node, parent: Option<Key>): Built
    decreases n, 0
  {
    var (db1, r) := Add(EnsureQueue(db, n.queue), NodeRequest(n, parent));
    if !r.Added? then Aborted
    else if n.children == [] || r.id != n.id then Built(db1, r.id)
    else
      var b := AddChildren(db1, n.children, KeyOf(n));
      if b.AbortedAll? then Aborted else Built(LinkAll(b.db, KeyOf(n), b.ids), n.id)
  }

  ghost function AddChildren(db: Db, ns: seq<Node>, parent: Key): (r: BuiltAll)
    ensures r.BuiltAll? ==> |r.ids| == |ns|
    decreases ns, 1
  {
    if ns == [] then BuiltAll(db, [])
    else
      var b := AddNode(db, ns[0], Some(parent));
      if b.Aborted? then AbortedAll
      else
        var rest := AddChildren(b.db, ns[1..], parent);
        if rest.AbortedAll? then AbortedAll
        else BuiltAll(rest.db, [Key(ns[0].queue, b.id)] + rest.ids)
  }

  /** The transaction: all of the flow or nothing. */
  ghost function AddFlow(db: Db, n: Node, parent: Option<Key>): Db {
    var b := AddNode(db, n, parent);
    if b.Built? then b.db else db
  }
}

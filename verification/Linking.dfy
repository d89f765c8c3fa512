/** Dependency edges and the release of parents whose children are done. */
module Linking {
  import opened Rows
  import opened Tables

  ghost predicate HasBlockingEdge(db: Db, p: Key) {
    exists i :: i in db.edges && db.edges[i].parent == p && Blocking(db.edges[i])
  }

  /** Edge rows are numbered below the next number. */
  ghost predicate EdgesNumbered(db: Db) {
    forall i | i in db.edges :: i < db.nextEdge
  }

  /** A parked parent leaves for `delayed`, `prioritized` or its wait list. */
  ghost function ReleaseParent(db: Db, p: Key): Db
    requires p in db.jobs
  {
    var j := db.jobs[p];
    if j.state != Parked then db
    else if j.delayMs > 0 then
      Put(db, p, j.(state := Delayed, processAt := Some(db.now + j.delayMs), waitSeq := None, prioSeq := None))
    else if j.priority > 0 then Prioritize(db, p, j.(waitSeq := None), Prioritized)
    else Enqueue(db, p, j)
  }

  ghost function LinkStatus(child: Job): EdgeStatus {
    match child.state
    case Completed => Processed
    case Failed => Broken
    case _ => Pending
  }

  ghost predicate Linked(db: Db, parent: Key, child: Key) {
    exists i :: i in db.edges && db.edges[i].parent == parent && EdgeOf(db.edges[i], child)
  }

  /** The edge row; one that is already there stays as it is. */
  ghost function AddEdge(db: Db, parent: Key, child: Key, status: EdgeStatus): Db {
    if Linked(db, parent, child) then db
    else db.(edges := db.edges[db.nextEdge := Edge(parent, child, true, status)], nextEdge := db.nextEdge + 1)
  }

  /** Links an existing child to an existing parent. Linking a child that has finished may
      release the parent. */
  ghost function Link(db: Db, parent: Key, child: Key): Db {
    if parent !in db.jobs || child !in db.jobs then db
    else
      var status := LinkStatus(db.jobs[child]);
      var db1 := AddEdge(db, parent, child, status);
      if status != Pending && !HasBlockingEdge(db1, parent) then ReleaseParent(db1, parent) else db1
  }

  predicate EdgeOf(e: Edge, child: Key) {
    e.linked && e.child == child
  }

  ghost function ParentsOf(db: Db, child: Key): set<Key> {
    set i | i in db.edges && EdgeOf(db.edges[i], child) :: db.edges[i].parent
  }

  /** What a failing child does to its edge, if the edge stays. */
  function FailedEdge(e: Edge, opts: JobOpts): Edge {
    if opts.idof || opts.cpof then e.(status := Ignored)
    else if e.status == Pending then e.(status := Broken)
    else e
  }

  /** An edge a failing child removes: by its own option, or because its row is about to go
      (`keep` 0) and nothing else has settled the edge. */
  predicate DropsEdge(e: Edge, opts: JobOpts, keepsNone: bool) {
    opts.rdof || (keepsNone && e.status == Pending && !opts.idof && !opts.cpof && !opts.fpof)
  }

  /** The edges of a child that has just ended. */
  ghost function ResolveEdges(db: Db, child: Key, opts: JobOpts, ok: bool, keepsNone: bool): Db {
    if ok then
      db.(edges := map i | i in db.edges ::
        if EdgeOf(db.edges[i], child) then db.edges[i].(status := Processed) else db.edges[i])
    else
      db.(edges := map i | i in db.edges && !(EdgeOf(db.edges[i], child) && DropsEdge(db.edges[i], opts, keepsNone)) ::
        if EdgeOf(db.edges[i], child) then FailedEdge(db.edges[i], opts) else db.edges[i])
  }

  /** `fpof`: arms one parent with a deferred failure and queues it if it was waiting. */
  ghost function ForceParent(db: Db, p: Key): Db
    requires p in db.jobs
  {
    var j := db.jobs[p].(deferred := true);
    if j.state == Parked then Enqueue(db, p, j)
    else if j.state == Delayed then Enqueue(db, p, j.(delayMs := 0, processAt := None))
    else Put(db, p, j)
  }

  ghost function ForceParents(db: Db, ps: seq<Key>): (db': Db)
    ensures db'.jobs.Keys == db.jobs.Keys
  {
    if ps == [] then db
    else
      var db1 := ForceParents(db, ps[..|ps| - 1]);
      var p := ps[|ps| - 1];
      if p in db1.jobs then ForceParent(db1, p) else db1
  }

  /** One parent after a child has ended: released when nothing blocks it any more, or
      outright when the child carried `cpof`. */
  ghost function SettleParent(db: Db, p: Key, cpof: bool): Db
    requires p in db.jobs
  {
    if db.jobs[p].state == Parked && (cpof || !HasBlockingEdge(db, p)) then ReleaseParent(db, p) else db
  }

  ghost function SettleParents(db: Db, ps: seq<Key>, cpof: bool): (db': Db)
    ensures db'.jobs.Keys == db.jobs.Keys
  {
    if ps == [] then db
    else
      var db1 := SettleParents(db, ps[..|ps| - 1], cpof);
      var p := ps[|ps| - 1];
      if p in db1.jobs then SettleParent(db1, p, cpof) else db1
  }
}

/** Operations on rows no worker holds: pause, promote, change of priority, reprocess,
    cutting a child loose, and the batched move back to the wait list. */
module Managing {
  import opened Rows
  import opened Ordering
  import opened Tables
  import opened Linking
  import opened Ending

  ghost function Pause(db: Db, q: QueueId, paused: bool): Db {
    if q !in db.queues then db
    else
      db.(queues := db.queues[q := db.queues[q].(paused := paused)],
          jobs := map k | k in db.jobs ::
            if k.queue == q && paused && db.jobs[k].state == Wait then db.jobs[k].(state := Paused)
            else if k.queue == q && !paused && db.jobs[k].state == Paused then db.jobs[k].(state := Wait)
            else db.jobs[k])
  }

  /** Promotion of one delayed job by hand. */
  ghost function Promote(db: Db, k: Key): (Db, Code) {
    if k !in db.jobs then (db, Missing)
    else if db.jobs[k].state != Delayed then (db, NotActive)
    else
      var j := db.jobs[k].(processAt := None);
      if j.priority > 0 then
        (Prioritize(db, k, j, if QueueOf(db, k.queue).paused then Paused else Prioritized), Ok)
      else (Enqueue(db, k, j), Ok)
  }

  ghost function ChangePriority(db: Db, k: Key, priority: int, lifo: bool): (Db, Code) {
    if k !in db.jobs then (db, Missing)
    else
      var j := db.jobs[k];
      if !Queued(j) && j.state != Prioritized then (Put(db, k, j.(priority := priority)), Ok)
      else if priority > 0 then
        var j1 := j.(priority := priority, waitSeq := None);
        if lifo then (Put(db, k, j1.(state := Prioritized, prioSeq := Some(PrioHead(db, k.queue, priority, k)))), Ok)
        else (Prioritize(db, k, j1, Prioritized), Ok)
      else
        var j1 := j.(priority := 0, prioSeq := None);
        var m := Least(WaitSeqs(db, k.queue, {Wait, Paused}, Some(k)));
        if lifo && m.Some? then
          (Put(db, k, j1.(state := Route(QueueOf(db, k.queue)), waitSeq := Some(m.value - 1))), Ok)
        else (Enqueue(db, k, j1), Ok)
  }

  /** `target` narrows the reprocess to completed or to failed rows. */
  ghost function Reprocess(db: Db, k: Key, resetMade: bool, resetStarted: bool, target: Option<bool>): (Db, Code) {
    if k !in db.jobs then (db, Missing)
    else
      var j := db.jobs[k];
      if !Finished(j) || (target.Some? && j.state != FinalState(target.value)) || j.lockToken.Some? then (db, NotActive)
      else
        var j1 := Unlocked(j).(attemptsMade := if resetMade then 0 else j.attemptsMade,
                               attemptsStarted := if resetStarted then 0 else j.attemptsStarted, finishedOn := None);
        var db1 := Enqueue(db, k, j1);
        (db1.(edges := map i | i in db.edges ::
           if EdgeOf(db.edges[i], k) then db.edges[i].(status := Pending) else db.edges[i]), Ok)
  }

  datatype CutCode = CutOk | ChildMissing | NoParent | NotRelated

  /** Cuts the edge; a parked parent with no pending edge left goes to its wait list. */
  ghost function CutEdge(db: Db, child: Key, parent: Key): (Db, CutCode) {
    if child !in db.jobs then (db, ChildMissing)
    else if parent !in db.jobs then (db, NoParent)
    else if !Linked(db, parent, child) then (db, NotRelated)
    else
      var db1 := db.(edges := map i | i in db.edges
        && !(db.edges[i].parent == parent && EdgeOf(db.edges[i], child)) :: db.edges[i]);
      if !HasEdge(db1, parent, Pending) && db.jobs[parent].state == Parked
      then (Enqueue(db1, parent, db1.jobs[parent]), CutOk)
      else (db1, CutOk)
  }

  /** The rows the batched move selects: due delayed rows, or finished rows, up to a time. */
  ghost function Movable(db: Db, q: QueueId, from: JobState, upTo: Millis): (s: set<Key>)
    ensures s <= db.jobs.Keys
  {
    set k | k in db.jobs && k.queue == q && db.jobs[k].state == from
      && (if from == Delayed then db.jobs[k].processAt.Some? && db.jobs[k].processAt.value <= upTo
          else (if db.jobs[k].finishedOn.Some? then db.jobs[k].finishedOn.value else 0) <= upTo)
  }

  function BatchOrder(from: JobState): SortBy {
    if from == Delayed then ByProcessAt else ByFinishedOn
  }

  ghost function MoveOne(db: Db, k: Key, from: JobState): Db
    requires k in db.jobs
  {
    var j := db.jobs[k].(processAt := None, delayMs := 0, finishedOn := None);
    if from == Delayed && j.priority > 0
    then Prioritize(db, k, j, if QueueOf(db, k.queue).paused then Paused else Prioritized)
    else Enqueue(db, k, j.(prioSeq := None))
  }

  ghost function MoveSeq(db: Db, ks: seq<Key>, from: JobState): (db': Db)
    ensures db'.jobs.Keys == db.jobs.Keys
  {
    if ks == [] then db
    else
      var db1 := MoveSeq(db, ks[..|ks| - 1], from);
      var k := ks[|ks| - 1];
      if k in db1.jobs then MoveOne(db1, k, from) else db1
  }

  function SourceState(from: JobState): JobState {
    if from == Completed || from == Delayed then from else Failed
  }

  function FirstN<T>(s: seq<T>, n: nat): seq<T> {
    if |s| <= n then s else s[..n]
  }

  /** One batch of at most `count` rows. */
  ghost function MoveBatch(db: Db, q: QueueId, from: JobState, count: nat, upTo: Millis): Db {
    var st := SourceState(from);
    MoveSeq(db, FirstN(Sorted(BatchOrder(st), db.jobs, Movable(db, q, st, upTo)), count), st)
  }

  /** The batch was full and rows are left: the caller goes on. */
  ghost predicate MoreToMove(db: Db, q: QueueId, from: JobState, count: nat, upTo: Millis) {
    var st := SourceState(from);
    0 < count <= |Movable(db, q, st, upTo)|
    && Movable(MoveBatch(db, q, from, count, upTo), q, st, upTo) != {}
  }
}

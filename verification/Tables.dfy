/** Row-level updates the queue functions are built from. */
module Tables {
  import opened Rows

  ghost function QueueOf(db: Db, q: QueueId): Queue {
    if q in db.queues then db.queues[q] else FRESH_QUEUE
  }

  /** The list a plain waiting job belongs to: `paused` while its queue is paused. */
  function Route(q: Queue): JobState {
    if q.paused then Paused else Wait
  }

  ghost function Put(db: Db, k: Key, j: Job): Db {
    db.(jobs := db.jobs[k := j])
  }

  ghost function PutQueue(db: Db, id: QueueId, q: Queue): Db {
    db.(queues := db.queues[id := q])
  }

  /** Takes the next wait sequence of the queue. */
  ghost function BumpWait(db: Db, q: QueueId): Db {
    PutQueue(db, q, QueueOf(db, q).(waitNum := QueueOf(db, q).waitNum + 1))
  }

  /** Takes the next priority sequence of the queue. */
  ghost function BumpPrio(db: Db, q: QueueId): Db {
    PutQueue(db, q, QueueOf(db, q).(prioNum := QueueOf(db, q).prioNum + 1))
  }

  /** Row `j` written at the tail of the wait list (or the paused list) of its queue. */
  ghost function Enqueue(db: Db, k: Key, j: Job): Db {
    var q := QueueOf(db, k.queue);
    Put(BumpWait(db, k.queue), k, j.(state := Route(q), waitSeq := Some(q.waitNum + 1)))
  }

  /** Row `j` written with a fresh priority sequence, in state `state`. */
  ghost function Prioritize(db: Db, k: Key, j: Job, state: JobState): Db {
    var q := QueueOf(db, k.queue);
    Put(BumpPrio(db, k.queue), k, j.(state := state, prioSeq := Some(q.prioNum + 1)))
  }

  function Unlocked(j: Job): Job {
    j.(lockToken := None, lockExpires := None)
  }

  /** Row `k` is active and leased to `token`; expiry is not looked at. */
  predicate HeldBy(db: Db, k: Key, token: Token) {
    k in db.jobs && db.jobs[k].state == Active && db.jobs[k].lockToken == Some(token)
  }

  predicate Unexpired(j: Job, now: Millis) {
    j.lockToken.Some? && j.lockExpires.Some? && j.lockExpires.value > now
  }

  /** The `wait_seq` values of the rows of queue `q` in the given states. */
  ghost function WaitSeqs(db: Db, q: QueueId, states: set<JobState>, except: Option<Key>): set<int> {
    set k | k in db.jobs && k.queue == q && db.jobs[k].state in states && Some(k) != except && db.jobs[k].waitSeq.Some?
      :: db.jobs[k].waitSeq.value
  }

  /** The `prio_seq` values of the prioritized rows of one priority. */
  ghost function PrioSeqs(db: Db, q: QueueId, priority: int, except: Key): set<int> {
    set k | k in db.jobs && k.queue == q && db.jobs[k].state == Prioritized && k != except
        && db.jobs[k].priority == priority && db.jobs[k].prioSeq.Some?
      :: db.jobs[k].prioSeq.value
  }

  ghost predicate IsLeast(s: set<int>, m: int) {
    m in s && forall x | x in s :: m <= x
  }

  lemma {:induction false} LeastExists(s: set<int>) returns (m: int)
    requires s != {}
    ensures IsLeast(s, m)
    decreases |s|
  {
    assert (forall y: int :: y !in s) ==> s == {};
    var y: int :| y in s;
    m := y;
    var rest := s - {y};
    if rest != {} {
      var x := LeastExists(rest);
      m := if x < y then x else y;
      forall z | z in s ensures m <= z { assert z == y || z in rest; }
    }
  }

  /** SQL `min` over a set of values: null when there are none. */
  ghost function Least(s: set<int>): (r: Option<int>)
    ensures r.Some? <==> s != {}
    ensures r.Some? ==> IsLeast(s, r.value)
  {
    if s == {} then None
    else
      assert exists m :: IsLeast(s, m) by { var m := LeastExists(s); }
      var m :| IsLeast(s, m);
      Some(m)
  }

  /** `coalesce(min(prio_seq), 1) - 1`: in front of every peer of the priority. */
  ghost function PrioHead(db: Db, q: QueueId, priority: int, except: Key): int {
    var m := Least(PrioSeqs(db, q, priority, except));
    if m.Some? then m.value - 1 else 0
  }

  /** Row removal with the foreign keys: edges of a removed parent go with it, edges of a
      removed child lose the reference to the row. */
  ghost function DeleteJobs(db: Db, s: set<Key>): Db {
    db.(jobs := map k | k in db.jobs && k !in s :: db.jobs[k],
        edges := map i | i in db.edges && db.edges[i].parent !in s ::
          if db.edges[i].child in s then db.edges[i].(linked := false) else db.edges[i])
  }

  ghost function DeleteDedups(db: Db, s: set<DedupKey>): Db {
    db.(dedups := map d | d in db.dedups && d !in s :: db.dedups[d])
  }
}

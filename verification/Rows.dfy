/** The tables of the queue as values: job rows, dependency edges, queues with their
    counters and limiter window, and deduplication rows. */
module Rows {

  datatype Option<+T> = None | Some(value: T)

  type QueueId = nat
  type JobId = nat
  type DedupId = nat

  /** Lock tokens; the bypass token '0' is not one of them. */
  type Token = nat
  type Millis = int

  /** `Parked` is the state the database calls `waiting-children`. */
  datatype JobState =
    Wait | Paused | Active | Delayed | Prioritized | Parked | Completed | Failed

  /** The unique (queue_id, job_id) pair of a row. */
  datatype Key = Key(queue: QueueId, id: JobId)

  /** The `deduplication` bag of the job options; `ttl` is 0 when absent. */
  datatype DedupOpts = DedupOpts(ttl: int, extend: bool, replace: bool, keepLast: bool)

  datatype JobOpts = JobOpts(
    delay: int, priority: int, attempts: int, lifo: bool,
    fpof: bool, cpof: bool, idof: bool, rdof: bool, dedup: Option<DedupOpts>)

  datatype Payload = Payload(name: string, data: string, opts: JobOpts)

  datatype Job = Job(
    pk: nat, payload: Payload, state: JobState, priority: int,
    waitSeq: Option<int>, prioSeq: Option<int>, processAt: Option<Millis>, delayMs: int,
    attemptsMade: nat, attemptsStarted: nat, maxAttempts: int, stalled: nat,
    finishedOn: Option<Millis>, lockToken: Option<Token>, lockExpires: Option<Millis>,
    parent: Option<Key>, dedup: Option<DedupId>, deferred: bool)

  /** Edge statuses; `resolved_at` is null exactly for `Pending`. */
  datatype EdgeStatus = Pending | Processed | Broken | Ignored

  /** One row of the dependency table. `child` is the retained child reference;
      `linked` is false once the child row is gone and `child_pk` is null. */
  datatype Edge = Edge(parent: Key, child: Key, linked: bool, status: EdgeStatus)

  datatype Window = Window(tokens: int, expires: Option<Millis>)

  /** A limiter: at most `max` claims per window of `duration` milliseconds. */
  datatype Limiter = Limiter(max: int, duration: int)

  datatype Queue = Queue(
    paused: bool, concurrency: Option<int>, limiter: Option<Limiter>,
    jobNum: nat, waitNum: nat, prioNum: nat, window: Option<Window>)

  datatype DedupKey = DedupKey(queue: QueueId, id: DedupId)

  datatype Dedup = Dedup(job: JobId, expires: Option<Millis>, keepLast: bool, pending: Option<Payload>)

  datatype Db = Db(
    now: Millis, jobs: map<Key, Job>, edges: map<nat, Edge>, queues: map<QueueId, Queue>,
    dedups: map<DedupKey, Dedup>, nextPk: nat, nextEdge: nat)

  const FRESH_QUEUE := Queue(false, None, None, 0, 0, 0, None)

  predicate Finished(j: Job) {
    j.state == Completed || j.state == Failed
  }

  /** In the wait list of its queue, paused or not. */
  predicate Queued(j: Job) {
    j.state == Wait || j.state == Paused
  }

  /** An edge that keeps its parent waiting. */
  predicate Blocking(e: Edge) {
    e.status == Pending || e.status == Broken
  }
}

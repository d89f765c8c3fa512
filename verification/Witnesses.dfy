/** Concrete inputs on which an unconditional reading of a promise fails. */
module Witnesses {
  import opened Rows
  import opened Tables
  import opened Places
  import opened Adding
  import opened Claiming
  import opened Ending
  import opened Flows
  import opened Machine
  import opened Lives
  import opened Waiting
  import opened Parents
  import opened Limits
  import opened Releasing
  import opened Turns
  import opened Trees
  import opened KeepLast

  function SomeNode(id: JobId, opts: Option<DedupOpts>, dedup: Option<DedupId>, children: seq<Node>): Node {
    Node(0, id, Payload("", "", JobOpts(0, 0, 1, false, false, false, false, false, opts)), 0, dedup, children)
  }

  lemma OneChild(db: Db, c: Node, p: Key)
    ensures AddChildren(db, [c], p) ==
      (var b := AddNode(db, c, Some(p)); if b.Aborted? then AbortedAll else BuiltAll(b.db, [Key(c.queue, b.id)]))
  {
    hide AddNode;
    var b := AddNode(db, c, Some(p));
    assert [c][1..] == [];
    if b.Built? {
      assert AddChildren(b.db, [], p) == BuiltAll(b.db, []);
      assert [Key(c.queue, b.id)] + [] == [Key(c.queue, b.id)];
    }
  }

  lemma LeafBuilt(db: Db, c: Node, p: Key)
    requires c.children == []
    ensures AddNode(db, c, Some(p)) ==
      (var (db1, r) := Add(EnsureQueue(db, c.queue), NodeRequest(c, Some(p)));
       if r.Added? then Built(db1, r.id) else Aborted)
  {
    hide Add;
  }

  lemma LeafStrandsNone(db: Db, c: Node, p: Key)
    requires c.children == []
    ensures !StrandsBelow(db, [c], p)
  {
    hide Add;
    assert [c][1..] == [];
  }

  lemma LostIsAdded(db: Db, r: Request)
    requires Lost(db, r) && r.queue in db.queues && (r.parent.Some? ==> r.parent.value in db.jobs)
    ensures Add(db, r).1.Added?
  {
    hide Insert;
  }

  /** Deduplication id 7 names job 99, which is gone, and the only child of the flow carries
      `replace` under that id: its parent ends up parked without an edge. */
  lemma StrandedFlow() returns (db: Db, n: Node)
    ensures Standing(db) && Waits(db, {}) && AddNode(db, n, None).Built? && !Waits(AddNode(db, n, None).db, {})
  {
    var child := SomeNode(2, Some(DedupOpts(0, false, true, false)), Some(7), []);
    n := SomeNode(1, None, None, [child]);
    var d := DedupKey(0, 7);
    db := Db(0, map[], map[], map[0 := FRESH_QUEUE], map[d := Dedup(99, None, false, None)], 0, 0);
    hide Add, Waits, AddNode, AddChildren, LinkAll;
    WaitsNone(db);
    var p, r := Key(0, 1), NodeRequest(n, None);
    assert EnsureQueue(db, 0) == db;
    var db1 := Add(db, r).0;
    RootGains(db, n, None);
    AddFresh(db, r);
    ElsewhereAdd(db, r, d);
    var rc := NodeRequest(child, Some(p));
    assert db1.jobs.Keys == {p};
    assert Lost(db1, rc);
    StrandedBy(db, n, child, db1);
  }

  lemma WaitsNone(db: Db)
    requires db.jobs == map[]
    ensures Waits(db, {})
  {}

  lemma StrandedBy(db: Db, n: Node, child: Node, db1: Db)
    requires Standing(db) && Waits(db, {}) && KeyOf(n) !in db.jobs && n.children == [child] && child.children == []
    requires Add(EnsureQueue(db, n.queue), NodeRequest(n, None)) == (db1, Added(n.id))
    requires FreshParked(db1, KeyOf(n)) && Lost(db1, NodeRequest(child, Some(KeyOf(n)))) && child.queue in db1.queues
    ensures AddNode(db, n, None).Built? && !Waits(AddNode(db, n, None).db, {})
  {
    hide Add, Waits, LinkAll, Standing, Lost;
    var p := KeyOf(n);
    assert EnsureQueue(db1, child.queue) == db1;
    LostIsAdded(db1, NodeRequest(child, Some(p)));
    LeafBuilt(db1, child, p);
    OneChild(db1, child, p);
    LeafStrandsNone(db1, child, p);
    assert AllLost(db1, n.children, p);
    StrandedExactly(db, n, None);
  }

  // ---------------------------------------------------------------- runs from an empty database

  const EMPTY := Db(0, map[], map[], map[0 := FRESH_QUEUE], map[], 0, 0)
  const A := Key(0, 1)
  const B := Key(0, 2)

  function SomePayload(dedup: Option<DedupOpts>): Payload {
    Payload("", "", JobOpts(0, 0, 1, false, false, false, false, false, dedup))
  }

  function SomeAdd(custom: Option<JobId>): Request {
    Request(Standard, 0, custom, SomePayload(None), 0, None, None)
  }

  lemma Then(db: Db, ops: seq<Op>, op: Op)
    ensures Run(db, ops + [op]) == Step(Run(db, ops), op)
  {
    hide Step;
    assert (ops + [op])[..|ops|] == ops;
  }

  lemma NothingDue(db: Db, q: QueueId)
    requires Due(db, q) == {}
    ensures PromoteDue(db, q) == db
  {}

  /** What a plain add makes of the state. */
  ghost function AfterAdd(db: Db, r: Request, k: Key): Db
    requires r.queue in db.queues
  {
    var q := db.queues[r.queue];
    db.(nextPk := db.nextPk + 1,
        jobs := db.jobs[k := NewRow(db, r).(state := Route(q), waitSeq := Some(q.waitNum + 1))],
        queues := db.queues[r.queue :=
          q.(jobNum := if r.custom.Some? then q.jobNum else q.jobNum + 1, waitNum := q.waitNum + 1)])
  }

  lemma AddsPlainly(db: Db, r: Request, k: Key)
    requires r.queue in db.queues && r.kind == Standard && !r.payload.opts.lifo && r.parent.None? && r.dedup.None?
    requires k == Key(r.queue, if r.custom.Some? then r.custom.value else db.queues[r.queue].jobNum + 1)
    requires k !in db.jobs
    ensures Step(db, OpAdd(r)) == AfterAdd(db, r, k)
  {
    hide Insert, InsertRow;
    var q := db.queues[r.queue];
    var db1 := if r.custom.Some? then db else PutQueue(db, r.queue, q.(jobNum := q.jobNum + 1));
    assert Step(db, OpAdd(r)) == Insert(db1, r, k).0;
    InsertsPlainly(db1, r, k);
    assert InsertRow(db1, k, r) == AfterAdd(db, r, k) by { RowsPlainly(db1, r, k); }
  }

  lemma InsertsPlainly(db: Db, r: Request, k: Key)
    requires r.parent.None? && r.dedup.None? && k !in db.jobs
    ensures Insert(db, r, k).0 == InsertRow(db, k, r)
  {
    hide InsertRow;
  }

  lemma RowsPlainly(db: Db, r: Request, k: Key)
    requires r.kind == Standard && !r.payload.opts.lifo && k.queue == r.queue && r.queue in db.queues
    ensures var q := db.queues[r.queue];
      InsertRow(db, k, r) == db.(nextPk := db.nextPk + 1,
        jobs := db.jobs[k := NewRow(db, r).(state := Route(q), waitSeq := Some(q.waitNum + 1))],
        queues := db.queues[r.queue := q.(waitNum := q.waitNum + 1)])
  {
    hide Least, WaitSeqs;
  }

  /** A claim with nothing due, no limiter and room under the cap. */
  lemma ClaimsPlainly(db: Db, a: ClaimArgs)
    requires a.queue in db.queues && Due(db, a.queue) == {} && a.limiter.None?
    requires var q := db.queues[a.queue];
      !q.paused && q.window.None? && q.limiter.None?
        && (q.concurrency.Some? ==> |LiveLeases(db, a.queue)| < q.concurrency.value)
    requires Picks(db, a.queue, a.pick)
    ensures Step(db, OpClaim(a)) == Put(db, a.pick, Leased(db.jobs[a.pick], a.token, db.now + a.lockMs))
  {
    hide PromoteDue, LiveLeases;
    assert db.queues[a.queue := db.queues[a.queue]] == db.queues;
    assert DropExpiredWindow(db, a.queue) == db;
    NothingDue(db, a.queue);
  }

  /** Row `pk` of the run, once claimed or retried. */
  function SomeJob(pk: nat, state: JobState, seq_: int, made: nat, started: nat, lease: Option<(Token, Millis)>): Job {
    Job(pk, SomePayload(None), state, 0, Some(seq_), None, None, 0, made, started, 1, 0, None,
        if lease.Some? then Some(lease.value.0) else None, if lease.Some? then Some(lease.value.1) else None,
        None, None, false)
  }

  /** The two jobs of the run and their queue. */
  function Pair(now: Millis, a: Job, b: Job, q: Queue): Db {
    Db(now, map[A := a, B := b], map[], map[0 := q], map[], 2, 0)
  }

  function SomeQueue(paused: bool, cap: Option<int>): Queue {
    Queue(paused, cap, None, 2, 2, 0, None)
  }

  /** Two plain adds to a queue with cap `cap`. */
  lemma TwoAdded(cap: Option<int>)
    ensures var db := EMPTY.(queues := map[0 := FRESH_QUEUE.(concurrency := cap)]);
      Run(db, [OpAdd(SomeAdd(None)), OpAdd(SomeAdd(None))])
        == Pair(0, SomeJob(0, Wait, 1, 0, 0, None), SomeJob(1, Wait, 2, 0, 0, None), SomeQueue(false, cap))
  {
    hide Step;
    var db, op := EMPTY.(queues := map[0 := FRESH_QUEUE.(concurrency := cap)]), OpAdd(SomeAdd(None));
    Then(db, [], op);
    assert [] + [op] == [op];
    AddsPlainly(db, SomeAdd(None), A);
    Then(db, [op], op);
    assert [op] + [op] == [op, op];
    AddsPlainly(AfterAdd(db, SomeAdd(None), A), SomeAdd(None), B);
  }

  function Waiting1(): Job { SomeJob(0, Wait, 1, 0, 0, None) }
  function Waiting2(): Job { SomeJob(1, Wait, 2, 0, 0, None) }

  lemma FirstClaimed(cap: Option<int>, lockMs: int)
    requires cap.Some? ==> cap.value > 0
    ensures Step(Pair(0, Waiting1(), Waiting2(), SomeQueue(false, cap)), OpClaim(ClaimArgs(0, 7, lockMs, None, A)))
      == Pair(0, SomeJob(0, Active, 1, 0, 1, Some((7, lockMs))), Waiting2(), SomeQueue(false, cap))
  {
    hide Step;
    var db := Pair(0, Waiting1(), Waiting2(), SomeQueue(false, cap));
    assert Due(db, 0) == {} && LiveLeases(db, 0) == {};
    assert Picks(db, 0, A);
    ClaimsPlainly(db, ClaimArgs(0, 7, lockMs, None, A));
  }

  lemma SecondClaimed(now: Millis, cap: Option<int>, until: Millis, lockMs: int)
    requires cap.Some? ==> cap.value > 0 && until <= now
    ensures var a := SomeJob(0, Active, 1, 0, 1, Some((7, until)));
      Step(Pair(now, a, Waiting2(), SomeQueue(false, cap)), OpClaim(ClaimArgs(0, 8, lockMs, None, B)))
      == Pair(now, a, SomeJob(1, Active, 2, 0, 1, Some((8, now + lockMs))), SomeQueue(false, cap))
  {
    hide Step;
    var db := Pair(now, SomeJob(0, Active, 1, 0, 1, Some((7, until))), Waiting2(), SomeQueue(false, cap));
    assert Due(db, 0) == {} && (until <= now ==> LiveLeases(db, 0) == {});
    assert Picks(db, 0, B);
    ClaimsPlainly(db, ClaimArgs(0, 8, lockMs, None, B));
  }

  /** Both jobs claimed: the first until `lockMs`, the second `wait` later until `lockMs` after that. */
  function Claimed(cap: Option<int>, wait: nat, lockMs: int): seq<Op> {
    [OpAdd(SomeAdd(None)), OpAdd(SomeAdd(None))] + [OpClaim(ClaimArgs(0, 7, lockMs, None, A))] + [OpTick(wait)]
      + [OpClaim(ClaimArgs(0, 8, lockMs, None, B))]
  }

  function BothActive(cap: Option<int>, wait: nat, lockMs: int): Db {
    Pair(wait, SomeJob(0, Active, 1, 0, 1, Some((7, lockMs))),
      SomeJob(1, Active, 2, 0, 1, Some((8, wait + lockMs))), SomeQueue(false, cap))
  }

  function Start(cap: Option<int>): Db {
    EMPTY.(queues := map[0 := FRESH_QUEUE.(concurrency := cap)])
  }

  lemma BothClaimed(cap: Option<int>, wait: nat, lockMs: int)
    requires cap.Some? ==> cap.value > 0 && lockMs <= wait
    ensures Initial(Start(cap)) && Run(Start(cap), Claimed(cap, wait, lockMs)) == BothActive(cap, wait, lockMs)
  {
    hide Step, Run;
    var db, q := Start(cap), SomeQueue(false, cap);
    var ops := [OpAdd(SomeAdd(None)), OpAdd(SomeAdd(None))];
    var a := SomeJob(0, Active, 1, 0, 1, Some((7, lockMs)));
    TwoAdded(cap);
    Then(db, ops, OpClaim(ClaimArgs(0, 7, lockMs, None, A)));
    FirstClaimed(cap, lockMs);
    var ops1 := ops + [OpClaim(ClaimArgs(0, 7, lockMs, None, A))];
    Then(db, ops1, OpTick(wait));
    assert Step(Pair(0, a, Waiting2(), q), OpTick(wait)) == Pair(wait, a, Waiting2(), q)
      by { Ticks(Pair(0, a, Waiting2(), q), wait); }
    Then(db, ops1 + [OpTick(wait)], OpClaim(ClaimArgs(0, 8, lockMs, None, B)));
    SecondClaimed(wait, cap, lockMs, lockMs);
  }

  lemma Ticks(db: Db, ms: nat)
    ensures Step(db, OpTick(ms)) == db.(now := db.now + ms)
  {}

  /** Under a cap of one, a job is claimed until 5, another at 10 until 15, and then the first is
      renewed: two leases run. */
  lemma LateRenewalExceedsCap() returns (db: Db, ops: seq<Op>, op: Op)
    ensures Initial(db) && 0 in db.queues && db.queues[0].concurrency == Some(1)
    ensures |LiveLeases(Run(db, ops), 0)| == 1 && |LiveLeases(Step(Run(db, ops), op), 0)| == 2
  {
    db, ops, op := Start(Some(1)), Claimed(Some(1), 10, 5), OpExtendMany(0, [Lease(1, 7)], 30);
    BothClaimed(Some(1), 10, 5);
    hide Run, Step;
    var end := BothActive(Some(1), 10, 5);
    assert LiveLeases(end, 0) == {B};
    BatchStep(end, op);
    RenewalRevives(end, 0, op.leases, 30) by { hide *; }
    FirstIsRenewed();
    hide LiveLeases, Renewed, ExtendMany;
    assert LiveLeases(Step(end, op), 0) == {A, B};
  }

  lemma FirstIsRenewed()
    ensures Renewed(BothActive(Some(1), 10, 5), 0, [Lease(1, 7)]) == {A}
  {
    assert Lease(1, 7) in [Lease(1, 7)];
  }

  // ---------------------------------------------------------------- LIFO retries under pause

  function Retried(pk: nat, state: JobState): Job {
    SomeJob(pk, state, 0, 1, 1, None)
  }

  /** Both claimed, the queue paused, and the first given back by a LIFO retry. */
  function OneRetried(): seq<Op> {
    Claimed(None, 0, 5) + [OpPause(0, true)] + [OpRetry(A, 7, true)]
  }

  lemma RetriesPaused(db: Db, k: Key, t: Token)
    requires AllPlaced(db) && Due(db, k.queue) == {} && HeldBy(db, k, t) && db.jobs[k].priority <= 0
    requires QueueOf(db, k.queue).paused
    ensures Step(db, OpRetry(k, t, true)) ==
      Put(db, k, db.jobs[k].(attemptsMade := db.jobs[k].attemptsMade + 1, lockToken := None, lockExpires := None,
                             state := Paused, waitSeq := Some(0), prioSeq := None))
  {
    hide PromoteDue;
    NothingDue(db, k.queue);
    OneListOnly(db, k.queue);
    assert WaitSeqs(db, k.queue, {Wait}, None) == {};
  }

  lemma OneIsRetried()
    ensures Initial(Start(None))
    ensures Run(Start(None), OneRetried()) ==
      Pair(0, Retried(0, Paused), SomeJob(1, Active, 2, 0, 1, Some((8, 5))), SomeQueue(true, None))
  {
    hide Run, Step;
    BothClaimed(None, 0, 5);
    var db, ops := Start(None), Claimed(None, 0, 5);
    Then(db, ops, OpPause(0, true));
    Then(db, ops + [OpPause(0, true)], OpRetry(A, 7, true));
    var b := SomeJob(1, Active, 2, 0, 1, Some((8, 5)));
    var paused := Pair(0, SomeJob(0, Active, 1, 0, 1, Some((7, 5))), b, SomeQueue(true, None));
    BothPaused();
    assert Due(paused, 0) == {};
    RetriesPaused(paused, A, 7);
  }

  lemma BothPaused()
    ensures Step(BothActive(None, 0, 5), OpPause(0, true)) == Pair(0, SomeJob(0, Active, 1, 0, 1, Some((7, 5))),
      SomeJob(1, Active, 2, 0, 1, Some((8, 5))), SomeQueue(true, None))
  {}

  /** A LIFO retry under pause that does not go in front: a row retried before it has sequence 0 too. */
  lemma RetryBehindRetry() returns (db: Db, ops: seq<Op>, k: Key, t: Token)
    ensures Initial(db) && HeldBy(Run(db, ops), k, t) && Run(db, ops).jobs[k].priority <= 0
    ensures QueueOf(Run(db, ops), k.queue).paused && !InFront(Step(Run(db, ops), OpRetry(k, t, true)), k)
  {
    hide Run, Step;
    OneIsRetried();
    db, ops, k, t := Start(None), OneRetried(), B, 8;
    var end := Run(db, ops);
    assert Due(end, 0) == {};
    RetriesPaused(end, B, 8);
    assert A in Step(end, OpRetry(B, 8, true)).jobs;
  }

  lemma BothResume()
    ensures Step(Pair(0, Retried(0, Paused), Retried(1, Paused), SomeQueue(true, None)), OpPause(0, false))
      == Pair(0, Retried(0, Wait), Retried(1, Wait), SomeQueue(false, None))
  {}

  /** And once the queue runs again the two are tied: neither is claimed before the other. */
  lemma PausedRetriesTie() returns (db: Db, ops: seq<Op>, x: Key, y: Key)
    ensures Initial(db) && !QueueOf(db, x.queue).paused && x != y && x.queue == y.queue
    ensures var end := Run(db, ops);
      && x in end.jobs && y in end.jobs && Claimable(end.jobs[x]) && Claimable(end.jobs[y])
      && !ClaimsBefore(end.jobs[x], end.jobs[y]) && !ClaimsBefore(end.jobs[y], end.jobs[x])
  {
    hide Run, Step;
    OneIsRetried();
    db, x, y := Start(None), A, B;
    var ops1 := OneRetried();
    var end1 := Run(db, ops1);
    assert Due(end1, 0) == {};
    RetriesPaused(end1, B, 8);
    Then(db, ops1, OpRetry(B, 8, true));
    var end2 := Run(db, ops1 + [OpRetry(B, 8, true)]);
    assert end2 == Pair(0, Retried(0, Paused), Retried(1, Paused), SomeQueue(true, None));
    Then(db, ops1 + [OpRetry(B, 8, true)], OpPause(0, false));
    ops := ops1 + [OpRetry(B, 8, true)] + [OpPause(0, false)];
    BothResume();
  }

  // ---------------------------------------------------------------- a stash that is lost

  const HELD := DedupKey(0, 7)

  function KeptAdd(data: string): Request {
    Request(Standard, 0, None, SomePayload(Some(DedupOpts(0, false, false, true))).(data := data), 0, None, Some(7))
  }

  function HolderRow(state: JobState, started: nat, lease: Option<(Token, Millis)>): Job {
    SomeJob(0, state, 1, 0, started, lease).(payload := KeptAdd("first").payload, dedup := Some(7))
  }

  function Keeping(jobs: map<Key, Job>, q: Queue, row: Dedup): Db {
    Db(0, jobs, map[], map[0 := q], map[HELD := row], |jobs|, 0)
  }

  /** The holder is added. */
  function Keeping1(): Db {
    Keeping(map[A := HolderRow(Wait, 0, None)], Queue(false, None, None, 1, 1, 0, None), Dedup(1, None, true, None))
  }

  lemma HolderAdded()
    ensures Step(Start(None), OpAdd(KeptAdd("first"))) == Keeping1()
  {
    hide Least, WaitSeqs;
    var db, r := Start(None), KeptAdd("first");
    var db1 := PutQueue(db, 0, FRESH_QUEUE.(jobNum := 1));
    assert ClearStale(db1, 0, 7) == db1;
    assert Add(db, r).0 == LinkUp(HoldDedup(InsertRow(db1, A, r), r, 1), r, A);
  }

  /** It is claimed. */
  function Keeping2(): Db {
    Keeping(map[A := HolderRow(Active, 1, Some((7, 10)))], Queue(false, None, None, 1, 1, 0, None),
      Dedup(1, None, true, None))
  }

  lemma HolderClaimed()
    ensures Step(Keeping1(), OpClaim(ClaimArgs(0, 7, 10, None, A))) == Keeping2()
  {
    hide Step;
    var db := Keeping1();
    assert Due(db, 0) == {};
    assert Picks(db, 0, A);
    ClaimsPlainly(db, ClaimArgs(0, 7, 10, None, A));
  }

  /** A second add is kept as the stash; the number it took stays unused. */
  function Keeping3(): Db {
    Keeping(map[A := HolderRow(Active, 1, Some((7, 10)))], Queue(false, None, None, 2, 1, 0, None),
            Dedup(1, None, true, Some(KeptAdd("second").payload)))
  }

  lemma SecondKept()
    ensures Step(Keeping2(), OpAdd(KeptAdd("second"))) == Keeping3()
  {
    hide Insert;
    var db, r := Keeping2(), KeptAdd("second");
    assert Suppressed(PutQueue(db, 0, db.queues[0].(jobNum := 2)), r);
  }

  /** And a job takes the next number as its own id. */
  function KeepingOps(): seq<Op> {
    [] + [OpAdd(KeptAdd("first"))] + [OpClaim(ClaimArgs(0, 7, 10, None, A))]
      + [OpAdd(KeptAdd("second"))] + [OpAdd(SomeAdd(Some(3)))]
  }

  function Keeping4(): Db {
    Keeping(map[A := HolderRow(Active, 1, Some((7, 10))), Key(0, 3) := SomeJob(1, Wait, 2, 0, 0, None)],
            Queue(false, None, None, 2, 2, 0, None), Dedup(1, None, true, Some(KeptAdd("second").payload)))
  }

  lemma NumberTaken()
    ensures Run(Start(None), KeepingOps()) == Keeping4()
  {
    hide Step, Run;
    var db := Start(None);
    var op1, op2 := OpAdd(KeptAdd("first")), OpClaim(ClaimArgs(0, 7, 10, None, A));
    var op3, op4 := OpAdd(KeptAdd("second")), OpAdd(SomeAdd(Some(3)));
    Then(db, [], op1);
    Then(db, [] + [op1], op2);
    Then(db, [] + [op1] + [op2], op3);
    Then(db, [] + [op1] + [op2] + [op3], op4);
    assert Run(db, []) == db by { RunNone(db); }
    HolderAdded();
    HolderClaimed();
    SecondKept();
    AddsPlainly(Keeping3(), SomeAdd(Some(3)), Key(0, 3));
  }

  lemma RunNone(db: Db)
    ensures Run(db, []) == db
  {}

  /** The promise of `keepLastIfActive` broken: a custom id has taken the number the stash would
      get, and the finish of the holder drops the stash without a job. */
  lemma StashIsLost() returns (db: Db, ops: seq<Op>, a: FinishArgs, d: DedupKey)
    ensures Initial(db) && Sane(Run(db, ops)) && Finishes(Run(db, ops), a) && IsFirstStash(Run(db, ops), a.key, d)
    ensures NextOf(Run(db, ops), d.queue) in Run(db, ops).jobs
    ensures var db' := DoFinish(Run(db, ops), a);
      d !in db'.dedups && (forall x | x in db'.jobs :: x in Run(db, ops).jobs)
  {
    hide Run, DoFinish, Sane;
    db, ops, a, d := Start(None), KeepingOps(), FinishArgs(A, 7, true, None, None), HELD;
    assert Initial(db);
    InitialSane(db);
    RunSane(db, ops);
    NumberTaken();
    var end := Run(db, ops);
    forall x | IsStash(end, A, x) ensures d.id <= x.id {}
    StashBecomesJob(end, a, d);
  }
}

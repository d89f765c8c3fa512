/** What the calls on a single job write, said in columns: where a job given back goes, and what
    becomes of the columns of a row that is promoted, reprioritized, reprocessed or cut loose. */
module Rewriting {
  import opened Rows
  import opened Tables
  import opened Claiming
  import opened Ending
  import opened Managing
  import opened Machine
  import opened Picking
  import opened Inserting
  import opened Adopting

  /** Row `k` and the numbers of its queue, and nothing else. */
  ghost predicate OnlyRow(db: Db, db': Db, k: Key) {
    && k in db.jobs && k in db'.jobs && db'.jobs == db.jobs[k := db'.jobs[k]]
    && db' == db.(jobs := db'.jobs, queues := db'.queues)
    && (forall o | o != k.queue :: QueueOf(db', o) == QueueOf(db, o))
  }

  /** The queue has handed out one wait sequence more, or one priority sequence more, or none. */
  predicate TookWait(q: Queue, q': Queue) {
    q' == q.(waitNum := q.waitNum + 1)
  }

  predicate TookPrio(q: Queue, q': Queue) {
    q' == q.(prioNum := q.prioNum + 1)
  }

  /** Another prioritized row of the queue of the same priority, under a sequence. */
  ghost predicate PrioPeer(db: Db, k: Key, priority: int, x: Key) {
    x in db.jobs && x != k && x.queue == k.queue && db.jobs[x].state == Prioritized
    && db.jobs[x].priority == priority && db.jobs[x].prioSeq.Some?
  }

  /** One below the least sequence of the row's peers; without peers, 0. */
  ghost predicate TopOfPriority(db': Db, k: Key)
    requires k in db'.jobs
  {
    var j := db'.jobs[k];
    if exists x :: PrioPeer(db', k, j.priority, x) then
      && j.prioSeq.Some?
      && (forall x | PrioPeer(db', k, j.priority, x) :: j.prioSeq.value < db'.jobs[x].prioSeq.value)
      && (exists x :: PrioPeer(db', k, j.priority, x) && j.prioSeq.value + 1 == db'.jobs[x].prioSeq.value)
    else j.prioSeq == Some(0)
  }

  lemma PrioHeadIsTop(db: Db, db': Db, k: Key, priority: int)
    requires k in db'.jobs && db'.jobs == db.jobs[k := db'.jobs[k]] && db'.jobs[k].priority == priority
    requires db'.jobs[k].prioSeq == Some(PrioHead(db, k.queue, priority, k))
    ensures TopOfPriority(db', k)
  {
    var seqs := PrioSeqs(db, k.queue, priority, k);
    forall x ensures PrioPeer(db', k, priority, x) <==> PrioPeer(db, k, priority, x) {}
    forall x | PrioPeer(db, k, priority, x) ensures db.jobs[x].prioSeq.value in seqs {}
    if seqs != {} {
      var m := Least(seqs).value;
      var x :| PrioPeer(db, k, priority, x) && db.jobs[x].prioSeq.value == m;
      assert PrioPeer(db', k, priority, x);
    }
  }

  // ---------------------------------------------------------------- retry and release

  /** A retried row: one more attempt made, no lease, and a place in its priority or its list. */
  ghost predicate RetriedAs(db: Db, db': Db, k: Key, lifo: bool)
    requires k in db.jobs && k in db'.jobs
  {
    var q, q', j, j' := QueueOf(db, k.queue), QueueOf(db', k.queue), db.jobs[k], db'.jobs[k];
    && j' == j.(state := j'.state, waitSeq := j'.waitSeq, prioSeq := j'.prioSeq, attemptsMade := j.attemptsMade + 1,
                lockToken := None, lockExpires := None)
    && if j.priority > 0 then
         j'.state == Prioritized && j'.waitSeq.None?
         && if lifo then TopOfPriority(db', k) && q' == q else j'.prioSeq == Some(q.prioNum + 1) && TookPrio(q, q')
       else
         j'.state == (if q.paused then Paused else Wait) && j'.prioSeq.None?
         && if lifo then TopOfList(db', k, {Wait}, 0) && q' == q
            else j'.waitSeq == Some(q.waitNum + 1) && TookWait(q, q')
  }

  lemma RetryRowWrites(db: Db, k: Key, lifo: bool)
    requires k in db.jobs && db.jobs[k].state == Active
    ensures OnlyRow(db, RetryRow(db, k, lifo), k) && RetriedAs(db, RetryRow(db, k, lifo), k, lifo)
  {
    hide PrioHead, Least, WaitSeqs, TopOfPriority, TopOfList;
    var db' := RetryRow(db, k, lifo);
    if lifo {
      if db.jobs[k].priority > 0 { PrioHeadIsTop(db, db', k, db.jobs[k].priority); }
      else { LeastIsTop(db, db', k, {Wait}, None, 0); }
    }
  }

  /** A retry of a job held under the token first promotes the due rows of the queue and then puts the job
      back: to the tail or, LIFO, to the top of its priority or of the wait list. */
  lemma RetryWrites(db: Db, k: Key, t: Token, lifo: bool)
    requires k in db.jobs && db.jobs[k].state == Active && db.jobs[k].lockToken == Some(t)
    ensures var db1, db' := PromoteDue(db, k.queue), Step(db, OpRetry(k, t, lifo));
      && k in db1.jobs && db1.jobs[k] == db.jobs[k]
      && OnlyRow(db1, db', k) && RetriedAs(db1, db', k, lifo)
  {
    hide PromoteDue, RetryRow, OnlyRow, RetriedAs;
    PromotesInDueOrder(db, k.queue, k, k);
    RetryRowWrites(PromoteDue(db, k.queue), k, lifo);
  }

  /** A released row: no lease, the attempts as they were, and the top of the list that suits it. */
  ghost predicate ReleasedAs(db: Db, db': Db, k: Key)
    requires k in db.jobs && k in db'.jobs
  {
    var q, j, j' := QueueOf(db, k.queue), db.jobs[k], db'.jobs[k];
    && j' == j.(state := j'.state, waitSeq := j'.waitSeq, prioSeq := j'.prioSeq, lockToken := None, lockExpires := None)
    && if q.paused then j'.state == Paused && j'.prioSeq == j.prioSeq && TopOfList(db', k, {Paused}, q.waitNum + 1)
       else if j.priority > 0 then j'.state == Prioritized && j'.waitSeq.None? && TopOfPriority(db', k)
       else j'.state == Wait && j'.prioSeq == j.prioSeq && TopOfList(db', k, {Wait}, q.waitNum + 1)
  }

  lemma HeadOfListWrites(db: Db, k: Key, j: Job, state: JobState)
    requires k in db.jobs && db.jobs[k].state == Active && state != Active
    ensures var db' := HeadOfList(db, k, j, state);
      && OnlyRow(db, db', k) && db'.jobs[k] == j.(state := state, waitSeq := db'.jobs[k].waitSeq)
      && TopOfList(db', k, {state}, QueueOf(db, k.queue).waitNum + 1)
  {
    hide Least, WaitSeqs, TopOfList;
    LeastIsTop(db, HeadOfList(db, k, j, state), k, {state}, None, QueueOf(db, k.queue).waitNum + 1);
  }

  /** A release of a job held under the token puts it first in the paused list, in its priority or in the
      wait list, and counts no attempt. */
  lemma ReleaseWrites(db: Db, k: Key, t: Token)
    requires k in db.jobs && db.jobs[k].state == Active && db.jobs[k].lockToken == Some(t)
    ensures OnlyRow(db, Step(db, OpRelease(k, t)), k) && ReleasedAs(db, Step(db, OpRelease(k, t)), k)
  {
    hide HeadOfList, PrioHead, TopOfPriority, TopOfList;
    var j, db' := Unlocked(db.jobs[k]), Step(db, OpRelease(k, t));
    HeadOfListWrites(db, k, j, Paused);
    HeadOfListWrites(db, k, j, Wait);
    if !QueueOf(db, k.queue).paused && j.priority > 0 { PrioHeadIsTop(db, db', k, j.priority); }
  }

  // ---------------------------------------------------------------- priorities and promotion

  /** A row whose priority changes: it moves between its list and its priority, to the tail or the top, if
      it stands in one; otherwise only the number changes. */
  ghost predicate ReprioritizedAs(db: Db, db': Db, k: Key, priority: int, toHead: bool)
    requires k in db.jobs && k in db'.jobs
  {
    var q, q', j, j' := QueueOf(db, k.queue), QueueOf(db', k.queue), db.jobs[k], db'.jobs[k];
    if j.state != Wait && j.state != Paused && j.state != Prioritized then j' == j.(priority := priority) && q' == q
    else if priority > 0 then
      && j' == j.(priority := priority, state := Prioritized, waitSeq := None, prioSeq := j'.prioSeq)
      && if toHead then TopOfPriority(db', k) && q' == q else j'.prioSeq == Some(q.prioNum + 1) && TookPrio(q, q')
    else
      && j' == j.(priority := 0, state := if q.paused then Paused else Wait, waitSeq := j'.waitSeq, prioSeq := None)
      && if toHead then TopOfList(db', k, {Wait, Paused}, q.waitNum + 1)
         else j'.waitSeq == Some(q.waitNum + 1) && TookWait(q, q')
  }

  lemma ChangePriorityWrites(db: Db, k: Key, priority: int, toHead: bool)
    requires k in db.jobs
    ensures var db' := Step(db, OpChangePriority(k, priority, toHead));
      OnlyRow(db, db', k) && ReprioritizedAs(db, db', k, priority, toHead)
  {
    hide Step, OnlyRow, ReprioritizedAs;
    assert Step(db, OpChangePriority(k, priority, toHead)) == ChangePriority(db, k, priority, toHead).0 by {
      hide ChangePriority;
      StepChanges(db, k, priority, toHead);
    }
    ChangeOnlyRow(db, k, priority, toHead);
    ChangeWrites(db, k, priority, toHead);
  }

  lemma StepChanges(db: Db, k: Key, priority: int, toHead: bool)
    ensures Step(db, OpChangePriority(k, priority, toHead)) == ChangePriority(db, k, priority, toHead).0
  {
    hide ChangePriority;
  }

  lemma ChangeOnlyRow(db: Db, k: Key, priority: int, toHead: bool)
    requires k in db.jobs
    ensures OnlyRow(db, ChangePriority(db, k, priority, toHead).0, k)
  {
    hide PrioHead, Least, WaitSeqs;
  }

  lemma ChangeWrites(db: Db, k: Key, priority: int, toHead: bool)
    requires k in db.jobs
    ensures ReprioritizedAs(db, ChangePriority(db, k, priority, toHead).0, k, priority, toHead)
  {
    hide PrioHead, Least, WaitSeqs, TopOfPriority, TopOfList;
    var j, db' := db.jobs[k], ChangePriority(db, k, priority, toHead).0;
    if toHead && (Queued(j) || j.state == Prioritized) {
      if priority > 0 { PrioHeadIsTop(db, db', k, priority); }
      else { LeastIsTop(db, db', k, {Wait, Paused}, Some(k), QueueOf(db, k.queue).waitNum + 1); }
    }
  }

  /** A promotion by hand forgets the due time and takes the next number of the list or the priority; on
      any other row than a delayed one it does nothing. */
  lemma PromoteWrites(db: Db, k: Key)
    requires k in db.jobs
    ensures var db' := Step(db, OpPromote(k)); var q, q', j := QueueOf(db, k.queue), QueueOf(db', k.queue), db.jobs[k];
      && OnlyRow(db, db', k)
      && if j.state != Delayed then db' == db
         else if j.priority > 0 then
           TookPrio(q, q') && db'.jobs[k] == j.(processAt := None, prioSeq := Some(q.prioNum + 1),
                                                state := if q.paused then Paused else Prioritized)
         else
           TookWait(q, q') && db'.jobs[k] == j.(processAt := None, waitSeq := Some(q.waitNum + 1),
                                                state := if q.paused then Paused else Wait)
  {}

  // ---------------------------------------------------------------- children and parents

  /** A finished job put back to work: tail of its list, no finish time, its counters reset on demand, and
      every edge that leads to it pending again; one that has not ended as asked for stays. */
  lemma ReprocessWrites(db: Db, k: Key, made: bool, started: bool, target: Option<bool>)
    requires k in db.jobs
    ensures var db' := Step(db, OpReprocess(k, made, started, target)); var q, j := QueueOf(db, k.queue), db.jobs[k];
      if !(j.state == Completed || j.state == Failed) || target == Some(j.state == Failed) || j.lockToken.Some?
      then db' == db
      else
        && k in db'.jobs && OnlyRow(db, db'.(edges := db.edges), k) && TookWait(q, QueueOf(db', k.queue))
        && db'.jobs[k] == j.(state := if q.paused then Paused else Wait, waitSeq := Some(q.waitNum + 1),
             finishedOn := None, lockExpires := None,
             attemptsMade := if made then 0 else j.attemptsMade,
             attemptsStarted := if started then 0 else j.attemptsStarted)
        && db'.edges.Keys == db.edges.Keys
        && forall i | i in db.edges ::
             var e := db.edges[i];
             db'.edges[i] == if e.linked && e.child == k then e.(status := Pending) else e
  {}

  /** Some edge of the parent is pending. */
  ghost predicate WaitsPending(db: Db, p: Key) {
    exists i :: i in db.edges && db.edges[i].parent == p && db.edges[i].status == Pending
  }

  /** Cutting a child loose removes exactly the edges between the two rows; a parked parent goes to the
      tail of its list if and only if none of the edges it has left is pending. */
  lemma CutWrites(db: Db, c: Key, p: Key)
    requires c in db.jobs && p in db.jobs && HasLink(db, p, c)
    ensures var db' := Step(db, OpCutEdge(c, p)); var q, j := QueueOf(db, p.queue), db.jobs[p];
      && p in db'.jobs && OnlyRow(db, db'.(edges := db.edges), p)
      && (forall i | i in db'.edges :: i in db.edges && db'.edges[i] == db.edges[i])
      && (forall i | i in db.edges ::
            i !in db'.edges <==> db.edges[i].parent == p && db.edges[i].linked && db.edges[i].child == c)
      && db'.jobs[p] ==
           if j.state == Parked && !WaitsPending(db', p)
           then j.(state := if q.paused then Paused else Wait, waitSeq := Some(q.waitNum + 1)) else j
  {
    LinkedHasLink(db, p, c);
  }

  // ---------------------------------------------------------------- leases and pauses

  /** A renewal sets the expiry of a live lease of the token, and nothing else; otherwise nothing. */
  lemma ExtendWrites(db: Db, k: Key, t: Token, ms: int)
    ensures var db' := Step(db, OpExtend(k, t, ms));
      if k in db.jobs && db.jobs[k].state == Active && db.jobs[k].lockToken == Some(t)
         && db.jobs[k].lockExpires.Some? && db.jobs[k].lockExpires.value > db.now
      then db' == db.(jobs := db.jobs[k := db.jobs[k].(lockExpires := Some(db.now + ms))])
      else db' == db
  {}

  /** A batch renewal sets the expiry of every active row of the queue whose token it carries for that job,
      expired or not, and leaves every other row alone. */
  lemma ExtendManyWrites(db: Db, q: QueueId, leases: seq<Lease>, ms: int, k: Key)
    requires k in db.jobs
    ensures var db' := Step(db, OpExtendMany(q, leases, ms)); var j := db.jobs[k];
      && db' == db.(jobs := db'.jobs) && db'.jobs.Keys == db.jobs.Keys
      && db'.jobs[k] ==
           if k.queue == q && j.state == Active && j.lockExpires.Some?
              && exists i :: 0 <= i < |leases| && leases[i].id == k.id && Some(leases[i].token) == j.lockToken
           then j.(lockExpires := Some(db.now + ms)) else j
  {
    var j := db.jobs[k];
    if j.lockToken.Some? {
      var l := Lease(k.id, j.lockToken.value);
      if i :| 0 <= i < |leases| && leases[i].id == k.id && Some(leases[i].token) == j.lockToken {
        assert leases[i] == l;
      }
      if l in leases { var i :| 0 <= i < |leases| && leases[i] == l; }
    }
  }

  /** Pausing sets the flag and moves every waiting row of the queue to the paused list under the sequence
      it had, resuming the other way; every other row stays. */
  lemma PauseWrites(db: Db, q: QueueId, paused: bool, k: Key)
    requires q in db.queues && k in db.jobs
    ensures var db' := Step(db, OpPause(q, paused)); var j := db.jobs[k];
      && db' == db.(jobs := db'.jobs, queues := db.queues[q := db.queues[q].(paused := paused)])
      && db'.jobs.Keys == db.jobs.Keys
      && db'.jobs[k] ==
           if k.queue == q && j.state == (if paused then Wait else Paused)
           then j.(state := if paused then Paused else Wait) else j
  {}

  /** Waiting for children gives up the lease and parks the job, and changes nothing else. */
  lemma ToChildrenWrites(db: Db, k: Key, t: Token, c: Option<Key>)
    ensures var db' := Step(db, OpToChildren(k, t, c));
      if ToChildren(db, k, t, c).1 == Ok
      then k in db.jobs && db' == db.(jobs := db.jobs[k :=
        db.jobs[k].(state := Parked, lockToken := None, lockExpires := None)])
      else db' == db
  {
    hide HasEdge, HasPendingChild;
  }

  /** The answers of the calls on jobs nobody holds. */
  lemma ManagingAnswers(db: Db, k: Key, p: Key, made: bool, started: bool, target: Option<bool>)
    ensures Promote(db, k).1 ==
      if k !in db.jobs then Missing else if db.jobs[k].state == Delayed then Ok else NotActive
    ensures Reprocess(db, k, made, started, target).1 ==
      if k !in db.jobs then Missing
      else if db.jobs[k].lockToken.None? && ((db.jobs[k].state == Completed && target != Some(false))
                                             || (db.jobs[k].state == Failed && target != Some(true)))
      then Ok else NotActive
    ensures CutEdge(db, k, p).1 ==
      if k !in db.jobs then ChildMissing else if p !in db.jobs then NoParent
      else if HasLink(db, p, k) then CutOk else NotRelated
    ensures CutEdge(db, k, p).1 != CutOk ==> Step(db, OpCutEdge(k, p)) == db
  {
    LinkedHasLink(db, p, k);
  }
}

/** The worker's queue of promises: a linked list that refines a sequence, results in the order
    they resolve, and the main loop's bound on what is pending or queued. */
module Fifo {
  import opened Rows

  class Node<T> {
    var value: T
    var next: Node?<T>

    constructor (value: T)
      ensures this.value == value && next == null
    {
      this.value, next := value, null;
    }
  }

  /** Singly linked; `tail` is left pointing at the last node taken once the list is empty. */
  class LinkedList<T> {
    var length: nat
    var head: Node?<T>
    var tail: Node?<T>
    ghost var nodes: seq<Node<T>>

    ghost function Repr(): set<object>
      reads this
    {
      {this} + (set n: object | n in nodes)
    }

    ghost predicate Valid()
      reads this, nodes
    {
      && length == |nodes|
      && (forall i, j | 0 <= i < j < |nodes| :: nodes[i] != nodes[j])
      && (forall i | 0 <= i < |nodes| - 1 :: nodes[i].next == nodes[i + 1])
      && (if nodes == [] then head == null
        else head == nodes[0] && tail == nodes[|nodes| - 1] && nodes[|nodes| - 1].next == null)
    }

    ghost function Contents(): (s: seq<T>)
      reads this, nodes
      ensures |s| == |nodes|
    {
      seq(|nodes|, i requires 0 <= i < |nodes| reads this, nodes => nodes[i].value)
    }

    constructor ()
      ensures Valid() && Contents() == [] && fresh(Repr())
    {
      length, head, tail, nodes := 0, null, null, [];
    }

    method Push(value: T)
      requires Valid()
      modifies Repr()
      ensures Valid() && fresh(Repr() - old(Repr()))
      ensures Contents() == old(Contents()) + [value]
    {
      var newNode := new Node(value);
      if length == 0 {
        head := newNode;
      } else if tail != null {
        tail.next := newNode;
      }
      tail := newNode;
      length := length + 1;
      nodes := nodes + [newNode];
    }

    method Shift() returns (value: Option<T>)
      requires Valid()
      modifies this
      ensures Valid() && Repr() <= old(Repr())
      ensures if old(Contents()) == [] then value == None && Contents() == []
              else value == Some(old(Contents())[0]) && Contents() == old(Contents())[1..]
    {
      if length == 0 {
        return None;
      }
      var first := head;
      head := first.next;
      length := length - 1;
      nodes := nodes[1..];
      return Some(first.value);
    }
  }

  /** Promises by number; a promise resolves with a result or with nothing. */
  class AsyncFifoQueue<T> {
    const ignoreErrors: bool
    var queue: LinkedList<Option<T>>
    var pending: set<nat>

    /** Everything that has arrived in the queue, and the part of it already taken out. */
    ghost var arrived: seq<Option<T>>
    ghost var taken: seq<Option<T>>

    ghost function Repr(): set<object>
      reads this, queue
    {
      {this} + queue.Repr()
    }

    ghost predicate Valid()
      reads this, queue, queue.nodes
    {
      queue.Valid() && arrived == taken + queue.Contents()
    }

    constructor (ignoreErrors: bool)
      ensures Valid() && fresh(Repr()) && pending == {} && arrived == [] && queue.Contents() == []
      ensures this.ignoreErrors == ignoreErrors
    {
      this.ignoreErrors := ignoreErrors;
      queue := new LinkedList();
      pending, arrived, taken := {}, [], [];
    }

    function NumTotal(): nat
      reads this, queue
    {
      |pending| + queue.length
    }

    method Add(promise: nat)
      requires Valid() && promise !in pending
      modifies this`pending
      ensures Valid() && pending == old(pending) + {promise}
      ensures NumTotal() == old(NumTotal()) + 1
    {
      pending := pending + {promise};
    }

    method Resolve(promise: nat, data: Option<T>)
      requires Valid() && promise in pending
      modifies Repr()
      ensures Valid() && queue == old(queue) && fresh(Repr() - old(Repr()))
      ensures pending == old(pending) - {promise} && NumTotal() == old(NumTotal())
      ensures arrived == old(arrived) + [data] && taken == old(taken)
    {
      pending := pending - {promise};
      queue.Push(data);
      arrived := arrived + [data];
    }

    method Reject(promise: nat)
      requires Valid() && promise in pending
      modifies Repr()
      ensures Valid() && queue == old(queue) && fresh(Repr() - old(Repr()))
      ensures pending == old(pending) - {promise} && NumTotal() <= old(NumTotal())
      ensures arrived == (if ignoreErrors then old(arrived) + [None] else old(arrived)) && taken == old(taken)
    {
      if ignoreErrors {
        queue.Push(None);
        arrived := arrived + [None];
      }
      pending := pending - {promise};
    }

    /** Takes the result that arrived first of those still there. */
    method Shift() returns (value: Option<T>)
      requires Valid() && queue.length > 0
      modifies this, queue
      ensures Valid() && queue == old(queue) && Repr() <= old(Repr())
      ensures arrived == old(arrived) && |old(taken)| < |arrived| && value == arrived[|old(taken)|]
      ensures taken == old(taken) + [value]
      ensures pending == old(pending) && NumTotal() == old(NumTotal()) - 1 && queue.length == old(queue.length) - 1
    {
      var first := queue.Shift();
      value := first.value;
      taken := taken + [value];
    }
  }

  // ---------------------------------------------------------------- the main loop

  datatype Event<T> = Resolves(promise: nat, data: Option<T>) | Rejects(promise: nat) | Elapses

  /** What happens next at an `await`, and whether the worker may fetch more afterwards or leaves
      the fetching loop: closing, pause, rate limit and block are seen only through these. `waiting`
      says that the worker, asked for its next job at this moment, waits for one to arrive. */
  datatype Signal<T> = Signal(event: Event<T>, mayFetch: bool, leave: bool, waiting: bool)

  class Worker<T> {
    const concurrency: nat
    const fifo: AsyncFifoQueue<T>
    var nextPromise: nat

    ghost function Repr(): set<object>
      reads this, fifo, fifo.queue
    {
      {this} + fifo.Repr()
    }

    ghost predicate Valid()
      reads this, fifo, fifo.queue, fifo.queue.nodes
    {
      this !in fifo.Repr() && fifo.Valid() && fifo.NumTotal() <= concurrency && forall p | p in fifo.pending ::
        p < nextPromise
    }

    constructor (concurrency: nat)
      ensures Valid() && fresh(Repr()) && this.concurrency == concurrency
    {
      this.concurrency := concurrency;
      fifo := new AsyncFifoQueue(false);
      nextPromise := 0;
    }

    /** One settlement of a promise; one that is not pending has no effect. */
    method Settle(e: Event<T>)
      requires Valid()
      modifies fifo.Repr()
      ensures Valid() && fresh(Repr() - old(Repr())) && fifo.NumTotal() <= old(fifo.NumTotal())
      ensures nextPromise == old(nextPromise)
    {
      match e {
        case Resolves(p, data) => if p in fifo.pending { fifo.Resolve(p, data); }
        case Rejects(p) => if p in fifo.pending { fifo.Reject(p); }
        case Elapses =>
      }
    }

    /** A new promise, for a fetch or for processing a job. */
    method Start() returns (promise: nat)
      requires Valid() && fifo.NumTotal() < concurrency
      modifies this`nextPromise, fifo`pending
      ensures Valid() && promise in fifo.pending && fifo.NumTotal() == old(fifo.NumTotal()) + 1
      ensures nextPromise == old(nextPromise) + 1
      ensures Repr() == old(Repr())
    {
      promise := nextPromise;
      nextPromise := nextPromise + 1;
      fifo.Add(promise);
    }

    /** `await` of one promise: signals are consumed until it settles or there are no more. */
    method Await(signals: seq<Signal<T>>, from: nat, promise: nat, mayFetch: bool)
      returns (i: nat, may: bool, leave: bool)
      requires Valid() && from <= |signals|
      modifies fifo.Repr()
      ensures Valid() && fresh(Repr() - old(Repr())) && from <= i <= |signals|
      ensures fifo.NumTotal() <= old(fifo.NumTotal())
      ensures promise in old(fifo.pending) && from < |signals| ==> from < i
    {
      i, may, leave := from, mayFetch, false;
      while i < |signals| && promise in fifo.pending
        invariant from <= i <= |signals| && Valid() && fresh(Repr() - old(Repr()))
        invariant fifo.NumTotal() <= old(fifo.NumTotal())
        invariant promise in old(fifo.pending) && i == from ==> promise in fifo.pending
        decreases |signals| - i
      {
        Settle(signals[i].event);
        may, leave := signals[i].mayFetch, signals[i].leave;
        i := i + 1;
      }
    }

    /** The inner loop: fetches are started one after the other while there is room, at least one
        whenever the worker may fetch. A fetch that waits for jobs to arrive is left pending when there
        is something else to process. */
    method FetchMore(signals: seq<Signal<T>>, from: nat, mayFetch: bool) returns (i: nat, may: bool, peak: nat)
      requires Valid() && from <= |signals|
      modifies Repr()
      ensures Valid() && fresh(Repr() - old(Repr())) && from <= i <= |signals| && peak <= concurrency
      ensures from == i ==> fifo.queue.length == old(fifo.queue.length)
      ensures nextPromise >= old(nextPromise)
      ensures from < |signals| && mayFetch && old(fifo.NumTotal()) < concurrency ==> nextPromise > old(nextPromise)
    {
      i, may, peak := from, mayFetch, fifo.NumTotal();
      var leave := false;
      while i < |signals| && may && !leave && fifo.NumTotal() < concurrency
        invariant from <= i <= |signals| && Valid() && peak <= concurrency && fresh(Repr() - old(Repr()))
        invariant from == i ==> fifo.queue.length == old(fifo.queue.length)
        invariant if nextPromise == old(nextPromise) then
                    i == from && may == mayFetch && !leave && fifo.NumTotal() == old(fifo.NumTotal())
                  else nextPromise > old(nextPromise)
        decreases |signals| - i, !leave
      {
        var fetched := Start();
        if peak < fifo.NumTotal() { peak := fifo.NumTotal(); }
        if signals[i].waiting && fifo.NumTotal() > 1 {
          may, leave := false, true;
        } else {
          i, may, leave := Await(signals, i, fetched, may);
        }
      }
    }

    /** The wait inside `fetch`: until something is queued, nothing is pending, or no signal is left. */
    method AwaitAny(signals: seq<Signal<T>>, from: nat, mayFetch: bool) returns (i: nat, may: bool)
      requires Valid() && from <= |signals|
      modifies fifo.Repr()
      ensures Valid() && fresh(Repr() - old(Repr())) && from <= i <= |signals|
      ensures from == i ==> fifo.queue.length == old(fifo.queue.length)
      ensures may == if from < i then signals[i - 1].mayFetch else mayFetch
    {
      i, may := from, mayFetch;
      while fifo.queue.length == 0 && fifo.pending != {} && i < |signals|
        invariant from <= i <= |signals| && Valid() && fresh(Repr() - old(Repr()))
        invariant from == i ==> fifo.queue.length == old(fifo.queue.length)
        invariant may == if from < i then signals[i - 1].mayFetch else mayFetch
        decreases |signals| - i
      {
        Settle(signals[i].event);
        may := signals[i].mayFetch;
        i := i + 1;
      }
    }

    /** Takes the first result, if there is one. */
    method TakeOne() returns (job: Option<T>)
      requires Valid()
      modifies fifo, fifo.queue
      ensures Valid() && Repr() <= old(Repr()) && fifo.queue == old(fifo.queue)
      ensures job.Some? ==> fifo.NumTotal() < concurrency && fifo.queue.length < old(fifo.queue.length)
      ensures if old(fifo.queue.length) == 0 then fifo.queue.length == 0
        else fifo.queue.length == old(fifo.queue.length) - 1
    {
      job := None;
      if fifo.queue.length > 0 {
        job := fifo.Shift();
      }
    }

    /** Results that are no job are passed over; while some are queued, `fetch` does not wait. */
    method TakeJob() returns (job: Option<T>)
      requires Valid()
      modifies fifo, fifo.queue
      ensures Valid() && Repr() <= old(Repr()) && fifo.queue == old(fifo.queue)
      ensures job.Some? ==> fifo.NumTotal() < concurrency && fifo.queue.length < old(fifo.queue.length)
      ensures fifo.queue.length <= old(fifo.queue.length) && (job.None? ==> fifo.queue.length == 0)
    {
      job := TakeOne();
      while job.None? && fifo.queue.length > 0
        invariant Valid() && Repr() <= old(Repr()) && fifo.queue == old(fifo.queue)
        invariant job.Some? ==> fifo.NumTotal() < concurrency && fifo.queue.length < old(fifo.queue.length)
        invariant fifo.queue.length <= old(fifo.queue.length)
        decreases fifo.queue.length
      {
        job := TakeOne();
      }
    }

    /** What follows a fetch: a job found is processed, which is one more promise. */
    method Process() returns (found: bool)
      requires Valid()
      modifies Repr()
      ensures Valid() && Repr() <= old(Repr())
      ensures found ==> fifo.queue.length < old(fifo.queue.length)
      ensures nextPromise >= old(nextPromise)
    {
      var job := TakeJob();
      found := job.Some?;
      if found {
        var processing := Start();
      }
    }

    /** One turn of the main loop: fetch more, wait for a result, process it or wait again. Every signal
        says anew whether the worker may fetch, so fetching resumes with the next turn. */
    method Turn(signals: seq<Signal<T>>, from: nat, mayFetch: bool) returns (i: nat, may: bool, peak: nat)
      requires Valid() && from < |signals|
      modifies Repr()
      ensures Valid() && fresh(Repr() - old(Repr())) && from <= i <= |signals|
      ensures fifo.NumTotal() <= peak <= concurrency
      ensures from < i || fifo.queue.length < old(fifo.queue.length)
      ensures mayFetch && old(fifo.NumTotal()) < concurrency ==> nextPromise > old(nextPromise)
    {
      i, may, peak := FetchMore(signals, from, mayFetch);
      i, may := AwaitAny(signals, i, may);
      var found := Process();
      if peak < fifo.NumTotal() { peak := fifo.NumTotal(); }
      if !found && i < |signals| {
        may := signals[i].mayFetch;
        i := i + 1;
      }
    }

    /** The main loop driven by a script of signals; `peak` is the largest number of promises
        pending and results queued at any time. */
    method MainLoop(signals: seq<Signal<T>>) returns (peak: nat)
      requires Valid()
      modifies Repr()
      ensures Valid() && old(fifo.NumTotal()) <= peak <= concurrency && fifo.NumTotal() <= peak
    {
      peak := fifo.NumTotal();
      var i, mayFetch := 0, true;
      while i < |signals|
        invariant i <= |signals| && Valid() && peak <= concurrency && fresh(Repr() - old(Repr()))
        invariant old(fifo.NumTotal()) <= peak && fifo.NumTotal() <= peak
        decreases |signals| - i, fifo.queue.length
      {
        var most;
        i, mayFetch, most := Turn(signals, i, mayFetch);
        if peak < most { peak := most; }
      }
    }
  }
}

/**
 * The worker pool of new/util/worker-pool/worker_pool.go: a bounded task
 * queue served by a fixed number of workers, and a monitor that signals
 * the channel obtained from Done once the queue has drained.
 *
 * The goroutines become events, each a method: a pending AddTask send
 * reaching the queue (Enqueue), a worker taking a task (WorkerTakes) and a
 * worker reporting a finished task to the monitor (WorkerDone). Channel
 * sends the pool makes are recorded in `signals`.
 */
module WorkerPool {
  import opened Wrappers

  const BoundsError: string := "max concurrent and max waiter can not less than 1"

  /** A signal the pool sends: a worker's stop, the monitor's stop, or "finished" on a Done channel. */
  datatype Signal = StopWorker(worker: nat) | StopMonitor | Finished(chan: nat)

  /** NewWorkerPool's check: the error it returns, if any. */
  function NewPoolError(maxCon: int, maxWaiter: int): (r: Option<string>)
    ensures r.None? <==> maxCon >= 1 && maxWaiter >= 1
    ensures r.Some? ==> r.value == BoundsError
  {
    if maxCon < 1 || maxWaiter < 1 then Some(BoundsError) else None
  }

  /** The worker ids Start creates: 1, 2, ..., n. */
  function WorkerIds(n: nat): (ids: seq<nat>)
    ensures |ids| == n
    ensures forall k :: 0 <= k < n ==> ids[k] == k + 1
  {
    if n == 0 then [] else WorkerIds(n - 1) + [n]
  }

  /** The stop signals Stop sends, one per listed worker, in list order. */
  function StopSignals(ws: seq<nat>): (s: seq<Signal>)
    ensures |s| == |ws|
    ensures forall k :: 0 <= k < |ws| ==> s[k] == StopWorker(ws[k])
  {
    if ws == [] then [] else StopSignals(ws[..|ws| - 1]) + [StopWorker(ws[|ws| - 1])]
  }

  class Pool<Task> {
    const maxConcurrent: nat
    /** The capacity of poolChan (maxWaiter). */
    const capacity: nat
    var workers: seq<nat>
    /** Tasks in poolChan, oldest first. */
    var queue: seq<Task>
    /** Tasks whose AddTask goroutine has not yet put them on poolChan. */
    var sending: seq<Task>
    /** Tasks taken by a worker whose completion the monitor has not seen. */
    var inFlight: nat
    var finishedChan: Option<nat>
    var nextChan: nat
    var isCleared: bool
    var monitorRunning: bool
    var signals: seq<Signal>
    /** "Finished" signals sent since the last AddTask. */
    ghost var firesSinceAdd: nat

    ghost predicate Valid()
      reads this
    {
      && |queue| <= capacity
      && firesSinceAdd == (if isCleared then 1 else 0)
      && (finishedChan.Some? ==> finishedChan.value < nextChan)
      && (forall k :: 0 <= k < |signals| && signals[k].Finished? ==> signals[k].chan < nextChan)
    }

    /** NewWorkerPool with bounds that pass its check. */
    constructor (maxCon: int, maxWaiter: int)
      requires NewPoolError(maxCon, maxWaiter) == None
      ensures maxConcurrent == maxCon && capacity == maxWaiter
      ensures workers == [] && queue == [] && sending == [] && inFlight == 0
      ensures !isCleared && finishedChan == None && !monitorRunning && signals == []
      ensures Valid()
    {
      maxConcurrent := maxCon;
      capacity := maxWaiter;
      workers := [];
      queue := [];
      sending := [];
      inFlight := 0;
      finishedChan := None;
      nextChan := 0;
      isCleared := false;
      monitorRunning := false;
      signals := [];
      firesSinceAdd := 0;
    }

    /** Start: workers 1..maxConcurrent are appended and the monitor starts. */
    method Start()
      requires Valid()
      modifies this`workers, this`monitorRunning
      ensures Valid()
      ensures workers == old(workers) + WorkerIds(maxConcurrent)
      ensures monitorRunning
    {
      var i := 1;
      while i <= maxConcurrent
        invariant 1 <= i <= maxConcurrent + 1
        invariant workers == old(workers) + WorkerIds(i - 1)
      {
        workers := workers + [i];
        i := i + 1;
      }
      monitorRunning := true;
    }

    /**
     * Stop: every listed worker is told to stop, the list is emptied and
     * the monitor is told to stop. Without a running monitor the last send
     * has no receiver and Stop blocks (`blocked`).
     */
    method Stop() returns (blocked: bool)
      requires Valid()
      modifies this`workers, this`signals, this`monitorRunning
      ensures Valid()
      ensures workers == []
      ensures blocked <==> !old(monitorRunning)
      ensures signals == old(signals) + StopSignals(old(workers)) + (if blocked then [] else [StopMonitor])
      ensures !monitorRunning
    {
      var i := 0;
      while i < |workers|
        invariant 0 <= i <= |workers|
        invariant workers == old(workers) && monitorRunning == old(monitorRunning)
        invariant signals == old(signals) + StopSignals(workers[..i])
      {
        assert workers[..i + 1][..i] == workers[..i];
        signals := signals + [StopWorker(workers[i])];
        i := i + 1;
      }
      assert workers[..i] == workers;
      workers := [];
      blocked := !monitorRunning;
      if !blocked {
        signals := signals + [StopMonitor];
        monitorRunning := false;
      }
    }

    /** AddTask: clears isCleared and hands the task to a goroutine that sends it to the queue. */
    method AddTask(task: Task)
      requires Valid()
      modifies this`isCleared, this`sending, this`firesSinceAdd
      ensures Valid()
      ensures !isCleared && firesSinceAdd == 0
      ensures sending == old(sending) + [task]
    {
      isCleared := false;
      firesSinceAdd := 0;
      sending := sending + [task];
    }

    /** Done: a fresh channel becomes the finished channel and is returned. */
    method Done() returns (fc: nat)
      requires Valid()
      modifies this`finishedChan, this`nextChan
      ensures Valid()
      ensures fc == old(nextChan) && finishedChan == Some(fc)
      ensures forall k :: 0 <= k < |signals| && signals[k].Finished? ==> signals[k].chan != fc
      ensures nextChan == old(nextChan) + 1
    {
      fc := nextChan;
      finishedChan := Some(fc);
      nextChan := nextChan + 1;
    }

    /** An AddTask goroutine's send completes when the queue has room; a full queue leaves it waiting. */
    method Enqueue()
      requires Valid()
      modifies this`queue, this`sending
      ensures Valid()
      ensures old(sending) != [] && |old(queue)| < capacity ==>
                queue == old(queue) + [old(sending)[0]] && sending == old(sending)[1..]
      ensures old(sending) == [] || |old(queue)| >= capacity ==>
                queue == old(queue) && sending == old(sending)
    {
      if sending != [] && |queue| < capacity {
        queue := queue + [sending[0]];
        sending := sending[1..];
      }
    }

    /** A worker receives the oldest queued task, if there is one. */
    method WorkerTakes() returns (task: Option<Task>)
      requires Valid()
      modifies this`queue, this`inFlight
      ensures Valid()
      ensures old(queue) != [] ==>
                task == Some(old(queue)[0]) && queue == old(queue)[1..] && inFlight == old(inFlight) + 1
      ensures old(queue) == [] ==> task == None && queue == [] && inFlight == old(inFlight)
    {
      if queue != [] {
        task := Some(queue[0]);
        queue := queue[1..];
        inFlight := inFlight + 1;
      } else {
        task := None;
      }
    }

    /**
     * The monitor receives a worker's "task done": when the queue is empty
     * and a Done channel exists, it signals that channel, but only if
     * isCleared was not already set since the last AddTask.
     */
    method WorkerDone()
      requires Valid() && inFlight > 0 && monitorRunning
      modifies this`inFlight, this`isCleared, this`signals, this`firesSinceAdd
      ensures Valid()
      ensures inFlight == old(inFlight) - 1
      ensures var fires := queue == [] && finishedChan.Some? && !old(isCleared);
              && signals == old(signals) + (if fires then [Finished(finishedChan.value)] else [])
              && isCleared == (old(isCleared) || fires)
    {
      inFlight := inFlight - 1;
      var remain := |queue|;
      if remain == 0 && finishedChan.Some? {
        if !isCleared {
          isCleared := true;
          firesSinceAdd := firesSinceAdd + 1;
          signals := signals + [Finished(finishedChan.value)];
        }
      }
    }
  }
}

/** The queue that fills missing nonces a hundred at a time.  A `batchProcess` runs up to its await and goes on when every
    fill of its batch has completed; tasks are added at any of those points. */
module NonceFiller {
  import opened Sequences

  const BATCH_SIZE: nat := 100

  datatype Task = Task(fromAddress: string, missingNonce: nat)

  /** live and batches are history: the calls of `batchProcess` that have not returned, and the batches they started. */
  datatype Queue = Queue(tasks: seq<Task>, currentIndex: nat, isProcessing: bool, live: nat, batches: seq<seq<Task>>)

  datatype Event = Add(task: Task) | BatchComplete

  const EMPTY: Queue := Queue([], 0, false, 0, [])

  /** From the head of the loop to the next await, or to the end. */
  function LoopOn(q: Queue): (r: Queue)
  {
    if q.currentIndex < |q.tasks| then
      var next := Min(q.currentIndex + BATCH_SIZE, |q.tasks|);
      q.(currentIndex := next, batches := q.batches + [q.tasks[q.currentIndex..next]])
    else q.(isProcessing := false, live := if q.live > 0 then q.live - 1 else 0)
  }

  predicate Possible(q: Queue, e: Event) {
    e.BatchComplete? ==> q.live > 0
  }

  function After(q: Queue, e: Event): (r: Queue)
    requires Possible(q, e)
  {
    match e
    case Add(t) =>
      var r := q.(tasks := q.tasks + [t]);
      if q.isProcessing then r else LoopOn(r.(isProcessing := true, live := q.live + 1))
    case BatchComplete => LoopOn(q)
  }

  ghost predicate Runs(q: Queue, es: seq<Event>, r: Queue)
    decreases |es|
  {
    if es == [] then q == r else Possible(q, es[0]) && Runs(After(q, es[0]), es[1..], r)
  }

  /** At most one `batchProcess` is live, exactly while the flag is up; the batches are the started tasks, in order, each
      once; with the flag down nothing waits. */
  ghost predicate Orderly(q: Queue) {
    && q.live == (if q.isProcessing then 1 else 0)
    && q.currentIndex <= |q.tasks|
    && (!q.isProcessing ==> q.currentIndex == |q.tasks|)
    && Concat(q.batches) == q.tasks[..q.currentIndex]
    && forall i :: 0 <= i < |q.batches| ==> 1 <= |q.batches[i]| <= BATCH_SIZE
  }

  lemma LoopKeepsOrderly(q: Queue)
    requires Orderly(q.(isProcessing := true, live := 1)) && q.isProcessing && q.live == 1
    ensures Orderly(LoopOn(q))
  {
    if q.currentIndex < |q.tasks| {
      var next := LoopOn(q).currentIndex;
      ConcatSnoc(q.batches, q.tasks[q.currentIndex..next]);
      assert q.tasks[..q.currentIndex] + q.tasks[q.currentIndex..next] == q.tasks[..next];
    }
  }

  lemma StepKeepsOrderly(q: Queue, e: Event)
    requires Orderly(q) && Possible(q, e)
    ensures Orderly(After(q, e)) && q.batches <= After(q, e).batches
  {
    match e
    case Add(t) =>
      var r := q.(tasks := q.tasks + [t]);
      assert r.tasks[..q.currentIndex] == q.tasks[..q.currentIndex];
      if !q.isProcessing {
        LoopKeepsOrderly(r.(isProcessing := true, live := 1));
      }
    case BatchComplete => LoopKeepsOrderly(q);
  }

  function AddedBy(e: Event): (ts: seq<Task>)
  {
    if e.Add? then [e.task] else []
  }

  function Added(es: seq<Event>): (ts: seq<Task>)
  {
    if es == [] then [] else AddedBy(es[0]) + Added(es[1..])
  }

  lemma TasksAfter(q: Queue, e: Event, es: seq<Event>)
    requires Possible(q, e)
    ensures After(q, e).tasks + Added(es) == q.tasks + (AddedBy(e) + Added(es))
  {
    assert After(q, e).tasks == q.tasks + AddedBy(e);
  }

  /** Over any interleaving of additions: one live `batchProcess` at most, every task started at most once and in the order of
      the additions, in batches of at most a hundred, and none left behind when the flag is down. */
  lemma {:induction false} EveryRunOrderly(q: Queue, es: seq<Event>, r: Queue)
    requires Orderly(q) && Runs(q, es, r)
    ensures Orderly(r) && r.tasks == q.tasks + Added(es) && q.batches <= r.batches
    decreases |es|
  {
    if es != [] {
      StepKeepsOrderly(q, es[0]);
      TasksAfter(q, es[0], es[1..]);
      EveryRunOrderly(After(q, es[0]), es[1..], r);
    }
  }

  /** With the flag down, all that was ever added has been started. */
  lemma IdleMeansDone(es: seq<Event>, r: Queue)
    requires Runs(EMPTY, es, r) && !r.isProcessing
    ensures Concat(r.batches) == Added(es) && r.live == 0
  {
    EveryRunOrderly(EMPTY, es, r);
    assert r.tasks[..r.currentIndex] == r.tasks;
  }

  /** A task added while nothing is processed is started at once, by itself. */
  lemma AddStartsAtOnce(q: Queue, t: Task)
    requires Orderly(q) && !q.isProcessing
    ensures After(q, Add(t)) == q.(tasks := q.tasks + [t], currentIndex := |q.tasks| + 1, isProcessing := true, live := 1,
                                   batches := q.batches + [[t]])
  {
    assert (q.tasks + [t])[|q.tasks|..|q.tasks| + 1] == [t];
  }

  function Rounds(n: nat): (k: nat)
  {
    (n + BATCH_SIZE - 1) / BATCH_SIZE
  }

  function Completions(k: nat): (es: seq<Event>)
    ensures |es| == k && forall i :: 0 <= i < k ==> es[i] == BatchComplete
  {
    seq(k, i => BatchComplete)
  }

  /** Nothing is left waiting for ever: without additions, one completion for every hundred tasks left and one more take the
      flag down with everything started. */
  lemma {:induction false} Drains(q: Queue) returns (r: Queue)
    requires Orderly(q) && q.isProcessing
    ensures Runs(q, Completions(Rounds(|q.tasks| - q.currentIndex) + 1), r)
    ensures !r.isProcessing && r.tasks == q.tasks && Concat(r.batches) == q.tasks
    decreases |q.tasks| - q.currentIndex
  {
    var n := Rounds(|q.tasks| - q.currentIndex);
    var es := Completions(n + 1);
    assert es[0] == BatchComplete && es[1..] == Completions(n);
    var next := After(q, BatchComplete);
    StepKeepsOrderly(q, BatchComplete);
    if q.currentIndex < |q.tasks| {
      assert Rounds(|next.tasks| - next.currentIndex) + 1 == n;
      r := Drains(next);
    } else {
      r := next;
      assert Runs(next, Completions(0), next);
      assert r.tasks[..r.currentIndex] == r.tasks;
    }
  }

  // ------------------------------------------------------------------ the running object

  class FillUpMissingNonceRange {
    var allPendingTasks: seq<Task>
    var currentIndex: nat
    var isProccessing: bool
    var live: nat
    var batches: seq<seq<Task>>

    function View(): (q: Queue)
      reads this
    {
      Queue(allPendingTasks, currentIndex, isProccessing, live, batches)
    }

    constructor ()
      ensures View() == EMPTY
    {
      allPendingTasks, currentIndex, isProccessing, live, batches := [], 0, false, 0, [];
    }

    method AddToBatchProcess(task: Task)
      modifies this
      ensures View() == After(old(View()), Add(task))
    {
      allPendingTasks := allPendingTasks + [task];
      if !isProccessing {
        isProccessing := true;
        live := live + 1;
        BatchProcess();
      }
    }

    /** All fills of the batch have completed: the await is over. */
    method BatchCompleted()
      requires Possible(View(), BatchComplete)
      modifies this
      ensures View() == After(old(View()), BatchComplete)
    {
      BatchProcess();
    }

    /** The loop of `batchProcess` up to its await, or past its end. */
    method BatchProcess()
      requires live > 0
      modifies this
      ensures View() == LoopOn(old(View()))
    {
      if currentIndex < |allPendingTasks| {
        var allPromises: seq<Task> := [];
        var count := 0;
        while count < BATCH_SIZE && currentIndex < |allPendingTasks|
          invariant 0 <= count <= BATCH_SIZE && currentIndex == old(currentIndex) + count <= |allPendingTasks|
          invariant allPromises == allPendingTasks[old(currentIndex)..currentIndex]
          invariant allPendingTasks == old(allPendingTasks) && isProccessing == old(isProccessing) && live == old(live)
          invariant batches == old(batches)
        {
          allPromises := allPromises + [allPendingTasks[currentIndex]];
          currentIndex := currentIndex + 1;
          count := count + 1;
        }
        batches := batches + [allPromises];
      } else {
        isProccessing := false;
        live := live - 1;
      }
    }
  }
}

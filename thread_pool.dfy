// The work-stealing pool of src/common/thread_pool.cpp as a
// single-threaded state machine over its queues and counters, and the
// chunking of parallel_for_impl. The global singleton becomes an explicit
// ThreadPool object; interleavings of the workers become an arbitrary
// choice of which worker takes the next step.
module Pool {
  import opened Arith
  import opened ChunkLoop

  /** A queued std::function<void()>. Every task the pool is given is the
      closure of parallel_for_impl over one chunk; `NoTask` is an empty
      std::function. */
  datatype Task = NoTask | Chunk(lo: nat, hi: nat)

  function Min(a: nat, b: nat): nat { if a <= b then a else b }
  function Max(a: nat, b: nat): nat { if a >= b then a else b }

  /** The indices a task's chunk visits. */
  function TaskRange(t: Task): seq<nat> {
    match t
    case NoTask => []
    case Chunk(lo, hi) => Range(lo, hi)
  }

  /** The indices a sequence of tasks visits, task after task. */
  function ConcatRanges(ts: seq<Task>): seq<nat> {
    if ts == [] then [] else TaskRange(ts[0]) + ConcatRanges(ts[1..])
  }

  lemma {:induction false} ConcatRangesAppend(a: seq<Task>, b: seq<Task>)
    ensures ConcatRanges(a + b) == ConcatRanges(a) + ConcatRanges(b)
  {
    if a == [] {
      assert a + b == b;
    } else {
      assert (a + b)[1..] == a[1..] + b;
      ConcatRangesAppend(a[1..], b);
    }
  }

  /** The indices visited do not depend on the order the tasks run in:
      tasks that are a permutation of each other visit the same multiset. */
  lemma {:induction false} ConcatRangesPerm(a: seq<Task>, b: seq<Task>)
    requires multiset(a) == multiset(b)
    ensures multiset(ConcatRanges(a)) == multiset(ConcatRanges(b))
    decreases |a|
  {
    if a != [] {
      var t := a[0];
      assert t in multiset(b);
      var j :| 0 <= j < |b| && b[j] == t;
      var rest := b[..j] + b[j + 1..];
      RemoveAt(b, j);
      assert a == [t] + a[1..];
      assert multiset(a) == multiset(a[1..]) + multiset{t};
      MultisetCancel(multiset(a[1..]), multiset(rest), t);
      ConcatRangesPerm(a[1..], rest);
      ConcatRangesAt(b, j);
      var l, r := ConcatRanges(b[..j]), ConcatRanges(b[j + 1..]);
      assert multiset(ConcatRanges(a)) == multiset(TaskRange(t)) + multiset(ConcatRanges(a[1..]));
      assert multiset(ConcatRanges(rest)) == multiset(l) + multiset(r);
      assert multiset(ConcatRanges(b)) == multiset(l) + multiset(TaskRange(t)) + multiset(r);
    }
  }

  lemma MultisetCancel(x: multiset<Task>, y: multiset<Task>, t: Task)
    requires x + multiset{t} == y + multiset{t}
    ensures x == y
  {
    forall e ensures x[e] == y[e] {
      assert (x + multiset{t})[e] == (y + multiset{t})[e];
    }
  }

  /** Taking element j out of b leaves the rest of its multiset. */
  lemma RemoveAt(b: seq<Task>, j: nat)
    requires j < |b|
    ensures multiset(b[..j] + b[j + 1..]) + multiset{b[j]} == multiset(b)
  {
    SplitAt(b, j);
  }

  /** The indices of b split around its element j. */
  lemma ConcatRangesAt(b: seq<Task>, j: nat)
    requires j < |b|
    ensures ConcatRanges(b) == ConcatRanges(b[..j]) + TaskRange(b[j]) + ConcatRanges(b[j + 1..])
    ensures ConcatRanges(b[..j] + b[j + 1..]) == ConcatRanges(b[..j]) + ConcatRanges(b[j + 1..])
  {
    var pre, post := b[..j], b[j + 1..];
    SplitAt(b, j);
    ConcatRanges3(pre, [b[j]], post);
    ConcatRangesSingle(b[j]);
    ConcatRangesAppend(pre, post);
  }

  lemma SplitAt<T>(b: seq<T>, j: nat)
    requires j < |b|
    ensures b == b[..j] + [b[j]] + b[j + 1..]
  {
    assert b[j..] == [b[j]] + b[j + 1..];
    assert b == b[..j] + b[j..];
  }

  lemma ConcatRanges3(p: seq<Task>, m: seq<Task>, q: seq<Task>)
    ensures ConcatRanges(p + m + q) == ConcatRanges(p) + ConcatRanges(m) + ConcatRanges(q)
  {
    ConcatRangesAppend(p + m, q);
    ConcatRangesAppend(p, m);
  }

  /** All queued tasks, queue after queue. */
  function Flatten(qs: seq<seq<Task>>): seq<Task> {
    if qs == [] then [] else qs[0] + Flatten(qs[1..])
  }

  /** Replacing one queue changes the queued tasks by exactly that queue's difference. */
  lemma {:induction false} FlattenUpdate(qs: seq<seq<Task>>, i: nat, q: seq<Task>)
    requires i < |qs|
    ensures multiset(Flatten(qs[i := q])) + multiset(qs[i]) == multiset(Flatten(qs)) + multiset(q)
    ensures |Flatten(qs[i := q])| + |qs[i]| == |Flatten(qs)| + |q|
  {
    var qs' := qs[i := q];
    assert Flatten(qs) == qs[0] + Flatten(qs[1..]);
    assert Flatten(qs') == qs'[0] + Flatten(qs'[1..]);
    if i > 0 {
      assert qs'[1..] == qs[1..][i - 1 := q];
      assert qs'[0] == qs[0] && qs[1..][i - 1] == qs[i];
      FlattenUpdate(qs[1..], i - 1, q);
      var A, B, C := multiset(qs[0]), multiset(Flatten(qs'[1..])), multiset(Flatten(qs[1..]));
      assert multiset(Flatten(qs')) == A + B;
      assert multiset(Flatten(qs)) == A + C;
      forall e ensures (A + B + multiset(qs[i]))[e] == (A + C + multiset(q))[e] {
        assert (B + multiset(qs[i]))[e] == (C + multiset(q))[e];
      }
    } else {
      assert qs'[1..] == qs[1..];
    }
  }

  /** Taking one task off the front or back of a queue removes exactly that
      task from the queued tasks. */
  lemma TakeAccount(qs: seq<seq<Task>>, i: nat, rest: seq<Task>, task: Task)
    requires i < |qs| && (qs[i] == [task] + rest || qs[i] == rest + [task])
    ensures multiset(Flatten(qs[i := rest])) + multiset{task} == multiset(Flatten(qs))
    ensures |Flatten(qs[i := rest])| + 1 == |Flatten(qs)|
  {
    FlattenUpdate(qs, i, rest);
    var A, B := multiset(Flatten(qs[i := rest])), multiset(Flatten(qs));
    assert multiset(qs[i]) == multiset(rest) + multiset{task};
    forall e ensures (A + multiset{task})[e] == B[e] {
      assert (A + multiset(qs[i]))[e] == (B + multiset(rest))[e];
    }
  }

  /** Appending a task to a queue adds exactly that task to the queued tasks. */
  lemma PushAccount(qs: seq<seq<Task>>, i: nat, task: Task)
    requires i < |qs|
    ensures multiset(Flatten(qs[i := qs[i] + [task]])) == multiset(Flatten(qs)) + multiset{task}
    ensures |Flatten(qs[i := qs[i] + [task]])| == |Flatten(qs)| + 1
  {
    FlattenUpdate(qs, i, qs[i] + [task]);
    var A, B := multiset(Flatten(qs[i := qs[i] + [task]])), multiset(Flatten(qs));
    forall e ensures A[e] == (B + multiset{task})[e] {
      assert (A + multiset(qs[i]))[e] == (B + multiset(qs[i] + [task]))[e];
    }
  }

  /** Moving one task from the queues to the list of tasks run keeps their union. */
  lemma MoveAccount(done: seq<Task>, task: Task, before: multiset<Task>, after: multiset<Task>, total: multiset<Task>)
    requires multiset(done) + before == total && after + multiset{task} == before
    ensures multiset(done + [task]) + after == total
  {
    forall e ensures (multiset(done + [task]) + after)[e] == total[e] {
      assert (multiset(done) + before)[e] == total[e];
    }
  }

  /** Running one more task extends the log by that task's indices. */
  lemma VisitAccount(v0: seq<nat>, done: seq<Task>, task: Task)
    ensures v0 + ConcatRanges(done) + TaskRange(task) == v0 + ConcatRanges(done + [task])
  {
    ConcatRangesSingle(task);
    ConcatRangesAppend(done, [task]);
    SeqAssoc(v0, ConcatRanges(done), TaskRange(task));
  }

  lemma SeqAssoc(a: seq<nat>, b: seq<nat>, c: seq<nat>)
    ensures a + b + c == a + (b + c)
  {
  }

  lemma ConcatRangesSingle(task: Task)
    ensures ConcatRanges([task]) == TaskRange(task)
  {
    assert [task][1..] == [];
    assert TaskRange(task) + [] == TaskRange(task);
  }

  /** Nothing is queued exactly when every queue is empty. */
  lemma {:induction false} FlattenEmpty(qs: seq<seq<Task>>)
    ensures Flatten(qs) == [] <==> forall i :: 0 <= i < |qs| ==> qs[i] == []
  {
    if qs != [] {
      FlattenEmpty(qs[1..]);
      if Flatten(qs) == [] {
        forall i | 0 <= i < |qs| ensures qs[i] == [] {
          if i > 0 { assert qs[i] == qs[1..][i - 1]; }
        }
      } else if qs[0] == [] {
        var i :| 0 <= i < |qs[1..]| && qs[1..][i] != [];
        assert qs[i + 1] != [];
      }
    }
  }

  /** The queue probed at step `offset` of a steal by worker `index`. */
  function Probe(n: nat, index: nat, offset: nat): nat
    requires n > 0
  {
    (index + offset) % n
  }

  /** The first non-empty queue among the probes offset, offset + 1, ..., n - 1. */
  function FirstNonEmpty(qs: seq<seq<Task>>, index: nat, offset: nat): (r: Option<nat>)
    requires offset >= 1
    ensures r.Some? ==> r.value < |qs| && qs[r.value] != []
    decreases |qs| - offset
  {
    if offset >= |qs| then None
    else if qs[Probe(|qs|, index, offset)] != [] then Some(Probe(|qs|, index, offset))
    else FirstNonEmpty(qs, index, offset + 1)
  }

  /** The queue try_steal_task takes from, if any. */
  function StealTarget(qs: seq<seq<Task>>, index: nat): Option<nat> {
    FirstNonEmpty(qs, index, 1)
  }

  /** A steal finds the first non-empty queue in probe order
      (index + 1) % n, ..., (index + n - 1) % n: every queue probed before it
      is empty, and it is never the thief's own queue. */
  lemma {:induction false} FirstNonEmptyOrder(qs: seq<seq<Task>>, index: nat, offset: nat)
    requires 1 <= offset && index < |qs|
    ensures FirstNonEmpty(qs, index, offset).Some? ==>
      exists o :: offset <= o < |qs| && Probe(|qs|, index, o) == FirstNonEmpty(qs, index, offset).value &&
        forall o' :: offset <= o' < o ==> qs[Probe(|qs|, index, o')] == []
    ensures FirstNonEmpty(qs, index, offset).Some? ==> FirstNonEmpty(qs, index, offset).value != index
    ensures FirstNonEmpty(qs, index, offset).None? ==>
      forall o :: offset <= o < |qs| ==> qs[Probe(|qs|, index, o)] == []
    decreases |qs| - offset
  {
    if offset < |qs| {
      ProbeNotSelf(|qs|, index, offset);
      if qs[Probe(|qs|, index, offset)] == [] {
        FirstNonEmptyOrder(qs, index, offset + 1);
      }
    }
  }

  lemma ProbeNotSelf(n: nat, index: nat, offset: nat)
    requires index < n && 1 <= offset < n
    ensures Probe(n, index, offset) != index
  {
    if index + offset < n {
      DivModUnique(index + offset, n, 0, index + offset);
    } else {
      DivModUnique(index + offset, n, 1, index + offset - n);
    }
  }

  /** Every queue other than the thief's own is probed. */
  lemma ProbeReaches(n: nat, index: nat, j: nat)
    requires index < n && j < n && j != index
    ensures 1 <= (j + n - index) % n < n && Probe(n, index, (j + n - index) % n) == j
  {
    if j > index {
      DivModUnique(j + n - index, n, 1, j - index);
      DivModUnique(index + (j - index), n, 0, j);
    } else {
      DivModUnique(j + n - index, n, 0, j + n - index);
      DivModUnique(index + (j + n - index), n, 1, j);
    }
  }

  /** A steal fails only when every other queue is empty. */
  lemma StealFails(qs: seq<seq<Task>>, index: nat)
    requires index < |qs|
    ensures StealTarget(qs, index).None? <==> forall j :: 0 <= j < |qs| && j != index ==> qs[j] == []
  {
    FirstNonEmptyOrder(qs, index, 1);
    if StealTarget(qs, index).None? {
      forall j | 0 <= j < |qs| && j != index ensures qs[j] == [] {
        ProbeReaches(|qs|, index, j);
      }
    }
  }

  class ThreadPool {
    /** queues_: one deque per worker; threads_.size() equals its length. */
    var queues: seq<seq<Task>>
    /** pending_tasks_: tasks enqueued and not yet completed. */
    var pending: nat
    /** next_queue_: the round-robin cursor of enqueue. */
    var nextQueue: nat
    /** The indices the chunk loops of the tasks run so far were called
        with, in the order they ran: the observable effect of the tasks. */
    var visited: seq<nat>
    /** Tasks taken from a queue (or started inline) and not yet completed. */
    ghost var running: nat

    ghost predicate Valid()
      reads this
    {
      pending == |Flatten(queues)| + running
    }

    /** No task queued or running: what wait() waits for. */
    ghost predicate Idle()
      reads this
    {
      Valid() && pending == 0 && running == 0
    }

    /** The constructor: max(1, hw_threads()) workers with empty queues.
        The hardware thread count is a parameter. */
    constructor(hwThreads: nat)
      ensures Idle() && |queues| == Max(1, hwThreads) && nextQueue == 0 && visited == []
      ensures forall i :: 0 <= i < |queues| ==> queues[i] == []
    {
      queues := seq(Max(1, hwThreads), _ => []);
      pending := 0;
      nextQueue := 0;
      visited := [];
      running := 0;
      new;
      FlattenEmpty(queues);
    }

    /** size(): the number of workers. */
    function Size(): nat
      reads this
    {
      |queues|
    }

    /** start_workers: `workerCount` workers, each with an empty queue. */
    method StartWorkers(workerCount: nat)
      requires running == 0 && pending == 0
      modifies this
      ensures Idle() && |queues| == workerCount
      ensures forall i :: 0 <= i < |queues| ==> queues[i] == []
      ensures nextQueue == old(nextQueue) && visited == old(visited)
    {
      queues := seq(workerCount, _ => []);
      FlattenEmpty(queues);
    }

    /** stop_workers once the pool is idle: no workers, no queues, and the
        round-robin cursor back at 0. */
    method StopWorkers()
      requires Idle()
      modifies this
      ensures Idle() && queues == [] && nextQueue == 0 && visited == old(visited)
    {
      queues := [];
      nextQueue := 0;
    }

    /** Run a task on the calling thread: its chunk loop. */
    method RunTask(t: Task)
      modifies this
      ensures visited == old(visited) + TaskRange(t)
      ensures queues == old(queues) && pending == old(pending) && nextQueue == old(nextQueue)
      ensures running == old(running)
    {
      match t {
        case NoTask =>
          assert TaskRange(t) == [];
        case Chunk(lo, hi) =>
          visited := RunChunk(lo, hi, visited);
      }
    }

    /** task_completed: one fewer task pending. */
    method TaskCompleted()
      requires Valid() && running > 0
      modifies this
      ensures Valid() && pending == old(pending) - 1 && running == old(running) - 1
      ensures queues == old(queues) && nextQueue == old(nextQueue) && visited == old(visited)
    {
      pending := pending - 1;
      running := running - 1;
    }

    /** enqueue: an empty task is ignored. Otherwise the task is counted
        pending; with no queues it runs inline and completes at once, else it
        goes to the back of queue next % n and the cursor advances. */
    method Enqueue(task: Task)
      requires Valid()
      modifies this
      ensures Valid() && running == old(running)
      ensures task == NoTask ==> unchanged(this)
      ensures task != NoTask && old(|queues|) == 0 ==>
        queues == old(queues) && pending == old(pending) && nextQueue == old(nextQueue) &&
        visited == old(visited) + TaskRange(task)
      ensures task != NoTask && old(|queues|) > 0 ==>
        var qi := old(nextQueue) % old(|queues|);
        queues == old(queues)[qi := old(queues)[qi] + [task]] &&
        pending == old(pending) + 1 && nextQueue == old(nextQueue) + 1 && visited == old(visited)
    {
      if task == NoTask {
        return;
      }
      pending := pending + 1;
      if |queues| == 0 {
        running := running + 1;
        RunTask(task);
        TaskCompleted();
        return;
      }
      var qi := nextQueue % Max(1, |queues|);
      nextQueue := nextQueue + 1;
      PushAccount(queues, qi, task);
      queues := queues[qi := queues[qi] + [task]];
    }

    /** try_pop_task: take the front of worker `index`'s own queue. */
    method TryPop(index: nat) returns (ok: bool, task: Task)
      requires Valid()
      modifies this
      ensures Valid()
      ensures ok <==> index < old(|queues|) && old(queues)[index] != []
      ensures !ok ==> unchanged(this)
      ensures ok ==> (task == old(queues)[index][0] &&
        queues == old(queues)[index := old(queues)[index][1..]] &&
        running == old(running) + 1 && pending == old(pending) &&
        nextQueue == old(nextQueue) && visited == old(visited))
    {
      if index >= |queues| {
        return false, NoTask;
      }
      if queues[index] == [] {
        return false, NoTask;
      }
      task := queues[index][0];
      TakeAccount(queues, index, queues[index][1..], task);
      queues := queues[index := queues[index][1..]];
      running := running + 1;
      ok := true;
    }

    /** try_steal_task: probe the other queues in order and take the back of
        the first non-empty one. */
    method TrySteal(index: nat) returns (ok: bool, task: Task)
      requires Valid()
      modifies this
      ensures Valid()
      ensures ok <==> StealTarget(old(queues), index).Some?
      ensures !ok ==> unchanged(this)
      ensures ok ==>
        var t := StealTarget(old(queues), index).value;
        var q := old(queues)[t];
        task == q[|q| - 1] && queues == old(queues)[t := q[..|q| - 1]] &&
        running == old(running) + 1 && pending == old(pending) &&
        nextQueue == old(nextQueue) && visited == old(visited)
    {
      var workerCount := |queues|;
      var offset := 1;
      while offset < workerCount
        invariant 1 <= offset
        invariant StealTarget(queues, index) == FirstNonEmpty(queues, index, offset)
        invariant unchanged(this)
      {
        var target := (index + offset) % workerCount;
        assert target == Probe(workerCount, index, offset);
        if queues[target] != [] {
          var q := queues[target];
          task := q[|q| - 1];
          TakeAccount(queues, target, q[..|q| - 1], task);
          queues := queues[target := q[..|q| - 1]];
          running := running + 1;
          return true, task;
        }
        offset := offset + 1;
      }
      return false, NoTask;
    }

    /** One turn of worker_loop that finds work: pop own, else steal, then
        run the task and complete it. It finds work exactly when a task is
        queued anywhere. */
    method WorkerStep(index: nat) returns (ran: bool, task: Task)
      requires Valid() && index < |queues|
      modifies this
      ensures Valid() && running == old(running)
      ensures ran <==> old(Flatten(queues)) != []
      ensures !ran ==> unchanged(this)
      ensures ran ==> (multiset(Flatten(queues)) + multiset{task} == old(multiset(Flatten(queues))) &&
        |queues| == old(|queues|) && pending == old(pending) - 1 &&
        nextQueue == old(nextQueue) && visited == old(visited) + TaskRange(task))
    {
      ghost var qs := queues;
      FlattenEmpty(qs);
      StealFails(qs, index);
      ran, task := TryPop(index);
      if ran {
        TakeAccount(qs, index, qs[index][1..], task);
      } else {
        ran, task := TrySteal(index);
        if ran {
          var t := StealTarget(qs, index).value;
          var q := qs[t];
          TakeAccount(qs, t, q[..|q| - 1], task);
        } else {
          return;
        }
      }
      RunTask(task);
      TaskCompleted();
    }

    /** wait, with the workers' steps made sequential: until no task is
        pending, some worker, any worker, takes a step. Every queued task is
        run exactly once, in an order the choice of workers decides. */
    method Wait() returns (done: seq<Task>)
      requires Valid() && running == 0
      modifies this
      ensures Idle() && |queues| == old(|queues|) && nextQueue == old(nextQueue)
      ensures forall i :: 0 <= i < |queues| ==> queues[i] == []
      ensures multiset(done) == old(multiset(Flatten(queues)))
      ensures visited == old(visited) + ConcatRanges(done)
    {
      done := [];
      ghost var total := multiset(Flatten(queues));
      ghost var v0 := visited;
      while pending > 0
        invariant Valid() && running == 0
        invariant |queues| == old(|queues|) && nextQueue == old(nextQueue)
        invariant multiset(done) + multiset(Flatten(queues)) == total
        invariant visited == v0 + ConcatRanges(done)
        decreases pending
      {
        assert queues != [];
        var w :| 0 <= w < |queues|;
        ghost var before := multiset(Flatten(queues));
        ghost var seen := visited;
        var ran, task := WorkerStep(w);
        assert ran;
        MoveAccount(done, task, before, multiset(Flatten(queues)), total);
        VisitAccount(v0, done, task);
        done := done + [task];
      }
      ghost var rest := Flatten(queues);
      assert rest == [];
      assert multiset(done) + multiset(rest) == total;
      assert multiset(rest) == multiset{};
      assert multiset(done) == total;
      FlattenEmpty(queues);
    }

    /** resize: 0 means 1; the current size is a no-op; otherwise all
        pending work finishes and the pool restarts with that many empty
        queues and the cursor at 0. */
    method Resize(workerCount: nat) returns (done: seq<Task>)
      requires Valid() && running == 0
      modifies this
      ensures Valid() && running == 0
      ensures |queues| == Max(1, workerCount)
      ensures Max(1, workerCount) == old(|queues|) ==> unchanged(this) && done == []
      ensures Max(1, workerCount) != old(|queues|) ==>
        Idle() && nextQueue == 0 && (forall i :: 0 <= i < |queues| ==> queues[i] == []) &&
        multiset(done) == old(multiset(Flatten(queues))) && visited == old(visited) + ConcatRanges(done)
    {
      var count := workerCount;
      if count == 0 {
        count := 1;
      }
      if count == |queues| {
        return [];
      }
      done := Wait();
      StopWorkers();
      StartWorkers(count);
    }
  }

  /** Chunks of `size` indices from cb up to end, the last one shorter. */
  function Chunks(cb: nat, end: nat, size: nat): (cs: seq<Task>)
    requires size > 0
    ensures forall i :: 0 <= i < |cs| ==> cs[i].Chunk?
    decreases end - cb
  {
    if end <= cb then [] else [Chunk(cb, Min(end, cb + size))] + Chunks(Min(end, cb + size), end, size)
  }

  /** chunk_size: ceil(total / (4 * workers)), at least 1. */
  function ChunkSize(total: nat, workers: nat): (s: nat)
    requires workers > 0
    ensures s >= 1
  {
    Max(1, CeilDiv(total, workers * 4))
  }

  /** What parallel_for_impl runs for [begin, end) on a pool of `size`
      workers: nothing for an empty range; the whole range as one inline
      chunk for a single worker or a range no longer than the worker count;
      otherwise the chunks of ChunkSize. */
  function ChunkPlan(begin: nat, end: nat, size: nat): seq<Task> {
    var workers := Max(1, size);
    if end <= begin then []
    else if workers <= 1 || end - begin <= workers then [Chunk(begin, end)]
    else Chunks(begin, end, ChunkSize(end - begin, workers))
  }

  /** The chunks cover [cb, end) in order. */
  lemma {:induction false} ChunksCover(cb: nat, end: nat, size: nat)
    requires size > 0 && cb <= end
    ensures ConcatRanges(Chunks(cb, end, size)) == Range(cb, end)
    decreases end - cb
  {
    if cb < end {
      var ce := Min(end, cb + size);
      var cs := Chunks(cb, end, size);
      ChunksCover(ce, end, size);
      assert cs[1..] == Chunks(ce, end, size);
      RangeSplit(cb, ce, end);
    }
  }

  /** Each chunk is non-empty and at most `size` long; the first starts at
      cb, each one ends where the next starts, and the last ends at end. */
  lemma {:induction false} ChunksShape(cb: nat, end: nat, size: nat)
    requires size > 0 && cb < end
    ensures var cs := Chunks(cb, end, size);
      |cs| > 0 && cs[0].Chunk? && cs[0].lo == cb && cs[|cs| - 1].Chunk? && cs[|cs| - 1].hi == end &&
      (forall i :: 0 <= i < |cs| ==> cs[i].Chunk? && cs[i].lo < cs[i].hi <= cs[i].lo + size) &&
      (forall i :: 0 <= i < |cs| - 1 ==> cs[i].hi == cs[i + 1].lo)
    decreases end - cb
  {
    var ce := Min(end, cb + size);
    var cs := Chunks(cb, end, size);
    if ce < end {
      ChunksShape(ce, end, size);
      assert cs[1..] == Chunks(ce, end, size);
      forall i | 0 <= i < |cs| ensures cs[i].Chunk? && cs[i].lo < cs[i].hi <= cs[i].lo + size {
        if i > 0 { assert cs[i] == cs[1..][i - 1]; }
      }
      forall i | 0 <= i < |cs| - 1 ensures cs[i].hi == cs[i + 1].lo {
        if i > 0 { assert cs[i] == cs[1..][i - 1]; assert cs[i + 1] == cs[1..][i]; }
      }
    } else {
      assert Chunks(ce, end, size) == [];
      assert cs == [Chunk(cb, ce)];
    }
  }

  /** Chunks are pairwise disjoint: an earlier chunk ends before a later one starts. */
  lemma ChunksDisjoint(cb: nat, end: nat, size: nat, i: nat, j: nat)
    requires size > 0 && cb < end && i < j < |Chunks(cb, end, size)|
    ensures Chunks(cb, end, size)[i].hi <= Chunks(cb, end, size)[j].lo
    decreases j - i
  {
    ChunksShape(cb, end, size);
    var cs := Chunks(cb, end, size);
    if i + 1 < j {
      ChunksDisjoint(cb, end, size, i + 1, j);
    }
  }

  /** There are ceil((end - cb) / size) chunks. */
  lemma {:induction false} ChunksCount(cb: nat, end: nat, size: nat)
    requires size > 0 && cb <= end
    ensures |Chunks(cb, end, size)| == CeilDiv(end - cb, size)
    decreases end - cb
  {
    var total := end - cb;
    if cb == end {
      DivModUnique(size - 1, size, 0, size - 1);
    } else if total <= size {
      assert Chunks(cb + total, end, size) == [];
      DivModUnique(total + size - 1, size, 1, total - 1);
    } else {
      ChunksCount(cb + size, end, size);
      assert Min(end, cb + size) == cb + size;
      assert |Chunks(cb, end, size)| == 1 + |Chunks(cb + size, end, size)|;
      var q, m := (total - 1) / size, (total - 1) % size;
      assert CeilDiv(end - (cb + size), size) == q by {
        assert end - (cb + size) + size - 1 == total - 1;
      }
      assert total - 1 == q * size + m;
      assert total + size - 1 == (q + 1) * size + m;
      DivModUnique(total + size - 1, size, q + 1, m);
    }
  }

  /** ceil(a / d) is the least r with r * d >= a. */
  lemma CeilDivLeast(a: nat, d: nat, r: nat)
    requires d > 0 && r * d >= a
    ensures CeilDiv(a, d) <= r
  {
    var c := CeilDiv(a, d);
    assert (r + 1) * d == r * d + d;
    if c > r {
      MulMonoLeft(r + 1, c, d);
    }
  }

  lemma MulMonoLeft(a: nat, b: nat, m: nat)
    requires a <= b
    ensures a * m <= b * m
  {
    assert b * m == a * m + (b - a) * m;
  }

  /** With the chunk size of parallel_for_impl there are at most
      4 * workers chunks. */
  lemma ChunkCountBound(begin: nat, end: nat, workers: nat)
    requires workers > 0 && begin < end
    ensures |Chunks(begin, end, ChunkSize(end - begin, workers))| <= 4 * workers
  {
    var total := end - begin;
    var t := workers * 4;
    var s := CeilDiv(total, t);
    ChunksCount(begin, end, ChunkSize(total, workers));
    assert s >= 1;
    assert t * s >= total;
    CeilDivLeast(total, s, t);
  }

  /** Whatever the pool size, the plan visits every index of [begin, end)
      once, in increasing order. */
  lemma ChunkPlanCovers(begin: nat, end: nat, size: nat)
    ensures ConcatRanges(ChunkPlan(begin, end, size)) == Range(begin, end)
  {
    var workers := Max(1, size);
    if end <= begin {
    } else if workers <= 1 || end - begin <= workers {
      assert ChunkPlan(begin, end, size)[1..] == [];
      assert ConcatRanges(ChunkPlan(begin, end, size)) == Range(begin, end) + [];
    } else {
      ChunksCover(begin, end, ChunkSize(end - begin, workers));
    }
  }

  /** The plan's shape: empty for an empty range, one chunk (begin, end) for
      a single worker or a short range, else at most 4 * workers non-empty
      contiguous chunks from begin to end. */
  lemma ChunkPlanShape(begin: nat, end: nat, size: nat)
    ensures end <= begin ==> ChunkPlan(begin, end, size) == []
    ensures begin < end && (size <= 1 || end - begin <= size) ==>
      ChunkPlan(begin, end, size) == [Chunk(begin, end)]
    ensures begin < end && size > 1 && end - begin > size ==>
      var cs := ChunkPlan(begin, end, size);
      0 < |cs| <= 4 * size && cs[0].Chunk? && cs[0].lo == begin && cs[|cs| - 1].Chunk? && cs[|cs| - 1].hi == end &&
      (forall i :: 0 <= i < |cs| ==> cs[i].Chunk? && cs[i].lo < cs[i].hi) &&
      (forall i :: 0 <= i < |cs| - 1 ==> cs[i].hi == cs[i + 1].lo)
  {
    if begin < end && size > 1 && end - begin > size {
      ChunksShape(begin, end, ChunkSize(end - begin, size));
      ChunkCountBound(begin, end, size);
    }
  }

  /** parallel_for_impl on an idle pool: run the plan inline or enqueue its
      chunks round-robin and wait. The callable is called once for every
      index of [begin, end); a single inline chunk calls it in increasing
      order. */
  method ParallelForImpl(pool: ThreadPool, begin: nat, end: nat)
    requires pool.Idle()
    modifies pool
    ensures pool.Idle() && |pool.queues| == old(|pool.queues|)
    ensures Max(1, old(pool.Size())) <= 1 || end - begin <= Max(1, old(pool.Size())) ==>
      pool.visited == old(pool.visited) + Range(begin, end)
    ensures multiset(pool.visited) == multiset(old(pool.visited)) + multiset(Range(begin, end))
  {
    if end <= begin {
      return;
    }
    var workers := Max(1, pool.Size());
    var total := end - begin;
    if workers <= 1 || total <= workers {
      pool.visited := RunChunk(begin, end, pool.visited);
      return;
    }
    var targetChunks := workers * 4;
    var chunkSize := CeilDiv(total, targetChunks);
    chunkSize := Max(1, chunkSize);
    ghost var plan := Chunks(begin, end, chunkSize);
    assert chunkSize == ChunkSize(total, workers);
    assert ChunkPlan(begin, end, pool.Size()) == plan;
    ChunkPlanCovers(begin, end, pool.Size());
    ChunkPlanShape(begin, end, pool.Size());
    ghost var v0 := pool.visited;
    EnqueueChunks(pool, begin, end, chunkSize);
    var done := pool.Wait();
    ConcatRangesPerm(done, plan);
    assert pool.visited == v0 + ConcatRanges(done);
    assert multiset(pool.visited) == multiset(v0) + multiset(ConcatRanges(done));
  }

  /** The enqueue loop of parallel_for_impl: one task per chunk, from
      chunk_begin = begin until end. Afterwards exactly the chunks are queued. */
  method EnqueueChunks(pool: ThreadPool, begin: nat, end: nat, chunkSize: nat)
    requires pool.Idle() && |pool.queues| > 0 && chunkSize > 0 && begin <= end
    modifies pool
    ensures pool.Valid() && pool.running == 0 && |pool.queues| == old(|pool.queues|)
    ensures multiset(Flatten(pool.queues)) == multiset(Chunks(begin, end, chunkSize))
    ensures pool.visited == old(pool.visited)
  {
    ghost var plan := Chunks(begin, end, chunkSize);
    ghost var submitted: seq<Task> := [];
    ghost var rest := Flatten(pool.queues);
    FlattenEmpty(pool.queues);
    assert rest == [];
    var chunkBegin := begin;
    while chunkBegin < end
      invariant begin <= chunkBegin <= end
      invariant submitted + Chunks(chunkBegin, end, chunkSize) == plan
      invariant pool.Valid() && pool.running == 0 && |pool.queues| == old(|pool.queues|)
      invariant multiset(Flatten(pool.queues)) == multiset(submitted)
      invariant pool.visited == old(pool.visited)
      decreases end - chunkBegin
    {
      var chunkEnd := Min(end, chunkBegin + chunkSize);
      var task := Chunk(chunkBegin, chunkEnd);
      PushAccount(pool.queues, pool.nextQueue % |pool.queues|, task);
      pool.Enqueue(task);
      ghost var tail := Chunks(chunkEnd, end, chunkSize);
      assert Chunks(chunkBegin, end, chunkSize) == [task] + tail;
      assert submitted + [task] + tail == submitted + ([task] + tail);
      submitted := submitted + [task];
      chunkBegin := chunkEnd;
    }
    assert Chunks(chunkBegin, end, chunkSize) == [];
    assert submitted == plan;
  }

  /** The templated parallel_for: nothing for an empty range, otherwise
      parallel_for_impl with the per-index chunk loop. */
  method ParallelFor(pool: ThreadPool, begin: nat, end: nat)
    requires pool.Idle()
    modifies pool
    ensures pool.Idle() && |pool.queues| == old(|pool.queues|)
    ensures end <= begin ==> unchanged(pool)
    ensures pool.Size() <= 1 ==> pool.visited == old(pool.visited) + Range(begin, end)
    ensures multiset(pool.visited) == multiset(old(pool.visited)) + multiset(Range(begin, end))
  {
    if end <= begin {
      assert Range(begin, end) == [];
      return;
    }
    ChunkPlanShape(begin, end, pool.Size());
    ParallelForImpl(pool, begin, end);
  }

  /** Every index in [begin, end) is visited exactly once, and no other index. */
  lemma VisitedOnce(before: seq<nat>, after: seq<nat>, begin: nat, end: nat, k: nat)
    requires multiset(after) == multiset(before) + multiset(Range(begin, end))
    ensures multiset(after)[k] == multiset(before)[k] + (if begin <= k < end then 1 else 0)
  {
    RangeOnce(begin, end, k);
  }
}

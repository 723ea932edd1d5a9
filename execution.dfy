/** The loop of `ExecuteJob` and the method itself, composed from the steps of module `Server`.
    Line numbers refer to `src/Hangfire.Pipeline/PipelineServer.cs`. */
module Execution {
  import opened Wrappers
  import opened Text
  import opened Values
  import opened Contexts
  import opened Ordering
  import opened Steps
  import opened Traces
  import opened Server

  /** Line 86: before a sequential task, `Task.WaitAll` blocks until every execution and
      continuation started so far is complete, then throws if any of them faulted. */
  method Barrier(l: JobRecord, w: World, job: JobContext, r: Run) returns (r': Run, stop: Option<Failure>)
    requires Inv(l, w, job, r)
    modifies job
    ensures Inv(l, w, job, r') && TasksAdvanced(r, r')
    ensures r'.executing == {} && r'.pending == {}
    ensures stop.None? <==> r'.execFaulted + r'.contFaulted == {}
    ensures stop.Some? ==> stop.value in Explanations(l, w, Count(r'.trace))
  {
    var faulted;
    r', faulted := WaitAll(l, w, job, r);
    stop := if faulted == {} then None else Some(TasksFaulted(faulted));
  }

  /** Lines 94-127: creates the task's instance and starts its execution, whose continuation then
      runs beside the worker. */
  method Spawn(l: JobRecord, w: World, job: JobContext, r: Run, k: nat) returns (r': Run, stop: Option<Failure>)
    requires Inv(l, w, job, r) && r.trace[|r.trace| - 1] == TaskStarted(k, r.clock)
    requires k !in Count(r.trace).created
    ensures Inv(l, w, job, r') && r'.order == r.order && r'.next == r.next
    ensures stop.Some? <==> w.behaviour(k) == CreateFails || w.behaviour(k) == ThrowsOnCall
    ensures stop.Some? ==> stop.value in Explanations(l, w, Count(r'.trace))
    ensures stop.None? ==>
      r'.executing == r.executing + {k} && r'.pending == r.pending
      && r'.execFaulted == r.execFaulted && r'.contFaulted == r.contFaulted
    ensures stop.None? ==> var s, s' := Count(r.trace), Count(r'.trace);
      s'.started == s.started && s'.launched == s.launched + {k} && s'.skipped == s.skipped
  {
    var r1;
    r1, stop := CreateInstance(l, w, job, r, k);
    if stop.Some? {
      return r1, stop;
    }
    r', stop := ExecuteTask(l, w, job, r1, k);
  }

  /** Lines 89-127: stamps the task's start, then creates and starts it. */
  method Launch(l: JobRecord, w: World, job: JobContext, r: Run, k: nat) returns (r': Run, stop: Option<Failure>)
    requires Inv(l, w, job, r) && Admitted(l, w, r.trace, k) && Queue(l)[k].end == 0
    requires Calm(l, r) && k !in Count(r.trace).started
    requires !Queue(l)[k].runParallel ==> r.executing == {} && r.pending == {} && r.execFaulted + r.contFaulted == {}
    modifies job
    ensures Inv(l, w, job, r') && r'.order == r.order && r'.next == r.next
    ensures stop.Some? <==> w.behaviour(k) == CreateFails || w.behaviour(k) == ThrowsOnCall
    ensures stop.Some? ==> stop.value in Explanations(l, w, Count(r'.trace))
    ensures stop.None? ==>
      r'.executing == r.executing + {k} && r'.pending == r.pending
      && r'.execFaulted == r.execFaulted && r'.contFaulted == r.contFaulted
    ensures stop.None? ==> var s, s' := Count(r.trace), Count(r'.trace);
      s'.started == s.started + {k} && s'.launched == s.launched + {k} && s'.skipped == s.skipped
  {
    var r1 := StartTask(l, w, job, r, k);
    r', stop := Spawn(l, w, job, r1, k);
  }

  /** Lines 82-134 for a task that has not run: a sequential task waits for the tasks before it,
      is launched, and is waited for until its execution completes. */
  method RunTask(l: JobRecord, w: World, job: JobContext, r: Run, k: nat) returns (r': Run, stop: Option<Failure>)
    requires Inv(l, w, job, r) && Admitted(l, w, r.trace, k) && Queue(l)[k].end == 0 && r.next > 0
    requires Calm(l, r) && k !in Count(r.trace).started && r.order[r.next - 1] == k && SettledUpTo(r, r.next - 1)
    modifies job
    ensures Inv(l, w, job, r') && r'.order == r.order && r'.next == r.next
    ensures stop.None? ==> Calm(l, r') && SettledUpTo(r', r'.next)
    ensures stop.Some? ==> stop.value in Explanations(l, w, Count(r'.trace))
  {
    var r1 := r;
    if !Queue(l)[k].runParallel {
      r1, stop := Barrier(l, w, job, r);
      if stop.Some? {
        return r1, stop;
      }
      AdvanceKeepsAdmitted(l, w, r, r1, k);
    }
    r', stop := LaunchAndWait(l, w, job, r1, k);
  }

  /** Steps of the running tasks leave the task the worker admitted admitted, unstarted and the
      tasks before it settled. */
  lemma AdvanceKeepsAdmitted(l: JobRecord, w: World, r: Run, r': Run, k: nat)
    requires Admitted(l, w, r.trace, k) && TasksAdvanced(r, r') && InScope(l, r'.trace)
    requires k !in Count(r.trace).started && 0 < r.next && SettledUpTo(r, r.next - 1)
    ensures Admitted(l, w, r'.trace, k) && k !in Count(r'.trace).started && SettledUpTo(r', r'.next - 1)
  {
  }

  /** Steps of the running tasks keep the tasks settled. */
  lemma AdvanceSettles(r: Run, r': Run, n: nat)
    requires TasksAdvanced(r, r') && SettledUpTo(r, n)
    ensures SettledUpTo(r', n)
  {
  }

  /** Launching the task dequeued last settles it; a parallel one may keep running. */
  lemma LaunchSettles(l: JobRecord, r: Run, r': Run, k: nat)
    requires 0 < r.next <= |r.order| && r.order[r.next - 1] == k && SettledUpTo(r, r.next - 1)
    requires Calm(l, r) && k < |Queue(l)|
    requires r'.order == r.order && r'.next == r.next
    requires r'.executing == r.executing + {k} && r'.execFaulted == r.execFaulted
    requires var s, s' := Count(r.trace), Count(r'.trace);
      s'.started == s.started + {k} && s'.launched == s.launched + {k} && s'.skipped == s.skipped
    ensures SettledUpTo(r', r'.next)
    ensures Queue(l)[k].runParallel ==> Calm(l, r')
  {
  }

  /** Once the only running task, which is sequential, has completed its execution without fault,
      nothing runs and nothing has faulted. */
  lemma SequentialSettles(l: JobRecord, r: Run, r': Run, k: nat)
    requires TasksAdvanced(r, r') && r.executing == {k} && r.execFaulted == {}
    requires k !in r'.executing && k !in r'.execFaulted
    ensures Calm(l, r')
  {
    assert r'.executing == {};
    assert r'.execFaulted == {};
  }

  /** Lines 89-134: launches the task, then waits for a sequential task's execution, which throws
      when the execution faulted. */
  method LaunchAndWait(l: JobRecord, w: World, job: JobContext, r: Run, k: nat)
    returns (r': Run, stop: Option<Failure>)
    requires Inv(l, w, job, r) && Admitted(l, w, r.trace, k) && Queue(l)[k].end == 0 && r.next > 0
    requires Calm(l, r) && k !in Count(r.trace).started && r.order[r.next - 1] == k && SettledUpTo(r, r.next - 1)
    requires !Queue(l)[k].runParallel ==> r.executing == {} && r.pending == {} && r.execFaulted + r.contFaulted == {}
    modifies job
    ensures Inv(l, w, job, r') && r'.order == r.order && r'.next == r.next
    ensures stop.None? ==> Calm(l, r') && SettledUpTo(r', r'.next)
    ensures stop.Some? ==> stop.value in Explanations(l, w, Count(r'.trace))
  {
    var r1;
    r1, stop := Launch(l, w, job, r, k);
    if stop.Some? {
      return r1, stop;
    }
    LaunchSettles(l, r, r1, k);
    if Queue(l)[k].runParallel {
      return r1, stop;
    }
    r' := WaitExecution(l, w, job, r1, k);
    if k in r'.execFaulted {
      stop := Some(ExecutionFaulted(k));
      return;
    }
    SequentialSettles(l, r1, r', k);
    AdvanceSettles(r1, r', r'.next);
  }

  /** One iteration of the loop of lines 66-135. */
  method Step(l: JobRecord, w: World, job: JobContext, r: Run) returns (r': Run, stop: Option<Failure>)
    requires Inv(l, w, job, r) && r.next < |r.order| && Calm(l, r) && SettledUpTo(r, r.next)
    modifies job
    ensures Inv(l, w, job, r') && r'.order == r.order && r'.next == r.next + 1
    ensures stop.None? ==> Calm(l, r') && SettledUpTo(r', r'.next)
    ensures stop.Some? ==> stop.value in Explanations(l, w, Count(r'.trace))
  {
    var k, task;
    r', k, task, stop := Arrive(l, w, job, r);
    if stop.Some? {
      return;
    }
    if task.end > 0 {
      r' := Skip(l, w, job, r', k);
      return;
    }
    r', stop := RunTask(l, w, job, r', k);
  }

  /** The loop of lines 66-135: dequeues and runs every task, stopping at the first failure. */
  method RunTasks(l: JobRecord, w: World, job: JobContext, r: Run) returns (r': Run, stop: Option<Failure>)
    requires Inv(l, w, job, r) && r.next == 0 && Calm(l, r) && SettledUpTo(r, 0)
    modifies job
    ensures Inv(l, w, job, r') && r'.order == r.order
    ensures stop.None? ==> r'.next == |r'.order| && SettledUpTo(r', r'.next)
    ensures stop.Some? ==> stop.value in Explanations(l, w, Count(r'.trace))
  {
    r', stop := r, None;
    while r'.next < |r'.order|
      invariant Inv(l, w, job, r') && r'.order == r.order && Calm(l, r') && SettledUpTo(r', r'.next)
      invariant stop.None?
      decreases |r'.order| - r'.next
    {
      r', stop := Step(l, w, job, r');
      if stop.Some? {
        return;
      }
    }
  }

  /** The tally of the first events of a run: the job's start stamped at `at`. */
  function Opened(at: nat): Tally {
    Tally([], {}, {}, {}, {}, {}, {}, {}, {}, {}, {}, at, false)
  }

  /** Lines 54-63: the job's start is stamped and persisted, then the dependency scope opens once
      the queue has been ordered. */
  lemma OpeningOk(l: JobRecord, w: World, at: nat)
    requires at >= 1
    ensures var t := [JobStarted(at), Persisted(l.(start := at))];
      WellFormed(l, w, t) && Count(t) == Opened(at) && Replay(l, t) == l.(start := at)
    ensures l.queue.Some? ==> var t := [JobStarted(at), Persisted(l.(start := at)), ScopeOpened];
      WellFormed(l, w, t) && InScope(l, t) && Count(t) == Opened(at) && Replay(l, t) == l.(start := at)
  {
    var t1 := [JobStarted(at)];
    assert [] + [JobStarted(at)] == t1;
    WellFormedAppend(l, w, [], JobStarted(at));
    CountAppend([], JobStarted(at));
    ReplayAppend(l, [], JobStarted(at));
    var t2 := t1 + [Persisted(l.(start := at))];
    WellFormedAppend(l, w, t1, Persisted(l.(start := at)));
    CountAppend(t1, Persisted(l.(start := at)));
    ReplayAppend(l, t1, Persisted(l.(start := at)));
    if l.queue.Some? {
      WellFormedAppend(l, w, t2, ScopeOpened);
      CountAppend(t2, ScopeOpened);
      ReplayAppend(l, t2, ScopeOpened);
      assert t2 + [ScopeOpened] == [JobStarted(at), Persisted(l.(start := at)), ScopeOpened];
    }
  }

  /** The worker's state when the scope has just opened. */
  lemma Starting(l: JobRecord, w: World, job: JobContext, order: seq<nat>, at: nat)
    requires l.queue.Some? && order == Order(l) && at >= 1
    requires job.Record() == l.(start := at)
    ensures var r := Run(order, 0, {}, {}, {}, {}, at, 1, [JobStarted(at), Persisted(l.(start := at)), ScopeOpened]);
      Inv(l, w, job, r) && Calm(l, r) && SettledUpTo(r, 0)
  {
    OpeningOk(l, w, at);
  }

  /** The disposal of the scope, also on the way out of a failure inside it. */
  lemma DisposalOk(l: JobRecord, w: World, t: seq<Event>)
    requires WellFormed(l, w, t) && InScope(l, t)
    ensures WellFormed(l, w, t + [ScopeDisposed]) && Count(t + [ScopeDisposed]) == Count(t)
  {
    WellFormedAppend(l, w, t, ScopeDisposed);
    CountAppend(t, ScopeDisposed);
  }

  /** The events of lines 137-140 once every task completed: the scope is disposed, the job's end
      is stamped and the job context persisted. */
  function Closing(l: JobRecord, t: seq<Event>, at: nat): seq<Event> {
    t + [ScopeDisposed, JobEnded(at), Persisted(Replay(l, t).(end := at))]
  }

  lemma ClosingOk(l: JobRecord, w: World, t: seq<Event>, at: nat)
    requires WellFormed(l, w, t) && InScope(l, t) && Busy(Count(t)) == {} && Faulted(Count(t)) == {}
    requires Count(t).dequeued == Order(l) && at >= Count(t).stamp
    ensures var t' := Closing(l, t, at);
      WellFormed(l, w, t') && t <= t' && t'[|t'| - 1] == Persisted(Replay(l, t'))
      && Count(t') == Count(t).(jobEnded := true, stamp := at) && Replay(l, t') == Replay(l, t).(end := at)
  {
    DisposalOk(l, w, t);
    var t1 := t + [ScopeDisposed];
    assert JobEndedOk(l, t1, at);
    WellFormedAppend(l, w, t1, JobEnded(at));
    CountAppend(t1, JobEnded(at));
    ReplayAppend(l, t, ScopeDisposed);
    ReplayAppend(l, t1, JobEnded(at));
    var t2 := t1 + [JobEnded(at)];
    var snapshot := Replay(l, t).(end := at);
    assert PersistedOk(l, w, t2, snapshot);
    WellFormedAppend(l, w, t2, Persisted(snapshot));
    CountAppend(t2, Persisted(snapshot));
    ReplayAppend(l, t2, Persisted(snapshot));
    assert t2 + [Persisted(snapshot)] == Closing(l, t, at);
  }

  /** Every queued task ended, or was skipped because it had already ended before this run. */
  ghost predicate Finished(l: JobRecord, s: Tally) {
    (forall k :: k in s.ended ==> k < |Queue(l)|)
    && forall k :: 0 <= k < |Queue(l)| ==> k in s.ended || (k in s.skipped && Queue(l)[k].end > 0)
  }

  /** Once every task was dequeued and every execution and continuation completed without fault,
      every task has finished. */
  lemma AllFinished(l: JobRecord, w: World, r: Run)
    requires Agrees(l, w, r, Count(r.trace)) && r.order == Order(l) && r.next == |r.order| && SettledUpTo(r, r.next)
    requires Busy(Count(r.trace)) == {} && Faulted(Count(r.trace)) == {}
    ensures Finished(l, Count(r.trace))
  {
    var s := Count(r.trace);
    forall k | k in s.ended ensures k < |Queue(l)| {
      assert TaskOk(l, w, s, k);
    }
    forall k | 0 <= k < |Queue(l)| ensures k in s.ended || (k in s.skipped && Queue(l)[k].end > 0) {
      assert TaskOk(l, w, s, k);
      assert IsStableOrder(Priorities(Queue(l)), r.order) && k < |Priorities(Queue(l))|;
      assert k in r.order;
      var i :| 0 <= i < |r.order| && r.order[i] == k;
      assert k in s.started || k in s.skipped;
    }
  }

  /** The job context of a finished run: the job carries an end time, and a queued task carries
      one exactly when it had one when loaded or its execution returned the queued context. A task
      that ran and returned another context object keeps `End == DateTime.MinValue` in the queue:
      the end was stamped on the object it returned, which was appended to the completed tasks. */
  ghost predicate AllEnded(l: JobRecord, w: World, j: JobRecord) {
    j.end >= 1 && |Queue(j)| == |Queue(l)|
    && forall k :: 0 <= k < |Queue(j)| ==>
      (Queue(j)[k].end >= 1 <==> Queue(l)[k].end >= 1 || !w.returned(k).OtherContext?)
  }

  /** The end of a successful run: the job's end was stamped and the last event persists the job
      context, whose end times are as `AllEnded` says. */
  ghost predicate Closed(l: JobRecord, w: World, trace: seq<Event>) {
    |trace| > 0 && Count(trace).jobEnded && trace[|trace| - 1] == Persisted(Replay(l, trace))
    && AllEnded(l, w, Replay(l, trace))
  }

  lemma FinishedEnded(l: JobRecord, w: World, t: seq<Event>)
    requires l.queue.Some? && WellFormed(l, w, t) && Finished(l, Count(t)) && Replay(l, t).end >= 1
    ensures AllEnded(l, w, Replay(l, t))
  {
    EndsStamped(l, w, t);
    ReplayShape(l, t);
  }

  /** Nothing can make the job fail: it has a queue, every queued task has a name and an ID, its
      instance can be created, its execution completes without fault and returns a context whose
      ID no two queued tasks share, and no cancellation is requested while the tasks are dequeued. */
  ghost predicate Good(l: JobRecord, w: World) {
    l.queue.Some?
    && (forall k :: 0 <= k < |Queue(l)| ==>
          IsValidTask(Queue(l)[k]) && w.behaviour(k) == Succeeds && w.returned(k) != NoContext && UniqueId(l, w, k))
    && (forall i :: 0 <= i < |Queue(l)| ==> CheckForCancellation(w.token(i)) == Proceed)
  }

  /** A task whose execution or continuation faulted was queued, and its execution faulted,
      returned `null`, or returned a context whose ID is shared. */
  lemma FaultedTask(l: JobRecord, w: World, s: Tally, k: nat)
    requires Marks(l, w, s) && k in Faulted(s)
    ensures k < |Queue(l)| && (w.behaviour(k) == Faults || w.returned(k) == NoContext || !UniqueId(l, w, k))
  {
    assert TaskOk(l, w, s, k);
  }

  /** When nothing can make the job fail, the events of a run account for no failure. */
  lemma GoodExplainsNothing(l: JobRecord, w: World, s: Tally, f: Failure)
    requires Marks(l, w, s)
    ensures Good(l, w) ==> f !in Explanations(l, w, s)
  {
    if Good(l, w) {
      match f
      case CreateFailed(k) =>
        assert TaskOk(l, w, s, k);
      case ExecutionThrew(k) =>
        assert TaskOk(l, w, s, k);
      case ExecutionFaulted(k) =>
        assert TaskOk(l, w, s, k);
      case TasksFaulted(ks) =>
        if ks != {} && ks == Faulted(s) {
          var k :| k in ks;
          FaultedTask(l, w, s, k);
        }
      case _ =>
    }
  }

  /** A failure inside the dependency scope: `using` disposes the scope, and the exception leaves
      `ExecuteJob` with the job's end not stamped. */
  lemma Abandoned(l: JobRecord, w: World, job: JobContext, r: Run, f: Failure)
    requires Inv(l, w, job, r) && f in Explanations(l, w, Count(r.trace))
    ensures var t := r.trace + [ScopeDisposed];
      WellFormed(l, w, t) && r.trace <= t && f in Explanations(l, w, Count(t)) && !Count(t).jobEnded && !Good(l, w)
  {
    DisposalOk(l, w, r.trace);
    GoodExplainsNothing(l, w, Count(r.trace), f);
  }

  /** Lines 137-140 once every task completed without fault: the scope is disposed, then the job's
      end is stamped and the job context persisted. */
  method Close(l: JobRecord, w: World, job: JobContext, r: Run) returns (trace: seq<Event>)
    requires Inv(l, w, job, r) && r.next == |r.order| && SettledUpTo(r, r.next)
    requires Busy(Count(r.trace)) == {} && Faulted(Count(r.trace)) == {}
    modifies job
    ensures WellFormed(l, w, trace) && r.trace <= trace && Closed(l, w, trace)
  {
    AllFinished(l, w, r);
    var at := r.clock + w.delay(r.readings);
    job.end := at;
    ClosingOk(l, w, r.trace, at);
    trace := Closing(l, r.trace, at);
    FinishedEnded(l, w, trace);
  }

  /** Lines 136-140 once the loop ran out of tasks: `Task.WaitAll` waits for every task and throws
      if any faulted; otherwise the job is closed. */
  method Conclude(l: JobRecord, w: World, job: JobContext, r: Run) returns (outcome: Status<Failure>, trace: seq<Event>)
    requires Inv(l, w, job, r) && r.next == |r.order| && SettledUpTo(r, r.next)
    modifies job
    ensures WellFormed(l, w, trace) && r.trace <= trace
    ensures outcome.Fail? ==> outcome.error in Explanations(l, w, Count(trace)) && !Count(trace).jobEnded && !Good(l, w)
    ensures outcome.Done? ==> Closed(l, w, trace)
  {
    var r1, faulted := WaitAll(l, w, job, r);
    if faulted != {} {
      Abandoned(l, w, job, r1, TasksFaulted(faulted));
      return Fail(TasksFaulted(faulted)), r1.trace + [ScopeDisposed];
    }
    AdvanceSettles(r, r1, r1.next);
    trace := Close(l, w, job, r1);
    outcome := Done;
  }

  /** What `ExecuteJob` promises about a run on the stored job `l`: its events obey the rules of a
      run; it fails for want of a queue exactly when the job has none; a failure is accounted for by
      the events and leaves the job's end unstamped; success persists a job context in which the job
      carries an end time and so does every queued task but those that ran and returned another
      context object; and a job that nothing can make fail succeeds. */
  ghost predicate Reported(l: JobRecord, w: World, outcome: Status<Failure>, trace: seq<Event>) {
    WellFormed(l, w, trace) && |trace| >= 2
    && (outcome == Fail(QueueMissing) <==> l.queue.None?)
    && (outcome.Fail? ==> outcome.error in Explanations(l, w, Count(trace)) && !Count(trace).jobEnded)
    && (outcome.Done? ==> Closed(l, w, trace))
    && (Good(l, w) ==> outcome == Done)
  }

  /** `ExecuteJob(jobContextId, jct)` (lines 43-142) on a storage holding the jobs by ID. The
      outcome is `Done` when it returns and `Fail` with the reason when it throws. */
  method ExecuteJob(storage: map<string, JobRecord>, jobId: string, w: World)
    returns (outcome: Status<Failure>, trace: seq<Event>)
    ensures jobId !in storage ==> outcome == Fail(JobNotFound) && trace == []
    ensures jobId in storage ==> Reported(storage[jobId], w, outcome, trace)
  {
    if jobId !in storage {
      return Fail(JobNotFound), [];
    }
    var l := storage[jobId];
    var job := new JobContext(l);
    var at := 1 + w.delay(0);
    job.start := at;
    OpeningOk(l, w, at);
    trace := [JobStarted(at), Persisted(job.Record())];
    var queue := GetConcurrentQueue(job);
    if queue.Failure? {
      return Fail(queue.error), trace;
    }
    StableOrderIsUnique(Priorities(Queue(l)), queue.value);
    trace := trace + [ScopeOpened];
    Starting(l, w, job, queue.value, at);
    var r := Run(queue.value, 0, {}, {}, {}, {}, at, 1, trace);
    var stop;
    r, stop := RunTasks(l, w, job, r);
    if stop.Some? {
      Abandoned(l, w, job, r, stop.value);
      return Fail(stop.value), r.trace + [ScopeDisposed];
    }
    outcome, trace := Conclude(l, w, job, r);
  }
}

/** `PipelineServer.ExecuteJob`: loads a job context, stamps and persists its start, dequeues its
    tasks by priority and runs each one, waiting for earlier tasks before a sequential task and for a
    sequential task's execution after it, stamps and persists each task's end from its continuation,
    finally waits for everything, then stamps and persists the job's end. Every method below records
    what it does as events, and its contract ties the job context object to the replay of those
    events. Line numbers refer to `src/Hangfire.Pipeline/PipelineServer.cs`. */
module Server {
  import opened Wrappers
  import opened Text
  import opened Values
  import opened Contexts
  import opened Ordering
  import opened Steps
  import opened Traces

  /** The worker's local state beside the job context object: the concurrent queue (`order`, of
      which `order[next..]` is still queued), the tasks in `taskExecutions` whose execution or
      continuation is not complete, which of them faulted, the clock, and the events so far. */
  datatype Run = Run(
    order: seq<nat>,
    next: nat,
    executing: set<nat>,
    pending: set<nat>,
    execFaulted: set<nat>,
    contFaulted: set<nat>,
    clock: nat,
    readings: nat,
    trace: seq<Event>)

  /** How the events of task `k` so far fit together: they came in order, and the task's behaviour
      and queued end time agree with the path it took. */
  ghost predicate TaskOk(l: JobRecord, w: World, s: Tally, k: nat) {
    var q := Queue(l);
    (k in s.continued ==> k in s.executed)
    && (k in s.executed ==> k in s.launched)
    && (k in s.launched ==> k in s.created)
    && (k in s.created ==> k in s.started)
    && (k in s.ended ==> k in s.released && k in s.continued)
    && (k in s.released ==> k in s.ended && k !in s.execFaulted)
    && (k in s.execFaulted ==> k in s.executed)
    && (k in s.contFaulted ==> k in s.continued)
    && (k in s.continued ==> k in s.contFaulted || k in s.ended)
    && (k in s.launched ==> w.behaviour(k) == Succeeds || w.behaviour(k) == Faults)
    && (k in s.executed ==> (k in s.execFaulted <==> w.behaviour(k) == Faults))
    && (k in s.started ==> k < |q| && q[k].end == 0 && k in s.dequeued)
    && (k in s.skipped ==> k < |q| && q[k].end > 0 && k in s.dequeued)
    && (k in s.released ==> w.returned(k) != NoContext)
    && (k in s.contFaulted && k < |q| ==> w.behaviour(k) == Faults || w.returned(k) == NoContext || !UniqueId(l, w, k))
  }

  ghost predicate Marks(l: JobRecord, w: World, s: Tally) {
    forall k :: TaskOk(l, w, s, k)
  }

  /** The worker's state agrees with the tally of its events. */
  ghost predicate Agrees(l: JobRecord, w: World, r: Run, s: Tally) {
    r.next <= |r.order| && s.dequeued == r.order[..r.next] && !s.jobEnded
    && r.executing == Running(s) && r.pending == Pending(s)
    && r.execFaulted == s.execFaulted && r.contFaulted == s.contFaulted
    && r.clock >= s.stamp && r.clock >= 1 && Marks(l, w, s)
  }

  /** The run's state matches its events, inside the dependency scope. */
  ghost predicate Inv(l: JobRecord, w: World, job: JobContext, r: Run)
    reads job
  {
    l.queue.Some? && r.order == Order(l) && r.next <= |r.order|
    && WellFormed(l, w, r.trace) && InScope(l, r.trace)
    && job.Record() == Replay(l, r.trace) && Agrees(l, w, r, Count(r.trace))
  }

  /** Outstanding work: each running execution still has its continuation to run. */
  function Work(r: Run): nat {
    2 * |r.executing| + |r.pending|
  }

  /** What a step of the tasks, rather than of the worker, keeps: the worker's position in the
      queue and the tasks it dequeued, skipped, started, created and launched; no execution
      starts and only running executions can newly fault. */
  ghost predicate TasksAdvanced(r: Run, r': Run) {
    var s, s' := Count(r.trace), Count(r'.trace);
    r'.order == r.order && r'.next == r.next && r.trace <= r'.trace && r'.clock >= r.clock
    && s'.dequeued == s.dequeued && s'.skipped == s.skipped && s'.started == s.started
    && s'.created == s.created && s'.launched == s.launched
    && r'.executing <= r.executing && r'.execFaulted <= r.execFaulted + r.executing
  }

  lemma InScopeAppend(l: JobRecord, t: seq<Event>, e: Event)
    requires InScope(l, t) && e != ScopeDisposed
    ensures InScope(l, t + [e])
  {
    assert (t + [e])[2] == t[2];
  }

  /** The bookkeeping for appending `e` to the events of a run. */
  lemma Extend(l: JobRecord, w: World, t: seq<Event>, e: Event)
    requires Follows(l, w, t, e) && InScope(l, t) && e != ScopeDisposed
    ensures WellFormed(l, w, t + [e]) && InScope(l, t + [e])
    ensures Count(t + [e]) == Bump(Count(t), e) && Replay(l, t + [e]) == Apply(Replay(l, t), e)
  {
    WellFormedAppend(l, w, t, e);
    InScopeAppend(l, t, e);
    CountAppend(t, e);
    ReplayAppend(l, t, e);
  }

  lemma ExecutionEndAgrees(l: JobRecord, w: World, r: Run, k: nat)
    requires Agrees(l, w, r, Count(r.trace)) && k in r.executing
    ensures var f := w.behaviour(k) == Faults;
      Agrees(l, w, r.(executing := r.executing - {k}, pending := r.pending + {k},
                      execFaulted := if f then r.execFaulted + {k} else r.execFaulted,
                      trace := r.trace + [ExecutionEnded(k, f)]),
             Bump(Count(r.trace), ExecutionEnded(k, f)))
  {
    var s := Count(r.trace);
    var s' := Bump(s, ExecutionEnded(k, w.behaviour(k) == Faults));
    assert TaskOk(l, w, s, k);
    forall j ensures TaskOk(l, w, s', j) {
      assert TaskOk(l, w, s, j);
    }
  }

  /** `ExecuteTaskAsync`'s task completes, or faults when the task's behaviour says so. */
  method EndExecution(l: JobRecord, w: World, job: JobContext, r: Run, k: nat) returns (r': Run)
    requires Inv(l, w, job, r) && k in r.executing
    ensures Inv(l, w, job, r') && TasksAdvanced(r, r') && Work(r') < Work(r)
    ensures r'.trace == r.trace + [ExecutionEnded(k, w.behaviour(k) == Faults)]
    ensures r'.executing == r.executing - {k} && r'.pending == r.pending + {k}
    ensures r'.execFaulted == r.execFaulted + (if w.behaviour(k) == Faults then {k} else {})
    ensures r'.contFaulted == r.contFaulted
  {
    var f := w.behaviour(k) == Faults;
    var e := ExecutionEnded(k, f);
    assert ExecutionEndedOk(l, w, r.trace, k, f);
    Extend(l, w, r.trace, e);
    ExecutionEndAgrees(l, w, r, k);
    r' := r.(executing := r.executing - {k}, pending := r.pending + {k},
             execFaulted := if f then r.execFaulted + {k} else r.execFaulted, trace := r.trace + [e]);
  }

  lemma FaultedContinuationAgrees(l: JobRecord, w: World, r: Run, k: nat)
    requires Agrees(l, w, r, Count(r.trace)) && k in r.pending && (k in r.execFaulted || w.returned(k) == NoContext)
    ensures Agrees(l, w, r.(pending := r.pending - {k}, contFaulted := r.contFaulted + {k},
                            trace := r.trace + [ContinuationEnded(k, true)]),
                   Bump(Count(r.trace), ContinuationEnded(k, true)))
  {
    var s := Count(r.trace);
    var s' := Bump(s, ContinuationEnded(k, true));
    assert TaskOk(l, w, s, k);
    forall j ensures TaskOk(l, w, s', j) {
      assert TaskOk(l, w, s, j);
    }
  }

  /** The continuation of a faulted execution, where reading `continuation.Result` throws (line
      101), or of one that returned `null`, where reading its `Task` for the log throws (line 104):
      the instance is not released and the task gets no end time. */
  method FaultContinuation(l: JobRecord, w: World, job: JobContext, r: Run, k: nat) returns (r': Run)
    requires Inv(l, w, job, r) && k in r.pending && (k in r.execFaulted || w.returned(k) == NoContext)
    ensures Inv(l, w, job, r') && TasksAdvanced(r, r') && Work(r') < Work(r)
    ensures r'.trace == r.trace + [ContinuationEnded(k, true)]
    ensures r'.executing == r.executing && r'.pending == r.pending - {k}
    ensures r'.execFaulted == r.execFaulted && r'.contFaulted == r.contFaulted + {k}
  {
    var e := ContinuationEnded(k, true);
    assert TaskOk(l, w, Count(r.trace), k);
    assert ContinuationEndedOk(l, w, r.trace, k, true);
    Extend(l, w, r.trace, e);
    FaultedContinuationAgrees(l, w, r, k);
    r' := r.(pending := r.pending - {k}, contFaulted := r.contFaulted + {k}, trace := r.trace + [e]);
  }

  /** `UpdateJobContextForTaskAsync`: looks for the task's ID in the queue with `SingleOrDefault`,
      whose result it then drops, and returns the job context to be stored. */
  method UpdateJobContextForTask(job: JobContext, task: TaskContext) returns (r: Result<JobRecord, SequenceError>)
    ensures r.Success? <==> job.queue.Some? && SingleOrDefault(Ids(job.queue.value), task.id).Success?
    ensures r.Success? ==> r.value == job.Record()
    ensures r.Failure? ==> r.error == (if job.queue.None? then NoSequence else MoreThanOneMatch)
  {
    if job.queue.None? {
      return Failure(NoSequence);
    }
    var entry := SingleOrDefault(Ids(job.queue.value), task.id);
    if entry.Failure? {
      return Failure(MoreThanOneMatch);
    }
    return Success(job.Record());
  }

  /** The events a successful continuation of task `k` appends, under the lock, to `t`. */
  function Completion(l: JobRecord, w: World, t: seq<Event>, k: nat, at: nat): seq<Event>
    requires k < |Queue(l)|
  {
    var t2 := t + [InstanceReleased(k)] + [TaskEnded(k, at, Replacement(w, k))];
    if UniqueId(l, w, k) then t2 + [Persisted(Replay(l, t2))] + [ContinuationEnded(k, false)]
    else t2 + [ContinuationEnded(k, true)]
  }

  /** The tally after the continuation of task `k` completes at time `at`. */
  function Completed(s: Tally, k: nat, at: nat, unique: bool): Tally {
    s.(released := s.released + {k}, ended := s.ended + {k}, stamp := if at > s.stamp then at else s.stamp,
       continued := s.continued + {k}, contFaulted := if unique then s.contFaulted else s.contFaulted + {k})
  }

  lemma PersistOk(l: JobRecord, w: World, t: seq<Event>, k: nat, at: nat)
    requires |t| >= 1 && t[|t| - 1] == TaskEnded(k, at, Replacement(w, k)) && k < |Queue(l)| && UniqueId(l, w, k)
    ensures PersistedOk(l, w, t, Replay(l, t))
  {
  }

  lemma ContinuationOk(l: JobRecord, w: World, t: seq<Event>, p: Event, k: nat, at: nat)
    requires InScope(l, t) && k in Pending(Count(t)) && w.behaviour(k) == Succeeds && w.returned(k) != NoContext
    requires p.Persisted?
    requires |t| >= 1 && t[|t| - 1] == TaskEnded(k, at, Replacement(w, k)) && k < |Queue(l)| && UniqueId(l, w, k)
    requires Count(t + [p]) == Count(t)
    ensures ContinuationEndedOk(l, w, t + [p], k, false)
  {
    InScopeAppend(l, t, p);
    assert (t + [p])[|t| - 1] == TaskEnded(k, at, Replacement(w, k));
  }

  /** The continuation releases the instance and stamps the end of the returned context (lines
      101-117). */
  lemma ReleaseAndEndStep(l: JobRecord, w: World, t: seq<Event>, k: nat, at: nat)
    requires WellFormed(l, w, t) && InScope(l, t) && k in Pending(Count(t)) && w.behaviour(k) == Succeeds
    requires w.returned(k) != NoContext && at >= Count(t).stamp && k !in Count(t).ended && k !in Count(t).released
    ensures var e := TaskEnded(k, at, Replacement(w, k));
      var t2 := t + [InstanceReleased(k)] + [e];
      WellFormed(l, w, t2) && InScope(l, t2) && t <= t2
      && Count(t2) == Bump(Bump(Count(t), InstanceReleased(k)), e)
      && Replay(l, t2) == StampEnd(Replay(l, t), k, at, Replacement(w, k))
  {
    var t1 := t + [InstanceReleased(k)];
    var e := TaskEnded(k, at, Replacement(w, k));
    assert ReleasedOk(l, w, t, k);
    Extend(l, w, t, InstanceReleased(k));
    assert TaskEndedOk(w, t1, k, at, Replacement(w, k));
    Extend(l, w, t1, e);
    assert (t1 + [e])[..|t|] == t;
  }

  /** After the end stamp, a continuation whose task ID is unique persists the job context and
      completes. */
  lemma PersistStep(l: JobRecord, w: World, t: seq<Event>, k: nat, at: nat)
    requires WellFormed(l, w, t) && InScope(l, t) && k in Pending(Count(t)) && w.behaviour(k) == Succeeds
    requires w.returned(k) != NoContext
    requires |t| >= 1 && t[|t| - 1] == TaskEnded(k, at, Replacement(w, k)) && k < |Queue(l)| && UniqueId(l, w, k)
    ensures var t' := t + [Persisted(Replay(l, t))] + [ContinuationEnded(k, false)];
      WellFormed(l, w, t') && InScope(l, t') && t <= t'
      && Count(t') == Bump(Count(t), ContinuationEnded(k, false)) && Replay(l, t') == Replay(l, t)
  {
    var p := Persisted(Replay(l, t));
    PersistOk(l, w, t, k, at);
    Extend(l, w, t, p);
    ContinuationOk(l, w, t, p, k, at);
    Extend(l, w, t + [p], ContinuationEnded(k, false));
    assert (t + [p] + [ContinuationEnded(k, false)])[..|t|] == t;
  }

  lemma CompletedUnique(s: Tally, k: nat, at: nat, other: Option<TaskContext>)
    ensures Bump(Bump(Bump(s, InstanceReleased(k)), TaskEnded(k, at, other)), ContinuationEnded(k, false))
        == Completed(s, k, at, true)
  {
  }

  /** The continuation of a task whose returned context's ID is unique: release, end stamp,
      persist, completion. */
  lemma UniqueCompletionStep(l: JobRecord, w: World, t: seq<Event>, k: nat, at: nat)
    requires WellFormed(l, w, t) && InScope(l, t) && k in Pending(Count(t)) && w.behaviour(k) == Succeeds
    requires w.returned(k) != NoContext && k !in Count(t).released
    requires at >= Count(t).stamp && k !in Count(t).ended && k < |Queue(l)| && UniqueId(l, w, k)
    ensures var t' := Completion(l, w, t, k, at);
      WellFormed(l, w, t') && InScope(l, t') && t <= t'
      && Count(t') == Completed(Count(t), k, at, true)
      && Replay(l, t') == StampEnd(Replay(l, t), k, at, Replacement(w, k))
  {
    ReleaseAndEndStep(l, w, t, k, at);
    var e := TaskEnded(k, at, Replacement(w, k));
    var t2 := t + [InstanceReleased(k)] + [e];
    assert t2[|t2| - 1] == e;
    PersistStep(l, w, t2, k, at);
    CompletedUnique(Count(t), k, at, Replacement(w, k));
    PrefixGrows(t, t2, Completion(l, w, t, k, at));
  }

  /** When the returned context's ID is shared `SingleOrDefault` throws and the continuation
      faults. */
  lemma DuplicateCompletionStep(l: JobRecord, w: World, t: seq<Event>, k: nat, at: nat)
    requires WellFormed(l, w, t) && InScope(l, t) && k in Pending(Count(t)) && w.behaviour(k) == Succeeds
    requires w.returned(k) != NoContext && k !in Count(t).released
    requires at >= Count(t).stamp && k !in Count(t).ended && k < |Queue(l)| && !UniqueId(l, w, k)
    ensures var t' := Completion(l, w, t, k, at);
      WellFormed(l, w, t') && InScope(l, t') && t <= t'
      && Count(t') == Completed(Count(t), k, at, false)
      && Replay(l, t') == StampEnd(Replay(l, t), k, at, Replacement(w, k))
  {
    ReleaseAndEndStep(l, w, t, k, at);
    var e := TaskEnded(k, at, Replacement(w, k));
    var t2 := t + [InstanceReleased(k)] + [e];
    assert t2[|t2| - 1] == e;
    assert ContinuationEndedOk(l, w, t2, k, true);
    Extend(l, w, t2, ContinuationEnded(k, true));
    PrefixGrows(t, t2, t2 + [ContinuationEnded(k, true)]);
  }

  /** A prefix of a prefix is a prefix. */
  lemma PrefixGrows(a: seq<Event>, b: seq<Event>, c: seq<Event>)
    requires a <= b && b <= c
    ensures a <= c
  {
  }

  lemma CompletionStep(l: JobRecord, w: World, t: seq<Event>, k: nat, at: nat)
    requires WellFormed(l, w, t) && InScope(l, t) && k in Pending(Count(t)) && w.behaviour(k) == Succeeds
    requires w.returned(k) != NoContext && k !in Count(t).released
    requires at >= Count(t).stamp && k !in Count(t).ended && k < |Queue(l)|
    ensures var t' := Completion(l, w, t, k, at);
      WellFormed(l, w, t') && InScope(l, t') && t <= t'
      && Count(t') == Completed(Count(t), k, at, UniqueId(l, w, k))
      && Replay(l, t') == StampEnd(Replay(l, t), k, at, Replacement(w, k))
  {
    if UniqueId(l, w, k) {
      UniqueCompletionStep(l, w, t, k, at);
    } else {
      DuplicateCompletionStep(l, w, t, k, at);
    }
  }

  /** What the worker's state says about a task whose successful execution awaits its continuation. */
  lemma PendingTask(l: JobRecord, w: World, r: Run, k: nat)
    requires Agrees(l, w, r, Count(r.trace)) && k in r.pending && k !in r.execFaulted
    ensures var s := Count(r.trace);
      k in Pending(s) && w.behaviour(k) == Succeeds && k !in s.ended && k !in s.released && k < |Queue(l)|
      && r.clock >= s.stamp
  {
    assert TaskOk(l, w, Count(r.trace), k);
  }

  /** Stamping a task's end keeps the queue's shape and IDs. */
  lemma StampEndShape(l: JobRecord, t: seq<Event>, k: nat, at: nat, other: Option<TaskContext>)
    requires l.queue.Some? && k < |Queue(l)|
    ensures var j := Replay(l, t);
      j.queue.Some? && |Queue(j)| == |Queue(l)|
      && Ids(Queue(StampEnd(j, k, at, other))) == Ids(Queue(l))
      && Queue(StampEnd(j, k, at, other))[k].id == Queue(l)[k].id
  {
    ReplayShape(l, t);
    var j := Replay(l, t);
    IdsKept(l, t);
    if other.None? {
      var q := Queue(j)[k := Queue(j)[k].(end := at)];
      assert Queue(StampEnd(j, k, at, other)) == q;
      assert Ids(q) == Ids(Queue(j));
    }
  }

  lemma CompletionAgrees(l: JobRecord, w: World, r: Run, k: nat, at: nat)
    requires Agrees(l, w, r, Count(r.trace)) && k in r.pending && k !in r.execFaulted && at >= r.clock
    requires k < |Queue(l)| && w.returned(k) != NoContext
    ensures var u := UniqueId(l, w, k);
      Agrees(l, w, r.(pending := r.pending - {k}, contFaulted := if u then r.contFaulted else r.contFaulted + {k},
                      clock := at, readings := r.readings + 1, trace := Completion(l, w, r.trace, k, at)),
             Completed(Count(r.trace), k, at, u))
  {
    var s := Count(r.trace);
    var s' := Completed(s, k, at, UniqueId(l, w, k));
    assert TaskOk(l, w, s, k);
    forall j ensures TaskOk(l, w, s', j) {
      assert TaskOk(l, w, s, j);
    }
  }

  /** The worker's state after the continuation of task `k` completes at time `at`. */
  function AfterCompletion(l: JobRecord, w: World, r: Run, k: nat, at: nat): Run
    requires k < |Queue(l)|
  {
    r.(pending := r.pending - {k}, contFaulted := if UniqueId(l, w, k) then r.contFaulted else r.contFaulted + {k},
       clock := at, readings := r.readings + 1, trace := Completion(l, w, r.trace, k, at))
  }

  /** The continuation's events keep the invariant once the job context holds the stamped end. */
  lemma CompletionInv(l: JobRecord, w: World, job: JobContext, r: Run, k: nat, at: nat)
    requires l.queue.Some? && r.order == Order(l) && r.next <= |r.order|
    requires WellFormed(l, w, r.trace) && InScope(l, r.trace) && Agrees(l, w, r, Count(r.trace))
    requires k in r.pending && k !in r.execFaulted && w.returned(k) != NoContext && at >= r.clock && k < |Queue(l)|
    requires job.Record() == StampEnd(Replay(l, r.trace), k, at, Replacement(w, k))
    ensures Inv(l, w, job, AfterCompletion(l, w, r, k, at))
    ensures Count(AfterCompletion(l, w, r, k, at).trace) == Completed(Count(r.trace), k, at, UniqueId(l, w, k))
  {
    PendingTask(l, w, r, k);
    CompletionStep(l, w, r.trace, k, at);
    CompletionAgrees(l, w, r, k, at);
  }

  /** The job context the continuation of task `k` updates has the shape of the stored one. */
  lemma CompletionShape(l: JobRecord, w: World, r: Run, k: nat, at: nat)
    requires l.queue.Some? && Agrees(l, w, r, Count(r.trace)) && k in r.pending && k !in r.execFaulted
    ensures k < |Queue(l)|
    ensures var j, o := Replay(l, r.trace), Replacement(w, k);
      j.queue.Some? && |Queue(j)| == |Queue(l)|
      && Ids(Queue(StampEnd(j, k, at, o))) == Ids(Queue(l)) && Queue(StampEnd(j, k, at, o))[k].id == Queue(l)[k].id
  {
    PendingTask(l, w, r, k);
    StampEndShape(l, r.trace, k, at, Replacement(w, k));
  }

  /** A completed continuation finishes one unit of outstanding work and dequeues, starts and
      launches nothing. */
  lemma CompletionAdvances(l: JobRecord, w: World, r: Run, r': Run, k: nat, at: nat)
    requires k < |Queue(l)| && k in r.pending && at >= r.clock && r' == AfterCompletion(l, w, r, k, at)
    requires Count(r'.trace) == Completed(Count(r.trace), k, at, UniqueId(l, w, k))
    ensures TasksAdvanced(r, r') && Work(r') < Work(r)
  {
    assert |r'.pending| < |r.pending| by {
      assert r.pending == r'.pending + {k};
    }
  }

  /** Under the lock (lines 116-117): `innerTaskContext.End = DateTime.UtcNow`, then
      `AddCompletedTask(innerTaskContext)`, where the inner context is the queued one at position
      `k`, or `other` when the execution returned another object. Returns the stamped context. */
  method StampTaskEnd(job: JobContext, k: nat, at: nat, other: Option<TaskContext>) returns (inner: TaskContext)
    requires other.None? ==> job.queue.Some? && k < |job.queue.value|
    modifies job
    ensures job.Record() == StampEnd(old(job.Record()), k, at, other)
    ensures inner.end == at && OrEmpty(job.completed) == OrEmpty(old(job.completed)) + [inner]
    ensures inner == if other.Some? then other.value.(end := at) else job.queue.value[k]
  {
    if other.Some? {
      inner := other.value.(end := at);
    } else {
      var q := job.queue.value;
      job.queue := Some(q[k := q[k].(end := at)]);
      inner := job.queue.value[k];
    }
    job.AddCompletedTask(inner);
  }

  /** The continuation of a completed execution that returned a context: releases the instance,
      then under the lock stamps the returned context's end, appends it to the completed tasks and
      persists the job context. */
  method FinishContinuation(l: JobRecord, w: World, job: JobContext, r: Run, k: nat) returns (r': Run)
    requires Inv(l, w, job, r) && k in r.pending && k !in r.execFaulted && w.returned(k) != NoContext
    modifies job
    ensures k < |Queue(l)| && r'.clock >= r.clock && r' == AfterCompletion(l, w, r, k, r'.clock)
    ensures Inv(l, w, job, r')
    ensures Count(r'.trace) == Completed(Count(r.trace), k, r'.clock, UniqueId(l, w, k))
  {
    var at := r.clock + w.delay(r.readings);
    CompletionShape(l, w, r, k, at);
    var inner := StampTaskEnd(job, k, at, Replacement(w, k));
    assert inner.id == InnerId(l, w, k);
    var stored := UpdateJobContextForTask(job, inner);
    r' := r.(pending := r.pending - {k}, contFaulted := if stored.Success? then r.contFaulted else r.contFaulted + {k},
             clock := at, readings := r.readings + 1, trace := Completion(l, w, r.trace, k, at));
    assert r' == AfterCompletion(l, w, r, k, at);
    CompletionInv(l, w, job, r, k, at);
  }

  /** One step of the tasks running beside the worker: an execution ends, or a continuation runs. */
  method Background(l: JobRecord, w: World, job: JobContext, r: Run) returns (r': Run)
    requires Inv(l, w, job, r) && Work(r) > 0
    modifies job
    ensures Inv(l, w, job, r') && TasksAdvanced(r, r') && Work(r') < Work(r)
  {
    var k :| k in r.executing + r.pending;
    if k in r.executing {
      r' := EndExecution(l, w, job, r, k);
    } else if k in r.execFaulted || w.returned(k) == NoContext {
      r' := FaultContinuation(l, w, job, r, k);
    } else {
      r' := FinishContinuation(l, w, job, r, k);
      CompletionAdvances(l, w, r, r', k, r'.clock);
    }
  }

  /** `Task.WaitAll(taskExecutions)`: blocks until every execution and continuation started so far
      is complete, and reports the tasks whose execution or continuation faulted. */
  method WaitAll(l: JobRecord, w: World, job: JobContext, r: Run) returns (r': Run, faulted: set<nat>)
    requires Inv(l, w, job, r)
    modifies job
    ensures Inv(l, w, job, r') && TasksAdvanced(r, r')
    ensures r'.executing == {} && r'.pending == {} && Busy(Count(r'.trace)) == {}
    ensures faulted == Faulted(Count(r'.trace))
  {
    r' := r;
    while Work(r') > 0
      invariant Inv(l, w, job, r') && TasksAdvanced(r, r')
      decreases Work(r')
    {
      r' := Background(l, w, job, r');
    }
    faulted := r'.execFaulted + r'.contFaulted;
  }

  /** `taskExecution.Wait()`: blocks until the execution of task `k` is complete; its continuation
      may still be running. */
  method WaitExecution(l: JobRecord, w: World, job: JobContext, r: Run, k: nat) returns (r': Run)
    requires Inv(l, w, job, r)
    modifies job
    ensures Inv(l, w, job, r') && TasksAdvanced(r, r') && k !in r'.executing
  {
    r' := r;
    while k in r'.executing
      invariant Inv(l, w, job, r') && TasksAdvanced(r, r')
      decreases Work(r')
    {
      r' := Background(l, w, job, r');
    }
  }

  /** Up to `n` steps of the running tasks, while the worker goes on. */
  method Interleave(l: JobRecord, w: World, job: JobContext, r: Run, n: nat) returns (r': Run)
    requires Inv(l, w, job, r)
    modifies job
    ensures Inv(l, w, job, r') && TasksAdvanced(r, r')
  {
    r' := r;
    var i := 0;
    while i < n && Work(r') > 0
      invariant Inv(l, w, job, r') && TasksAdvanced(r, r')
    {
      r' := Background(l, w, job, r');
      i := i + 1;
    }
  }

  /** `GetConcurrentQueue`: the queued tasks ordered stably by priority (`OrderBy` throws
      `ArgumentNullException` when there is no queue), enqueued one by one. Entries are positions
      in the job's queue, since the concurrent queue holds the same task contexts. */
  method GetConcurrentQueue(job: JobContext) returns (r: Result<seq<nat>, Failure>)
    ensures r.Failure? <==> job.queue.None?
    ensures r.Failure? ==> r.error == QueueMissing
    ensures r.Success? ==> IsStableOrder(Priorities(job.queue.value), r.value)
  {
    if job.queue.None? {
      return Failure(QueueMissing);
    }
    var ordered := OrderByPriority(Priorities(job.queue.value));
    var queue: seq<nat> := [];
    for i := 0 to |ordered|
      invariant queue == ordered[..i]
    {
      queue := queue + [ordered[i]];
    }
    assert queue == ordered;
    return Success(queue);
  }

  /** Neither a running execution nor a faulted one belongs to a sequential task. */
  ghost predicate Calm(l: JobRecord, r: Run) {
    (forall j :: j in r.executing ==> j < |Queue(l)| && Queue(l)[j].runParallel)
    && (forall j :: j in r.execFaulted ==> j < |Queue(l)| && Queue(l)[j].runParallel)
  }

  /** What a failure of `ExecuteJob` says about the tasks, the world and the events before it. */
  ghost predicate Explains(l: JobRecord, w: World, s: Tally, f: Failure) {
    var q := Queue(l);
    var d := s.dequeued;
    match f
    case JobNotFound => false
    case QueueMissing => l.queue.None?
    case MissingTaskName(k) =>
      |d| > 0 && d[|d| - 1] == k && k < |q| && IsNullOrWhiteSpace(q[k].task)
    case MissingTaskId(k) =>
      |d| > 0 && d[|d| - 1] == k && k < |q| && !IsNullOrWhiteSpace(q[k].task) && IsNullOrWhiteSpace(q[k].id)
    case Cancelled(c) =>
      0 < |d| <= |q| && d[|d| - 1] < |q| && IsValidTask(q[d[|d| - 1]])
      && c != Proceed && c == CheckForCancellation(w.token(|d| - 1))
    case CreateFailed(k) => k in s.started && w.behaviour(k) == CreateFails
    case ExecutionThrew(k) => k in s.created && w.behaviour(k) == ThrowsOnCall
    case ExecutionFaulted(k) => k in s.execFaulted && k < |q| && !q[k].runParallel
    case TasksFaulted(ks) => ks != {} && ks == Faulted(s)
  }

  /** A job that failed for cancellation leaves its internal source cancelled: `cts.Cancel()` at
      line 251 when only the Hangfire token was cancelled. */
  lemma CancelledLeavesSourceCancelled(l: JobRecord, w: World, s: Tally, c: CancelCheck)
    requires Explains(l, w, s, Cancelled(c))
    ensures |s.dequeued| > 0 && InternalSourceCancelled(w.token(|s.dequeued| - 1))
  {
  }

  /** The failures that the events tallied in `s` account for. */
  ghost function Explanations(l: JobRecord, w: World, s: Tally): iset<Failure> {
    iset f | Explains(l, w, s, f)
  }

  lemma DequeueAgrees(l: JobRecord, w: World, r: Run)
    requires Agrees(l, w, r, Count(r.trace)) && r.next < |r.order|
    ensures var k := r.order[r.next];
      Agrees(l, w, r.(next := r.next + 1, trace := r.trace + [Dequeued(k)]), Bump(Count(r.trace), Dequeued(k)))
  {
    var k := r.order[r.next];
    var s := Count(r.trace);
    var s' := Bump(s, Dequeued(k));
    assert r.order[..r.next + 1] == r.order[..r.next] + [k];
    forall j ensures TaskOk(l, w, s', j) {
      assert TaskOk(l, w, s, j);
    }
  }

  /** The position dequeued next was not dequeued before, so it has not started. */
  lemma NextIsNew(l: JobRecord, w: World, r: Run)
    requires Agrees(l, w, r, Count(r.trace)) && r.order == Order(l) && r.next < |r.order|
    ensures var k := r.order[r.next];
      k !in Count(r.trace).started && k !in Count(r.trace).ended && k !in Count(r.trace).dequeued
  {
    var k := r.order[r.next];
    assert TaskOk(l, w, Count(r.trace), k);
    forall i | 0 <= i < r.next ensures r.order[i] != k {
      assert Before(Priorities(Queue(l)), r.order[i], k);
    }
  }

  /** `queue.TryDequeue`: the worker takes the next position of the order. */
  method Dequeue(l: JobRecord, w: World, job: JobContext, r: Run) returns (r': Run, k: nat)
    requires Inv(l, w, job, r) && r.next < |r.order|
    ensures Inv(l, w, job, r') && k == r.order[r.next] && k < |Queue(l)| && r.next < |Queue(l)|
    ensures r' == r.(next := r.next + 1, trace := r.trace + [Dequeued(k)])
    ensures Count(r'.trace) == Bump(Count(r.trace), Dequeued(k)) && k !in Count(r'.trace).started
    ensures |Count(r'.trace).dequeued| == r.next + 1 && Count(r'.trace).dequeued[r.next] == k
    ensures job.queue.Some? && |job.queue.value| == |Queue(l)|
    ensures SameTask(job.queue.value[k], Queue(l)[k]) && job.queue.value[k].end == Queue(l)[k].end
  {
    k := r.order[r.next];
    NextIsNew(l, w, r);
    assert DequeuedOk(l, r.trace, k);
    Extend(l, w, r.trace, Dequeued(k));
    DequeueAgrees(l, w, r);
    r' := r.(next := r.next + 1, trace := r.trace + [Dequeued(k)]);
    ReplayShape(l, r.trace);
  }

  /** The checks of lines 68-74 on the task dequeued as the `n`-th, in terms of the events. */
  lemma AdmitVerdict(l: JobRecord, w: World, t: seq<Event>, k: nat, task: TaskContext, n: nat)
    requires InScope(l, t) && k < |Queue(l)| && n < |Queue(l)| && SameTask(task, Queue(l)[k])
    requires |Count(t).dequeued| == n + 1 && Count(t).dequeued[n] == k
    ensures ValidateTask(task, k).None? && CheckForCancellation(w.token(n)) == Proceed <==> Admitted(l, w, t, k)
    ensures ValidateTask(task, k).Some? ==> ValidateTask(task, k).value in Explanations(l, w, Count(t))
    ensures ValidateTask(task, k).None? && CheckForCancellation(w.token(n)) != Proceed ==>
              Cancelled(CheckForCancellation(w.token(n))) in Explanations(l, w, Count(t))
  {
    assert IsValidTask(Queue(l)[k]) == ValidateTask(task, k).None?;
  }

  /** `queue.TryDequeue`, then the checks of lines 68-74: the task needs a name and an ID, and
      neither cancellation token may be cancelled. */
  method Admit(l: JobRecord, w: World, job: JobContext, r: Run)
    returns (r': Run, k: nat, task: TaskContext, stop: Option<Failure>)
    requires Inv(l, w, job, r) && r.next < |r.order|
    ensures Inv(l, w, job, r') && k == r.order[r.next] && k < |Queue(l)|
    ensures r' == r.(next := r.next + 1, trace := r.trace + [Dequeued(k)])
    ensures Count(r'.trace) == Bump(Count(r.trace), Dequeued(k)) && k !in Count(r'.trace).started
    ensures SameTask(task, Queue(l)[k]) && task.end == Queue(l)[k].end
    ensures stop.None? <==> Admitted(l, w, r'.trace, k)
    ensures stop.Some? ==> stop.value in Explanations(l, w, Count(r'.trace))
  {
    r', k := Dequeue(l, w, job, r);
    task := job.queue.value[k];
    AdmitVerdict(l, w, r'.trace, k, task, r.next);
    var invalid := ValidateTask(task, k);
    if invalid.Some? {
      return r', k, task, invalid;
    }
    var check := CheckForCancellation(w.token(r.next));
    if check != Proceed {
      return r', k, task, Some(Cancelled(check));
    }
    stop := None;
  }

  lemma SkipAgrees(l: JobRecord, w: World, r: Run, k: nat)
    requires Agrees(l, w, r, Count(r.trace)) && Admitted(l, w, r.trace, k) && Queue(l)[k].end > 0
    ensures Agrees(l, w, r.(trace := r.trace + [Skipped(k)]), Bump(Count(r.trace), Skipped(k)))
  {
    var s := Count(r.trace);
    var s' := Bump(s, Skipped(k));
    forall j ensures TaskOk(l, w, s', j) {
      assert TaskOk(l, w, s, j);
    }
  }

  /** A task whose end time is already set is skipped (line 76). */
  method Skip(l: JobRecord, w: World, job: JobContext, r: Run, k: nat) returns (r': Run)
    requires Inv(l, w, job, r) && Admitted(l, w, r.trace, k) && r.trace[|r.trace| - 1] == Dequeued(k)
    requires Queue(l)[k].end > 0
    ensures Inv(l, w, job, r') && r' == r.(trace := r.trace + [Skipped(k)])
    ensures Count(r'.trace) == Bump(Count(r.trace), Skipped(k))
  {
    assert SkippedOk(l, w, r.trace, k);
    Extend(l, w, r.trace, Skipped(k));
    SkipAgrees(l, w, r, k);
    r' := r.(trace := r.trace + [Skipped(k)]);
  }

  lemma StartOk(l: JobRecord, w: World, r: Run, k: nat, at: nat)
    requires Agrees(l, w, r, Count(r.trace)) && Admitted(l, w, r.trace, k) && Queue(l)[k].end == 0
    requires Calm(l, r) && k !in Count(r.trace).started && at >= r.clock
    requires !Queue(l)[k].runParallel ==> r.executing == {} && r.pending == {} && r.execFaulted + r.contFaulted == {}
    ensures TaskStartedOk(l, w, r.trace, k, at)
  {
    var s := Count(r.trace);
    if !Queue(l)[k].runParallel {
      assert Busy(s) == {} by {
        forall j | j in s.launched ensures j in s.continued {
          assert TaskOk(l, w, s, j);
        }
      }
    }
  }

  lemma StartAgrees(l: JobRecord, w: World, r: Run, k: nat, at: nat)
    requires Agrees(l, w, r, Count(r.trace)) && Admitted(l, w, r.trace, k) && Queue(l)[k].end == 0
    requires k !in Count(r.trace).started && at >= r.clock
    ensures Agrees(l, w, r.(clock := at, readings := r.readings + 1, trace := r.trace + [TaskStarted(k, at)]),
                   Bump(Count(r.trace), TaskStarted(k, at)))
    ensures k !in Bump(Count(r.trace), TaskStarted(k, at)).created
  {
    var s := Count(r.trace);
    var s' := Bump(s, TaskStarted(k, at));
    assert TaskOk(l, w, s, k);
    forall j ensures TaskOk(l, w, s', j) {
      assert TaskOk(l, w, s, j);
    }
  }

  /** `taskContext.Start = DateTime.UtcNow` (line 89). */
  method StartTask(l: JobRecord, w: World, job: JobContext, r: Run, k: nat) returns (r': Run)
    requires Inv(l, w, job, r) && Admitted(l, w, r.trace, k) && Queue(l)[k].end == 0
    requires Calm(l, r) && k !in Count(r.trace).started
    requires !Queue(l)[k].runParallel ==> r.executing == {} && r.pending == {} && r.execFaulted + r.contFaulted == {}
    modifies job
    ensures Inv(l, w, job, r') && r'.clock >= r.clock
    ensures r' == r.(clock := r'.clock, readings := r.readings + 1, trace := r.trace + [TaskStarted(k, r'.clock)])
    ensures Count(r'.trace) == Bump(Count(r.trace), TaskStarted(k, r'.clock))
    ensures k !in Count(r'.trace).created
  {
    var at := r.clock + w.delay(r.readings);
    StartOk(l, w, r, k, at);
    Extend(l, w, r.trace, TaskStarted(k, at));
    StartAgrees(l, w, r, k, at);
    ReplayShape(l, r.trace);
    var q := job.queue.value;
    job.queue := Some(q[k := q[k].(start := at)]);
    assert job.Record() == StampStart(Replay(l, r.trace), k, at);
    r' := r.(clock := at, readings := r.readings + 1, trace := r.trace + [TaskStarted(k, at)]);
  }

  lemma LaunchAgrees(l: JobRecord, w: World, r: Run, k: nat)
    requires Agrees(l, w, r, Count(r.trace)) && k in Count(r.trace).created && k !in Count(r.trace).launched
    requires w.behaviour(k) == Succeeds || w.behaviour(k) == Faults
    ensures Agrees(l, w, r.(executing := r.executing + {k}, trace := r.trace + [Launched(k)]),
                   Bump(Count(r.trace), Launched(k)))
  {
    var s := Count(r.trace);
    var s' := Bump(s, Launched(k));
    assert TaskOk(l, w, s, k);
    forall j ensures TaskOk(l, w, s', j) {
      assert TaskOk(l, w, s, j);
    }
  }

  lemma CreateAgrees(l: JobRecord, w: World, r: Run, k: nat)
    requires Agrees(l, w, r, Count(r.trace)) && k in Count(r.trace).started && k !in Count(r.trace).created
    ensures Agrees(l, w, r.(trace := r.trace + [InstanceCreated(k)]), Bump(Count(r.trace), InstanceCreated(k)))
    ensures k !in Count(r.trace).launched
  {
    var s := Count(r.trace);
    var s' := Bump(s, InstanceCreated(k));
    assert TaskOk(l, w, s, k);
    forall j ensures TaskOk(l, w, s', j) {
      assert TaskOk(l, w, s, j);
    }
  }

  lemma JustStarted(t: seq<Event>, k: nat, at: nat)
    requires t != [] && t[|t| - 1] == TaskStarted(k, at)
    ensures k in Count(t).started
  {
    CountAppend(t[..|t| - 1], TaskStarted(k, at));
    assert t[..|t| - 1] + [TaskStarted(k, at)] == t;
  }

  lemma CreateStep(l: JobRecord, w: World, t: seq<Event>, k: nat, at: nat)
    requires WellFormed(l, w, t) && InScope(l, t) && t[|t| - 1] == TaskStarted(k, at) && w.behaviour(k) != CreateFails
    ensures var t' := t + [InstanceCreated(k)];
      WellFormed(l, w, t') && InScope(l, t') && Count(t') == Bump(Count(t), InstanceCreated(k))
      && Replay(l, t') == Replay(l, t)
  {
    assert CreatedOk(l, w, t, k);
    Extend(l, w, t, InstanceCreated(k));
  }

  lemma LaunchStep(l: JobRecord, w: World, t: seq<Event>, k: nat)
    requires WellFormed(l, w, t) && InScope(l, t) && t[|t| - 1] == InstanceCreated(k)
    requires w.behaviour(k) == Succeeds || w.behaviour(k) == Faults
    ensures var t' := t + [Launched(k)];
      WellFormed(l, w, t') && InScope(l, t') && Count(t') == Bump(Count(t), Launched(k))
      && Replay(l, t') == Replay(l, t)
  {
    assert LaunchedOk(l, w, t, k);
    Extend(l, w, t, Launched(k));
  }

  /** `CreateTaskInstance` (line 94): throws when the task factory cannot create the task. */
  method CreateInstance(l: JobRecord, w: World, job: JobContext, r: Run, k: nat) returns (r': Run, stop: Option<Failure>)
    requires Inv(l, w, job, r) && r.trace[|r.trace| - 1] == TaskStarted(k, r.clock)
    requires k !in Count(r.trace).created
    ensures Inv(l, w, job, r')
    ensures stop.None? ==> k in Count(r'.trace).created && k !in Count(r'.trace).launched
    ensures stop.Some? <==> w.behaviour(k) == CreateFails
    ensures stop.Some? ==> r' == r && stop.value == CreateFailed(k) && stop.value in Explanations(l, w, Count(r.trace))
    ensures stop.None? ==> r' == r.(trace := r.trace + [InstanceCreated(k)])
    ensures stop.None? ==> Count(r'.trace) == Bump(Count(r.trace), InstanceCreated(k))
  {
    JustStarted(r.trace, k, r.clock);
    if w.behaviour(k) == CreateFails {
      return r, Some(CreateFailed(k));
    }
    CreateStep(l, w, r.trace, k, r.clock);
    CreateAgrees(l, w, r, k);
    return r.(trace := r.trace + [InstanceCreated(k)]), None;
  }

  /** `ExecuteTaskAsync` (line 97): throws before it returns, or returns the running task. */
  method ExecuteTask(l: JobRecord, w: World, job: JobContext, r: Run, k: nat) returns (r': Run, stop: Option<Failure>)
    requires Inv(l, w, job, r) && r.trace[|r.trace| - 1] == InstanceCreated(k) && w.behaviour(k) != CreateFails
    requires k in Count(r.trace).created && k !in Count(r.trace).launched
    ensures Inv(l, w, job, r')
    ensures stop.Some? <==> w.behaviour(k) == ThrowsOnCall
    ensures stop.Some? ==> r' == r && stop.value == ExecutionThrew(k) && stop.value in Explanations(l, w, Count(r.trace))
    ensures stop.None? ==> r' == r.(executing := r.executing + {k}, trace := r.trace + [Launched(k)])
    ensures stop.None? ==> Count(r'.trace) == Bump(Count(r.trace), Launched(k))
  {
    if w.behaviour(k) == ThrowsOnCall {
      return r, Some(ExecutionThrew(k));
    }
    LaunchStep(l, w, r.trace, k);
    LaunchAgrees(l, w, r, k);
    return r.(executing := r.executing + {k}, trace := r.trace + [Launched(k)]), None;
  }

  /** The tasks dequeued before position `n` were skipped or started, and every started task
      was launched. */
  ghost predicate SettledUpTo(r: Run, n: nat) {
    var s := Count(r.trace);
    n <= |r.order|
    && (forall i :: 0 <= i < n ==> r.order[i] in s.started || r.order[i] in s.skipped)
    && s.started <= s.launched
  }

  /** The start of one loop iteration: the tasks take their steps, then the worker dequeues and
      checks the next task (lines 66-74). */
  method Arrive(l: JobRecord, w: World, job: JobContext, r: Run)
    returns (r': Run, k: nat, task: TaskContext, stop: Option<Failure>)
    requires Inv(l, w, job, r) && r.next < |r.order| && Calm(l, r) && SettledUpTo(r, r.next)
    modifies job
    ensures Inv(l, w, job, r') && r'.order == r.order && r'.next == r.next + 1
    ensures k == r.order[r.next] && k < |Queue(l)| && k !in Count(r'.trace).started
    ensures SameTask(task, Queue(l)[k]) && task.end == Queue(l)[k].end
    ensures Calm(l, r') && SettledUpTo(r', r.next) && r'.trace[|r'.trace| - 1] == Dequeued(k)
    ensures stop.None? <==> Admitted(l, w, r'.trace, k)
    ensures stop.Some? ==> stop.value in Explanations(l, w, Count(r'.trace))
  {
    var r0 := Interleave(l, w, job, r, w.progress(r.next));
    r', k, task, stop := Admit(l, w, job, r0);
  }
}

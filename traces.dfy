/** What a run of `ExecuteJob` does, as a sequence of events, and the rules every run obeys.
    Tasks are named by their position `k` in the job's queue as loaded from storage. Events of the
    worker thread (dequeue, start, create, launch the task) interleave with events of the tasks
    themselves (execution ends, continuation releases the instance, stamps the end and persists). */
module Traces {
  import opened Wrappers
  import opened Text
  import opened Values
  import opened Contexts
  import opened Ordering
  import opened Steps

  datatype Event =
    | JobStarted(at: nat)         // `jobContext.Start = DateTime.UtcNow`
    | Persisted(snapshot: JobRecord) // `UpdateJobContextAsync` stores the job context
    | ScopeOpened                 // `GetJobDependencyScope()`
    | Dequeued(k: nat)            // `queue.TryDequeue`
    | Skipped(k: nat)             // the task already has an end time
    | TaskStarted(k: nat, at: nat)  // `taskContext.Start = DateTime.UtcNow`
    | InstanceCreated(k: nat)     // `CreateTaskInstance`
    | Launched(k: nat)            // `ExecuteTaskAsync` returned a running task
    | ExecutionEnded(k: nat, faulted: bool)
    | InstanceReleased(k: nat)    // the continuation calls `ReleaseTaskInstance`
    | TaskEnded(k: nat, at: nat, other: Option<TaskContext>)
                                  // `End = DateTime.UtcNow`, `AddCompletedTask` on the returned
                                  // context: the queued one, or `other` when it is another object
    | ContinuationEnded(k: nat, faulted: bool)
    | ScopeDisposed
    | JobEnded(at: nat)           // `jobContext.End = DateTime.UtcNow`

  /** What the events so far add up to: the positions dequeued, in order; the tasks that had each
      kind of event; the latest clock reading; whether the job's end was stamped. */
  datatype Tally = Tally(
    dequeued: seq<nat>,
    skipped: set<nat>,
    started: set<nat>,
    created: set<nat>,
    launched: set<nat>,
    executed: set<nat>,
    execFaulted: set<nat>,
    released: set<nat>,
    ended: set<nat>,
    continued: set<nat>,
    contFaulted: set<nat>,
    stamp: nat,
    jobEnded: bool)

  /** The tally after one more event. */
  function Bump(s: Tally, e: Event): (s': Tally)
    ensures s'.stamp >= s.stamp
  {
    match e
    case JobStarted(at) => s.(stamp := if at > s.stamp then at else s.stamp)
    case Persisted(_) => s
    case ScopeOpened => s
    case Dequeued(k) => s.(dequeued := s.dequeued + [k])
    case Skipped(k) => s.(skipped := s.skipped + {k})
    case TaskStarted(k, at) => s.(started := s.started + {k}, stamp := if at > s.stamp then at else s.stamp)
    case InstanceCreated(k) => s.(created := s.created + {k})
    case Launched(k) => s.(launched := s.launched + {k})
    case ExecutionEnded(k, f) =>
      s.(executed := s.executed + {k}, execFaulted := if f then s.execFaulted + {k} else s.execFaulted)
    case InstanceReleased(k) => s.(released := s.released + {k})
    case TaskEnded(k, at, _) => s.(ended := s.ended + {k}, stamp := if at > s.stamp then at else s.stamp)
    case ContinuationEnded(k, f) =>
      s.(continued := s.continued + {k}, contFaulted := if f then s.contFaulted + {k} else s.contFaulted)
    case ScopeDisposed => s
    case JobEnded(at) => s.(jobEnded := true, stamp := if at > s.stamp then at else s.stamp)
  }

  function Count(t: seq<Event>): Tally
    decreases |t|
  {
    if t == [] then Tally([], {}, {}, {}, {}, {}, {}, {}, {}, {}, {}, 0, false)
    else Bump(Count(t[..|t| - 1]), t[|t| - 1])
  }

  /** Tasks whose execution is running. */
  function Running(s: Tally): set<nat> {
    s.launched - s.executed
  }

  /** Tasks whose execution ended and whose continuation has not. */
  function Pending(s: Tally): set<nat> {
    s.executed - s.continued
  }

  /** Tasks in `taskExecutions` that are not yet complete. */
  function Busy(s: Tally): set<nat> {
    s.launched - s.continued
  }

  /** Tasks whose execution or continuation faulted. */
  function Faulted(s: Tally): set<nat> {
    s.execFaulted + s.contFaulted
  }

  /** The clock reading an event records, if any. */
  function Stamp(e: Event): nat {
    if e.JobStarted? || e.TaskStarted? || e.TaskEnded? || e.JobEnded? then e.at else 0
  }

  function Queue(j: JobRecord): seq<TaskContext> {
    OrEmpty(j.queue)
  }

  function Priorities(q: seq<TaskContext>): (p: seq<Int32>)
    ensures |p| == |q| && forall i :: 0 <= i < |q| ==> p[i] == q[i].priority
  {
    seq(|q|, i requires 0 <= i < |q| => q[i].priority)
  }

  /** The order in which the tasks of job `l` are dequeued. */
  function Order(l: JobRecord): (o: seq<nat>)
    ensures IsStableOrder(Priorities(Queue(l)), o)
  {
    OrderByPriority(Priorities(Queue(l)))
  }

  /** The job after writing `at` into the start of the task at position `k`. */
  function StampStart(j: JobRecord, k: nat, at: nat): JobRecord {
    if k < |Queue(j)| then j.(queue := Some(Queue(j)[k := Queue(j)[k].(start := at)])) else j
  }

  /** The other context object a task's successful execution returned, if it did. */
  function Replacement(w: World, k: nat): Option<TaskContext> {
    if w.returned(k).OtherContext? then Some(w.returned(k).ctx) else None
  }

  /** The job after writing `at` into the end of the context the execution of task `k` returned and
      appending that context to the completed tasks. When it is the queued context the entry at
      position `k` changes; when it is `other`, the queue is left as it was. */
  function StampEnd(j: JobRecord, k: nat, at: nat, other: Option<TaskContext>): JobRecord {
    match other
    case Some(c) => j.WithCompleted(c.(end := at))
    case None =>
      if k < |Queue(j)| then
        var q := Queue(j)[k := Queue(j)[k].(end := at)];
        j.(queue := Some(q)).WithCompleted(q[k])
      else j
  }

  /** How an event changes the job context. */
  function Apply(j: JobRecord, e: Event): JobRecord {
    match e
    case JobStarted(at) => j.(start := at)
    case TaskStarted(k, at) => StampStart(j, k, at)
    case TaskEnded(k, at, other) => StampEnd(j, k, at, other)
    case JobEnded(at) => j.(end := at)
    case _ => j
  }

  /** The job context after the events `t`, starting from `l` as loaded. */
  function Replay(l: JobRecord, t: seq<Event>): JobRecord
    decreases |t|
  {
    if t == [] then l else Apply(Replay(l, t[..|t| - 1]), t[|t| - 1])
  }

  /** Between opening and disposing the dependency scope. */
  predicate InScope(l: JobRecord, p: seq<Event>) {
    l.queue.Some? && |p| >= 3 && p[2] == ScopeOpened && ScopeDisposed !in p
  }

  /** The ID of the context the execution of task `k` returned. */
  function InnerId(l: JobRecord, w: World, k: nat): Option<string>
    requires k < |Queue(l)|
  {
    if w.returned(k).OtherContext? then w.returned(k).ctx.id else Queue(l)[k].id
  }

  /** Whether `UpdateJobContextForTaskAsync` succeeds for the context the task at position `k`
      returned: `SingleOrDefault` finds its ID at most once in the queue. */
  predicate UniqueId(l: JobRecord, w: World, k: nat)
    requires k < |Queue(l)|
  {
    SingleOrDefault(Ids(Queue(l)), InnerId(l, w, k)).Success?
  }

  /** The job context is stored after its start, after its end, and by a task's continuation
      when `SingleOrDefault` does not throw. */
  ghost predicate PersistedOk(l: JobRecord, w: World, p: seq<Event>, snapshot: JobRecord) {
    snapshot == Replay(l, p) && p != [] &&
    (p[|p| - 1].JobStarted? || p[|p| - 1].JobEnded? ||
     (p[|p| - 1].TaskEnded? && p[|p| - 1].k < |Queue(l)| && UniqueId(l, w, p[|p| - 1].k)))
  }

  /** Tasks are dequeued in stable priority order. */
  ghost predicate DequeuedOk(l: JobRecord, p: seq<Event>, k: nat) {
    var d := Count(p).dequeued;
    InScope(l, p) && |d| < |Order(l)| && k == Order(l)[|d|]
  }

  /** The task just dequeued passed its checks. */
  ghost predicate Admitted(l: JobRecord, w: World, p: seq<Event>, k: nat) {
    var d := Count(p).dequeued;
    InScope(l, p) && |d| > 0 && d[|d| - 1] == k && k < |Queue(l)| && IsValidTask(Queue(l)[k])
    && CheckForCancellation(w.token(|d| - 1)) == Proceed
  }

  /** A task that already has an end time is skipped. */
  ghost predicate SkippedOk(l: JobRecord, w: World, p: seq<Event>, k: nat) {
    Admitted(l, w, p, k) && p[|p| - 1] == Dequeued(k) && Queue(l)[k].end > 0
  }

  /** A task starts at once if it runs in parallel; a sequential task starts only after every
      earlier execution and continuation completed without fault; no task starts while a
      sequential task's execution runs. */
  ghost predicate TaskStartedOk(l: JobRecord, w: World, p: seq<Event>, k: nat, at: nat) {
    var q := Queue(l);
    var s := Count(p);
    Admitted(l, w, p, k) && q[k].end == 0 && at >= s.stamp && k !in s.started
    && (forall j :: j in Running(s) ==> j < |q| && q[j].runParallel)
    && (forall j :: j in s.execFaulted ==> j < |q| && q[j].runParallel)
    && (!q[k].runParallel ==> Busy(s) == {} && Faulted(s) == {})
  }

  /** A continuation faults when the execution faulted, returned `null` or a context whose ID is
      not unique, and otherwise persists the job context before it completes. */
  ghost predicate ContinuationEndedOk(l: JobRecord, w: World, p: seq<Event>, k: nat, f: bool) {
    InScope(l, p) && k in Pending(Count(p)) && k < |Queue(l)| &&
    if w.behaviour(k) == Faults || w.returned(k) == NoContext then f
    else if UniqueId(l, w, k) then
      !f && |p| >= 2 && p[|p| - 1].Persisted? && p[|p| - 2].TaskEnded? && p[|p| - 2].k == k
    else
      f && p[|p| - 1].TaskEnded? && p[|p| - 1].k == k
  }

  /** The job ends after the scope is disposed, once every task was dequeued and every execution
      and continuation completed without fault. */
  ghost predicate JobEndedOk(l: JobRecord, p: seq<Event>, at: nat) {
    var s := Count(p);
    p != [] && p[|p| - 1] == ScopeDisposed && Busy(s) == {} && Faulted(s) == {}
    && s.dequeued == Order(l) && at >= s.stamp
  }

  /** The instance is created right after the task starts, unless creating it throws. */
  ghost predicate CreatedOk(l: JobRecord, w: World, p: seq<Event>, k: nat) {
    p != [] && p[|p| - 1].TaskStarted? && p[|p| - 1].k == k && w.behaviour(k) != CreateFails
  }

  /** The execution is launched right after the instance is created, unless the call throws. */
  ghost predicate LaunchedOk(l: JobRecord, w: World, p: seq<Event>, k: nat) {
    p != [] && p[|p| - 1] == InstanceCreated(k) && (w.behaviour(k) == Succeeds || w.behaviour(k) == Faults)
  }

  /** A running execution completes, faulted exactly when the task's behaviour says so. */
  ghost predicate ExecutionEndedOk(l: JobRecord, w: World, p: seq<Event>, k: nat, f: bool) {
    InScope(l, p) && k in Running(Count(p)) && f == (w.behaviour(k) == Faults)
  }

  /** The continuation of a successful execution that returned a context releases the instance,
      once. */
  ghost predicate ReleasedOk(l: JobRecord, w: World, p: seq<Event>, k: nat) {
    InScope(l, p) && k in Pending(Count(p)) && w.behaviour(k) == Succeeds && w.returned(k) != NoContext
    && k !in Count(p).released
  }

  /** The end time is stamped on the returned context right after the release, never before the
      latest clock reading. */
  ghost predicate TaskEndedOk(w: World, p: seq<Event>, k: nat, at: nat, other: Option<TaskContext>) {
    p != [] && p[|p| - 1] == InstanceReleased(k) && at >= Count(p).stamp && k !in Count(p).ended
    && other == Replacement(w, k)
  }

  /** May event `e` follow the events `p` of a run on job `l` in world `w`? */
  ghost predicate EventOk(l: JobRecord, w: World, p: seq<Event>, e: Event) {
    match e
    case JobStarted(at) => p == [] && at >= 1
    case Persisted(snapshot) => PersistedOk(l, w, p, snapshot)
    case ScopeOpened => |p| == 2 && l.queue.Some?
    case Dequeued(k) => DequeuedOk(l, p, k)
    case Skipped(k) => SkippedOk(l, w, p, k)
    case TaskStarted(k, at) => TaskStartedOk(l, w, p, k, at)
    case InstanceCreated(k) => CreatedOk(l, w, p, k)
    case Launched(k) => LaunchedOk(l, w, p, k)
    case ExecutionEnded(k, f) => ExecutionEndedOk(l, w, p, k, f)
    case InstanceReleased(k) => ReleasedOk(l, w, p, k)
    case TaskEnded(k, at, other) => TaskEndedOk(w, p, k, at, other)
    case ContinuationEnded(k, f) => ContinuationEndedOk(l, w, p, k, f)
    case ScopeDisposed => InScope(l, p)
    case JobEnded(at) => JobEndedOk(l, p, at)
  }

  /** Every event of `t` may follow the ones before it. */
  ghost predicate WellFormed(l: JobRecord, w: World, t: seq<Event>)
    decreases |t|, 0
  {
    t == [] || Follows(l, w, t[..|t| - 1], t[|t| - 1])
  }

  /** The events `p` are well formed and `e` may follow them. */
  ghost predicate Follows(l: JobRecord, w: World, p: seq<Event>, e: Event)
    decreases |p|, 1
  {
    WellFormed(l, w, p) && EventOk(l, w, p, e)
  }

  lemma WellFormedAppend(l: JobRecord, w: World, t: seq<Event>, e: Event)
    requires Follows(l, w, t, e)
    ensures WellFormed(l, w, t + [e])
  {
    assert (t + [e])[..|t|] == t;
  }

  lemma {:induction false} WellFormedPrefix(l: JobRecord, w: World, t: seq<Event>, n: nat)
    requires WellFormed(l, w, t) && n <= |t|
    ensures WellFormed(l, w, t[..n])
    decreases |t|
  {
    if n < |t| {
      assert t[..n] == t[..|t| - 1][..n];
      WellFormedPrefix(l, w, t[..|t| - 1], n);
    } else {
      assert t[..n] == t;
    }
  }

  /** Each event of a well-formed trace may follow the ones before it. */
  lemma WellFormedAt(l: JobRecord, w: World, t: seq<Event>, q: nat)
    requires WellFormed(l, w, t) && q < |t|
    ensures EventOk(l, w, t[..q], t[q])
  {
    WellFormedPrefix(l, w, t, q + 1);
    assert t[..q + 1][..q] == t[..q];
  }

  lemma CountAppend(t: seq<Event>, e: Event)
    ensures Count(t + [e]) == Bump(Count(t), e)
  {
    assert (t + [e])[..|t|] == t;
  }

  lemma ReplayAppend(l: JobRecord, t: seq<Event>, e: Event)
    ensures Replay(l, t + [e]) == Apply(Replay(l, t), e)
  {
    assert (t + [e])[..|t|] == t;
  }

  /** `a` is `b` with possibly other start and end times. */
  predicate SameTask(a: TaskContext, b: TaskContext) {
    a.id == b.id && a.task == b.task && a.args == b.args && a.priority == b.priority
    && a.runParallel == b.runParallel
  }

  /** One event keeps the queue's length, the tasks' other fields and every end time but that of
      the task it ends, when that task returned the queued context. */
  lemma ApplyShape(j: JobRecord, e: Event)
    requires j.queue.Some?
    ensures var j' := Apply(j, e);
      j'.queue.Some? && |Queue(j')| == |Queue(j)| && j'.id == j.id
      && j'.environment == j.environment && j'.result == j.result
      && (forall k :: 0 <= k < |Queue(j)| ==> SameTask(Queue(j')[k], Queue(j)[k]))
      && (forall k :: 0 <= k < |Queue(j)| && !(e.TaskEnded? && e.k == k && e.other.None?) ==>
            Queue(j')[k].end == Queue(j)[k].end)
  {
  }

  /** Running a job changes only the start and end times of its queued tasks (the end only for tasks
      that ended), the completed tasks, and the job's own times. */
  lemma {:induction false} ReplayShape(l: JobRecord, t: seq<Event>)
    requires l.queue.Some?
    ensures var j := Replay(l, t);
      j.queue.Some? && |Queue(j)| == |Queue(l)| && j.id == l.id
      && j.environment == l.environment && j.result == l.result
      && (forall k :: 0 <= k < |Queue(l)| ==> SameTask(Queue(j)[k], Queue(l)[k]))
      && (forall k :: 0 <= k < |Queue(l)| && k !in Count(t).ended ==> Queue(j)[k].end == Queue(l)[k].end)
    decreases |t|
  {
    if t != [] {
      var init, e := t[..|t| - 1], t[|t| - 1];
      ReplayShape(l, init);
      CountAppend(init, e);
      assert t == init + [e];
      ApplyShape(Replay(l, init), e);
    }
  }

  /** The IDs of the queued tasks never change. */
  lemma IdsKept(l: JobRecord, t: seq<Event>)
    requires l.queue.Some?
    ensures Ids(Queue(Replay(l, t))) == Ids(Queue(l))
  {
    ReplayShape(l, t);
  }

  /** Every run first stamps the job's start, then persists the job context with that start. */
  lemma Prologue(l: JobRecord, w: World, t: seq<Event>)
    requires WellFormed(l, w, t) && |t| >= 2
    ensures t[0].JobStarted? && t[0].at >= 1 && t[1] == Persisted(l.(start := t[0].at))
  {
    WellFormedAt(l, w, t, 0);
    WellFormedAt(l, w, t, 1);
    assert t[..0] == [];
    assert t[..1] == [] + [t[0]];
    ReplayAppend(l, [], t[0]);
  }

  /** The clock reading of the job's start is at least 1 and readings never go back, so every task
      that ended and returned the queued context carries an end time of at least 1 in the job
      context; a task that returned another context keeps the end time it was loaded with. */
  lemma {:induction false} EndsStamped(l: JobRecord, w: World, t: seq<Event>)
    requires l.queue.Some? && WellFormed(l, w, t)
    requires forall k :: k in Count(t).ended ==> k < |Queue(l)|
    ensures t != [] ==> Count(t).stamp >= 1
    ensures |Queue(Replay(l, t))| == |Queue(l)|
    ensures forall k :: k in Count(t).ended && !w.returned(k).OtherContext? ==> Queue(Replay(l, t))[k].end >= 1
    ensures forall k :: 0 <= k < |Queue(l)| && (k !in Count(t).ended || w.returned(k).OtherContext?) ==>
      Queue(Replay(l, t))[k].end == Queue(l)[k].end
    decreases |t|
  {
    ReplayShape(l, t);
    if t != [] {
      var p, e := t[..|t| - 1], t[|t| - 1];
      assert t == p + [e];
      CountAppend(p, e);
      ReplayAppend(l, p, e);
      ReplayShape(l, p);
      assert Follows(l, w, p, e);
      EndsStamped(l, w, p);
      ApplyShape(Replay(l, p), e);
      if e.TaskEnded? {
        assert p != [];
        assert TaskEndedOk(w, p, e.k, e.at, e.other);
        var j := Replay(l, p);
        forall k | k in Count(t).ended && !w.returned(k).OtherContext?
          ensures Queue(Replay(l, t))[k].end >= 1
        {
          assert Replay(l, t) == StampEnd(j, e.k, e.at, e.other);
        }
      }
    }
  }
}

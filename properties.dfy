/** What every run of `ExecuteJob` guarantees, stated on its events: any sequence of events that
    obeys the rules of module `Traces` has the properties below, whatever the tasks do and however
    their executions and continuations interleave with the worker. Line numbers refer to
    `src/Hangfire.Pipeline/PipelineServer.cs`. */
module Properties {
  import opened Wrappers
  import opened Values
  import opened Contexts
  import opened Ordering
  import opened Steps
  import opened Traces
  import opened Server
  import opened Execution

  /** The tally `s'` records at least what `s` records: events are never forgotten. */
  predicate Within(s: Tally, s': Tally) {
    s.dequeued <= s'.dequeued && s.skipped <= s'.skipped && s.started <= s'.started
    && s.created <= s'.created && s.launched <= s'.launched && s.executed <= s'.executed
    && s.execFaulted <= s'.execFaulted && s.released <= s'.released && s.ended <= s'.ended
    && s.continued <= s'.continued && s.contFaulted <= s'.contFaulted && s.stamp <= s'.stamp
    && (s.jobEnded ==> s'.jobEnded)
  }

  lemma BumpWithin(s: Tally, e: Event)
    ensures Within(s, Bump(s, e))
  {
    match e
    case JobStarted(_) =>
    case Persisted(_) =>
    case ScopeOpened =>
    case Dequeued(_) =>
    case Skipped(_) =>
    case TaskStarted(_, _) =>
    case InstanceCreated(_) =>
    case Launched(_) =>
    case ExecutionEnded(_, _) =>
    case InstanceReleased(_) =>
    case TaskEnded(_, _, _) =>
    case ContinuationEnded(_, _) =>
    case ScopeDisposed =>
    case JobEnded(_) =>
  }

  lemma WithinTrans(a: Tally, b: Tally, c: Tally)
    requires Within(a, b) && Within(b, c)
    ensures Within(a, c)
  {
  }

  /** The tally of a longer prefix records at least what the tally of a shorter one does. */
  lemma {:induction false} CountGrows(t: seq<Event>, i: nat, j: nat)
    requires i <= j <= |t|
    ensures Within(Count(t[..i]), Count(t[..j]))
    decreases j
  {
    if i < j {
      CountGrows(t, i, j - 1);
      Tallied(t, j - 1);
      BumpWithin(Count(t[..j - 1]), t[j - 1]);
      WithinTrans(Count(t[..i]), Count(t[..j - 1]), Count(t[..j]));
    }
  }

  /** The tally up to and including event `i`. */
  lemma Tallied(t: seq<Event>, i: nat)
    requires i < |t|
    ensures Count(t[..i + 1]) == Bump(Count(t[..i]), t[i])
  {
    CountAppend(t[..i], t[i]);
    assert t[..i + 1] == t[..i] + [t[i]];
  }

  /** Event `i` is recorded in the tally of every longer prefix. */
  lemma Recorded(t: seq<Event>, i: nat, j: nat)
    requires i < j <= |t|
    ensures Within(Bump(Count(t[..i]), t[i]), Count(t[..j]))
  {
    Tallied(t, i);
    CountGrows(t, i + 1, j);
  }

  /** What the tally of every well-formed run satisfies: each stage of a task follows the one
      before it (start, creation, launch, end of execution, continuation; release and end stamp
      between the last two, and a released task's continuation completes only after the stamp); a
      skipped task had an end time when loaded and a started one had none; only tasks whose
      behaviour is to fault have a faulted execution, and only tasks that succeed and return a
      context are released. */
  ghost predicate Chain(l: JobRecord, w: World, s: Tally) {
    s in Chained(l, w)
  }

  /** The tallies that satisfy the chain, as one set so that a proof obligation about it stays
      whole. */
  ghost function Chained(l: JobRecord, w: World): iset<Tally> {
    iset s | Linked(l, w, s)
  }

  ghost predicate Linked(l: JobRecord, w: World, s: Tally) {
    var q := Queue(l);
    s.created <= s.started && s.launched <= s.created && s.executed <= s.launched
    && s.continued <= s.executed && s.released <= s.executed && s.ended <= s.released
    && s.execFaulted <= s.executed && s.contFaulted <= s.continued && s.released * s.continued <= s.ended
    && (forall k :: k in s.skipped ==> k < |q| && q[k].end > 0)
    && (forall k :: k in s.started ==> k < |q| && q[k].end == 0)
    && (forall k :: k in s.execFaulted ==> w.behaviour(k) == Faults)
    && (forall k :: k in s.released ==> w.behaviour(k) == Succeeds && w.returned(k) != NoContext)
  }

  /** Events that leave every set of the tally alone keep the chain. */
  lemma ChainUntouched(l: JobRecord, w: World, s: Tally, s': Tally)
    requires Chain(l, w, s) && s' == s.(dequeued := s'.dequeued, stamp := s'.stamp, jobEnded := s'.jobEnded)
    ensures Chain(l, w, s')
  {
  }

  lemma ChainSkipped(l: JobRecord, w: World, s: Tally, k: nat)
    requires Chain(l, w, s) && k < |Queue(l)| && Queue(l)[k].end > 0
    ensures Chain(l, w, Bump(s, Skipped(k)))
  {
  }

  lemma ChainStarted(l: JobRecord, w: World, s: Tally, k: nat, at: nat)
    requires Chain(l, w, s) && k < |Queue(l)| && Queue(l)[k].end == 0
    ensures Chain(l, w, Bump(s, TaskStarted(k, at)))
  {
  }

  lemma ChainCreated(l: JobRecord, w: World, s: Tally, k: nat)
    requires Chain(l, w, s) && k in s.started
    ensures Chain(l, w, Bump(s, InstanceCreated(k)))
  {
  }

  lemma ChainLaunched(l: JobRecord, w: World, s: Tally, k: nat)
    requires Chain(l, w, s) && k in s.created
    ensures Chain(l, w, Bump(s, Launched(k)))
  {
  }

  lemma ChainExecuted(l: JobRecord, w: World, s: Tally, k: nat, f: bool)
    requires Chain(l, w, s) && k in s.launched && (f ==> w.behaviour(k) == Faults)
    ensures Chain(l, w, Bump(s, ExecutionEnded(k, f)))
  {
  }

  lemma ChainReleased(l: JobRecord, w: World, s: Tally, k: nat)
    requires Chain(l, w, s) && k in s.executed && k !in s.continued
    requires w.behaviour(k) == Succeeds && w.returned(k) != NoContext
    ensures Chain(l, w, Bump(s, InstanceReleased(k)))
  {
  }

  lemma ChainEnded(l: JobRecord, w: World, s: Tally, k: nat, at: nat, other: Option<TaskContext>)
    requires Chain(l, w, s) && k in s.released
    ensures Chain(l, w, Bump(s, TaskEnded(k, at, other)))
  {
  }

  lemma ChainContinued(l: JobRecord, w: World, s: Tally, k: nat, f: bool)
    requires Chain(l, w, s) && k in s.executed && (k in s.released ==> k in s.ended)
    ensures Chain(l, w, Bump(s, ContinuationEnded(k, f)))
  {
  }

  /** A continuation that released the instance completes only after the end stamp: right after
      it, or after the persist that follows it. */
  lemma ContinuationAfterEnd(l: JobRecord, w: World, p: seq<Event>, k: nat, f: bool)
    requires Chain(l, w, Count(p)) && ContinuationEndedOk(l, w, p, k, f)
    ensures k in Count(p).released ==> k in Count(p).ended
  {
    if w.behaviour(k) != Faults && w.returned(k) != NoContext {
      var n := |p|;
      LastCounted(p);
      if UniqueId(l, w, k) {
        LastCounted(p[..n - 1]);
        assert p[..n - 1][..n - 2] == p[..n - 2];
      }
    }
  }

  /** The tally of a nonempty run counts its last event. */
  lemma LastCounted(p: seq<Event>)
    requires p != []
    ensures Count(p) == Bump(Count(p[..|p| - 1]), p[|p| - 1])
  {
  }

  lemma ChainStep(l: JobRecord, w: World, p: seq<Event>, e: Event)
    requires Chain(l, w, Count(p)) && EventOk(l, w, p, e)
    ensures Chain(l, w, Bump(Count(p), e))
  {
    var s := Count(p);
    match e
    case Skipped(k) => ChainSkipped(l, w, s, k);
    case TaskStarted(k, at) => ChainStarted(l, w, s, k, at);
    case InstanceCreated(k) =>
      LastCounted(p);
      ChainCreated(l, w, s, k);
    case Launched(k) =>
      LastCounted(p);
      ChainLaunched(l, w, s, k);
    case ExecutionEnded(k, f) => ChainExecuted(l, w, s, k, f);
    case InstanceReleased(k) => ChainReleased(l, w, s, k);
    case TaskEnded(k, at, other) =>
      LastCounted(p);
      ChainEnded(l, w, s, k, at, other);
    case ContinuationEnded(k, f) =>
      ContinuationAfterEnd(l, w, p, k, f);
      ChainContinued(l, w, s, k, f);
    case _ => ChainUntouched(l, w, s, Bump(s, e));
  }

  lemma {:induction false} ChainHolds(l: JobRecord, w: World, t: seq<Event>)
    requires WellFormed(l, w, t)
    ensures Chain(l, w, Count(t))
    decreases |t|
  {
    if t != [] {
      var p, e := t[..|t| - 1], t[|t| - 1];
      assert Follows(l, w, p, e);
      ChainHolds(l, w, p);
      assert t == p + [e];
      CountAppend(p, e);
      ChainStep(l, w, p, e);
    }
  }

  /** A task that already had an end time is skipped: it is never started, so the factory never
      creates an instance of it, and it never gets an end again, so it is not appended to the
      completed tasks (lines 76-80). */
  lemma SkippedNeverRun(l: JobRecord, w: World, t: seq<Event>, k: nat)
    requires WellFormed(l, w, t) && k in Count(t).skipped
    ensures k !in Count(t).started && k !in Count(t).created && k !in Count(t).ended
  {
    ChainHolds(l, w, t);
  }

  /** A faulted execution is never followed by a release of the instance or an end stamp: its
      continuation throws reading `continuation.Result` (line 101) before either. The task's end
      in the job context stays as it was loaded. */
  lemma FaultedNeverReleased(l: JobRecord, w: World, t: seq<Event>, k: nat)
    requires WellFormed(l, w, t) && k in Count(t).execFaulted
    ensures k !in Count(t).released && k !in Count(t).ended
    ensures l.queue.Some? && k < |Queue(l)| ==>
      |Queue(Replay(l, t))| == |Queue(l)| && Queue(Replay(l, t))[k].end == Queue(l)[k].end
  {
    ChainHolds(l, w, t);
    if l.queue.Some? {
      ReplayShape(l, t);
    }
  }

  /** The positions dequeued so far are a prefix of the stable priority order. */
  lemma {:induction false} DequeuedInOrder(l: JobRecord, w: World, t: seq<Event>)
    requires WellFormed(l, w, t)
    ensures Count(t).dequeued <= Order(l)
    decreases |t|
  {
    if t != [] {
      var p, e := t[..|t| - 1], t[|t| - 1];
      assert Follows(l, w, p, e);
      DequeuedInOrder(l, w, p);
      assert t == p + [e];
      CountAppend(p, e);
      if e.Dequeued? {
        assert DequeuedOk(l, p, e.k);
        var d := Count(p).dequeued;
        assert d + [e.k] == Order(l)[..|d| + 1];
      }
    }
  }

  /** The task started by event `i` is the one dequeued last before it. */
  lemma StartedWasDequeued(l: JobRecord, w: World, t: seq<Event>, i: nat)
    requires WellFormed(l, w, t) && i < |t| && t[i].TaskStarted?
    ensures var d := Count(t[..i]).dequeued;
      |d| > 0 && d[|d| - 1] == t[i].k && d <= Order(l) && t[i].k !in Count(t[..i]).started
  {
    WellFormedAt(l, w, t, i);
    WellFormedPrefix(l, w, t, i);
    DequeuedInOrder(l, w, t[..i]);
  }

  /** Tasks start in ascending priority, and tasks of equal priority in the order they were
      queued: `OrderBy` is a stable sort (lines 149-157). */
  lemma DispatchOrder(l: JobRecord, w: World, t: seq<Event>, i: nat, j: nat)
    requires WellFormed(l, w, t) && i < j < |t| && t[i].TaskStarted? && t[j].TaskStarted?
    ensures var p, a, b := Priorities(Queue(l)), t[i].k, t[j].k;
      a < |p| && b < |p| && p[a] <= p[b] && (p[a] == p[b] ==> a < b)
  {
    var a, b := t[i].k, t[j].k;
    StartedWasDequeued(l, w, t, i);
    StartedWasDequeued(l, w, t, j);
    Recorded(t, i, j);
    var di, dj := Count(t[..i]).dequeued, Count(t[..j]).dequeued;
    CountGrows(t, i, j);
    assert di <= dj;
    assert a in Count(t[..j]).started;
    assert |di| < |dj|;
    var o, p := Order(l), Priorities(Queue(l));
    assert a == o[|di| - 1] && b == o[|dj| - 1];
    StableOrderAscending(p, |di| - 1, |dj| - 1);
  }

  /** A sequential task starts only when every execution and continuation dispatched before it
      has completed and none of them faulted: the `Task.WaitAll` of line 86 and the check after
      it. */
  lemma SequentialStartsAlone(l: JobRecord, w: World, t: seq<Event>, i: nat)
    requires WellFormed(l, w, t) && i < |t| && t[i].TaskStarted?
    ensures t[i].k < |Queue(l)|
    ensures !Queue(l)[t[i].k].runParallel ==> Busy(Count(t[..i])) == {} && Faulted(Count(t[..i])) == {}
  {
    WellFormedAt(l, w, t, i);
  }

  /** A parallel task may start while the continuation of an earlier sequential task is still
      pending: after a sequential task the worker waits only for its execution (line 133), so the
      end that continuation stamps can come after the later task's start. */
  lemma StartBeforeEarlierEnd(l: JobRecord, w: World, p: seq<Event>, j: nat, k: nat, at: nat)
    requires WellFormed(l, w, p) && TaskStartedOk(l, w, p, k, at) && Queue(l)[k].runParallel
    requires j < |Queue(l)| && !Queue(l)[j].runParallel && j in Pending(Count(p)) && j !in Count(p).ended
    ensures var t := p + [TaskStarted(k, at)];
      WellFormed(l, w, t) && k in Count(t).started && j in Pending(Count(t)) && j !in Count(t).ended
  {
    Extend(l, w, p, TaskStarted(k, at));
  }

  /** No task starts while the execution of a sequential task runs: the worker waits for it at
      line 133 before it dequeues again. */
  lemma SequentialBlocks(l: JobRecord, w: World, t: seq<Event>, i: nat, j: nat)
    requires WellFormed(l, w, t) && i < j < |t| && t[i].TaskStarted? && t[j].TaskStarted?
    requires t[i].k < |Queue(l)| && !Queue(l)[t[i].k].runParallel
    ensures t[i].k in Count(t[..j]).launched ==> t[i].k in Count(t[..j]).executed
  {
    WellFormedAt(l, w, t, j);
  }

  /** Once the dependency scope is disposed nothing is dequeued, started, created, executed or
      released any more: only the job's end and the final persist may follow. */
  lemma {:induction false} AfterDisposal(l: JobRecord, w: World, t: seq<Event>, i: nat, j: nat)
    requires WellFormed(l, w, t) && i < j < |t| && t[i] == ScopeDisposed
    ensures t[j].Persisted? || t[j].JobEnded?
    decreases j
  {
    WellFormedAt(l, w, t, i);
    WellFormedAt(l, w, t, j);
    var p := t[..j];
    assert p[i] == ScopeDisposed;
    assert p[|p| - 1] == t[j - 1];
    if j - 1 > i {
      AfterDisposal(l, w, t, i, j - 1);
    }
  }

  /** The job's end is stamped only after the scope is disposed, once every task was dequeued,
      every execution and continuation completed and none faulted, never before the clock
      readings so far (lines 136-139); only the final persist follows it. */
  lemma EndAfterDrain(l: JobRecord, w: World, t: seq<Event>, j: nat)
    requires WellFormed(l, w, t) && j < |t| && t[j].JobEnded?
    ensures var s := Count(t[..j]);
      s.dequeued == Order(l) && Busy(s) == {} && Faulted(s) == {} && t[j].at >= s.stamp
    ensures forall n :: j < n < |t| ==> t[n].Persisted?
  {
    WellFormedAt(l, w, t, j);
    assert t[..j][j - 1] == t[j - 1];
    forall n | j < n < |t| ensures t[n].Persisted? {
      AfterDisposal(l, w, t, j - 1, n);
      if t[n].JobEnded? {
        WellFormedAt(l, w, t, n);
        assert t[..n][n - 1] == t[n - 1];
        AfterDisposal(l, w, t, j - 1, n - 1);
      }
    }
  }

  lemma {:induction false} JobEndedAt(t: seq<Event>)
    requires Count(t).jobEnded
    ensures exists j :: 0 <= j < |t| && t[j].JobEnded?
    decreases |t|
  {
    var p := t[..|t| - 1];
    if !t[|t| - 1].JobEnded? {
      JobEndedAt(p);
      var j :| 0 <= j < |p| && p[j].JobEnded?;
      assert t[j] == p[j];
    }
  }

  /** Persisting the job context adds nothing to the tally. */
  lemma {:induction false} PersistedTail(t: seq<Event>, m: nat)
    requires m <= |t| && forall n :: m <= n < |t| ==> t[n].Persisted?
    ensures Count(t) == Count(t[..m])
    decreases |t|
  {
    if m < |t| {
      PersistedTail(t[..|t| - 1], m);
      assert t[..|t| - 1][..m] == t[..m];
    } else {
      assert t[..m] == t;
    }
  }

  /** When the job's end was stamped, the tally at the end of the run is the one it was stamped
      with, plus the end itself. */
  lemma EndedClean(l: JobRecord, w: World, t: seq<Event>)
    requires WellFormed(l, w, t) && Count(t).jobEnded
    ensures Faulted(Count(t)) == {} && Busy(Count(t)) == {} && Count(t).dequeued == Order(l)
  {
    JobEndedAt(t);
    var j :| 0 <= j < |t| && t[j].JobEnded?;
    EndAfterDrain(l, w, t, j);
    PersistedTail(t, j + 1);
    Tallied(t, j);
  }

  /** The job's end is stamped only if no execution or continuation faulted, every task was
      dequeued and everything dispatched completed; otherwise the job's end stays as loaded
      (lines 107-108, 136-140). */
  lemma FaultPreventsEnd(l: JobRecord, w: World, t: seq<Event>)
    requires WellFormed(l, w, t)
    ensures Count(t).jobEnded ==>
      Faulted(Count(t)) == {} && Busy(Count(t)) == {} && Count(t).dequeued == Order(l)
    ensures !Count(t).jobEnded ==> Replay(l, t).end == l.end
  {
    if Count(t).jobEnded {
      EndedClean(l, w, t);
    } else {
      EndUntouched(l, t);
    }
  }

  lemma {:induction false} EndUntouched(l: JobRecord, t: seq<Event>)
    requires !Count(t).jobEnded
    ensures Replay(l, t).end == l.end
    decreases |t|
  {
    if t != [] {
      var p, e := t[..|t| - 1], t[|t| - 1];
      BumpWithin(Count(p), e);
      EndUntouched(l, p);
    }
  }

  /** Every clock reading an event records is at most the tally's latest one. */
  lemma StampBound(t: seq<Event>, i: nat)
    requires i < |t|
    ensures Stamp(t[i]) <= Count(t).stamp
  {
    Tallied(t, i);
    CountGrows(t, i + 1, |t|);
    assert t[..|t|] == t;
  }

  /** The clock never goes back: a start, end or job end time is at least every clock reading
      recorded before it. */
  lemma ClockNeverGoesBack(l: JobRecord, w: World, t: seq<Event>, i: nat, j: nat)
    requires WellFormed(l, w, t) && i < j < |t| && (t[j].TaskStarted? || t[j].TaskEnded? || t[j].JobEnded?)
    ensures Stamp(t[i]) <= t[j].at
  {
    WellFormedAt(l, w, t, j);
    StampBound(t[..j], i);
    assert t[..j][i] == t[i];
  }

  /** A task that gets its end stamp is in the queue and was released just before, and the
      clock has been read. */
  lemma EndedInQueue(l: JobRecord, w: World, p: seq<Event>, k: nat, at: nat, other: Option<TaskContext>)
    requires WellFormed(l, w, p) && l.queue.Some? && TaskEndedOk(w, p, k, at, other)
    ensures k < |Queue(Replay(l, p))| && k !in Count(p).ended && at >= 1
  {
    ChainHolds(l, w, p);
    LastCounted(p);
    ReplayShape(l, p);
    StampPositive(l, w, p);
  }

  /** Every run starts with a clock reading of at least 1. */
  lemma StampPositive(l: JobRecord, w: World, t: seq<Event>)
    requires WellFormed(l, w, t) && t != []
    ensures Count(t).stamp >= 1
  {
    WellFormedAt(l, w, t, 0);
    assert t[..0] == [];
    Tallied(t, 0);
    CountGrows(t, 1, |t|);
    assert t[..|t|] == t;
  }

  /** Each task that ends appends the context it returned to the completed tasks exactly once,
      carrying its end time; earlier entries stay (lines 116-117). */
  lemma {:induction false} CompletedOnce(l: JobRecord, w: World, t: seq<Event>)
    requires WellFormed(l, w, t) && l.queue.Some?
    ensures var c, c' := OrEmpty(l.completed), OrEmpty(Replay(l, t).completed);
      c <= c' && |c'| == |c| + |Count(t).ended| && forall i :: |c| <= i < |c'| ==> c'[i].end >= 1
    decreases |t|
  {
    if t != [] {
      var p, e := t[..|t| - 1], t[|t| - 1];
      assert Follows(l, w, p, e);
      CompletedOnce(l, w, p);
      assert t == p + [e];
      CountAppend(p, e);
      ReplayAppend(l, p, e);
      var c, c0, c1 := OrEmpty(l.completed), OrEmpty(Replay(l, p).completed), OrEmpty(Replay(l, t).completed);
      if e.TaskEnded? {
        EndedInQueue(l, w, p, e.k, e.at, e.other);
        StampEndAppends(Replay(l, p), e.k, e.at, e.other);
        forall i | |c| <= i < |c1| ensures c1[i].end >= 1 {
          if i < |c0| {
            assert c1[i] == c0[i];
          }
        }
      } else {
        assert c1 == c0;
      }
    }
  }

  /** Stamping an end appends one entry, carrying the end time, to the completed tasks. */
  lemma StampEndAppends(j: JobRecord, k: nat, at: nat, other: Option<TaskContext>)
    requires other.None? ==> k < |Queue(j)|
    ensures var c, c' := OrEmpty(j.completed), OrEmpty(StampEnd(j, k, at, other).completed);
      |c'| == |c| + 1 && c <= c' && c'[|c|].end == at
  {
  }

  /** Each instance is released at most once (line 105). */
  lemma ReleasedOnce(l: JobRecord, w: World, t: seq<Event>, i: nat, j: nat)
    requires WellFormed(l, w, t) && i < j < |t| && t[i].InstanceReleased? && t[j].InstanceReleased?
    ensures t[i].k != t[j].k
  {
    WellFormedAt(l, w, t, j);
    Recorded(t, i, j);
  }

  /** When the job's end was stamped, every task whose instance was released got its end stamp,
      and no other task did. */
  lemma ReleasedAllEnded(l: JobRecord, w: World, t: seq<Event>)
    requires WellFormed(l, w, t) && Count(t).jobEnded
    ensures Count(t).released == Count(t).ended
  {
    ChainHolds(l, w, t);
    EndedClean(l, w, t);
  }

  /** The last task dequeued in `s` failed its checks, or a cancellation token was cancelled
      when it was dequeued. */
  ghost predicate Refused(l: JobRecord, w: World, s: Tally) {
    var d := s.dequeued;
    |d| > 0 && (d[|d| - 1] < |Queue(l)| ==>
      !IsValidTask(Queue(l)[d[|d| - 1]]) || CheckForCancellation(w.token(|d| - 1)) != Proceed)
  }

  /** After a refused dequeue no task starts: every start comes before it. */
  lemma StartsBeforeRefusal(l: JobRecord, w: World, t: seq<Event>)
    requires WellFormed(l, w, t) && Refused(l, w, Count(t))
    ensures forall i :: 0 <= i < |t| && t[i].TaskStarted? ==>
      |Count(t[..i]).dequeued| < |Count(t).dequeued|
  {
    forall i | 0 <= i < |t| && t[i].TaskStarted?
      ensures |Count(t[..i]).dequeued| < |Count(t).dequeued|
    {
      WellFormedAt(l, w, t, i);
      assert Admitted(l, w, t[..i], t[i].k);
      CountGrows(t, i, |t|);
      assert t[..|t|] == t;
      ShorterPrefix(l, w, Count(t[..i]).dequeued, Count(t), t[i].k);
    }
  }

  lemma ShorterPrefix(l: JobRecord, w: World, d: seq<nat>, s: Tally, k: nat)
    requires Refused(l, w, s) && d <= s.dequeued && |d| > 0 && d[|d| - 1] == k && k < |Queue(l)|
    requires IsValidTask(Queue(l)[k]) && CheckForCancellation(w.token(|d| - 1)) == Proceed
    ensures |d| < |s.dequeued|
  {
  }

  /** When `ExecuteJob` throws because a dequeued task has no name or no ID (lines 68-71), or
      because a cancellation token was cancelled (line 74), no task started after that dequeue. */
  lemma RefusalStopsDispatch(l: JobRecord, w: World, outcome: Status<Failure>, t: seq<Event>)
    requires Reported(l, w, outcome, t) && outcome.Fail?
    requires outcome.error.MissingTaskName? || outcome.error.MissingTaskId? || outcome.error.Cancelled?
    ensures forall i :: 0 <= i < |t| && t[i].TaskStarted? ==>
      |Count(t[..i]).dequeued| < |Count(t).dequeued|
  {
    assert Explains(l, w, Count(t), outcome.error);
    StartsBeforeRefusal(l, w, t);
  }
}

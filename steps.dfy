/** The pure decisions `PipelineServer.ExecuteJob` takes at each step: whether a dequeued task is
    well formed, whether the job was cancelled, and whether a task's ID is unique in the job's queue.
    Also what the model leaves to the outside world: how each task's factory and instance behave,
    and the state of the Hangfire cancellation token at each check. */
module Steps {
  import opened Wrappers
  import opened Text
  import opened Values
  import opened Contexts

  /** What happens when the server runs the task at one queue position. */
  datatype Behaviour =
    | Succeeds      // `ExecuteTaskAsync` returns a task that completes with a result
    | Faults        // it returns a task that ends in an exception
    | ThrowsOnCall  // `ExecuteTaskAsync` throws before it returns a task
    | CreateFails   // the task factory's `Create` throws

  /** The task context a successful execution completes with (`Task<IPipelineTaskContext>` may
      hold any context): the very context object it was given, which is the one in the job's
      queue; another context object; or `null`. */
  datatype Returned =
    | SameContext
    | OtherContext(ctx: TaskContext)
    | NoContext

  /** The Hangfire job cancellation token: its shutdown token, and whether the job was aborted. */
  datatype JobToken = JobToken(shutdown: bool, aborted: bool)

  /** Everything the server depends on that it does not control: the behaviour of the task at each
      queue position and the context its execution returns, the token as seen by the n-th
      cancellation check, the time that passes before the n-th clock reading, and how many steps
      the running tasks take before the worker dequeues its n-th task. */
  datatype World = World(behaviour: nat -> Behaviour, returned: nat -> Returned, token: nat -> JobToken,
                         delay: nat -> nat, progress: nat -> nat)

  /** The outcome of `CheckForCancellation`. */
  datatype CancelCheck =
    | Proceed
    | InternalCancelled  // the internal token, linked to the shutdown token, throws
    | JobAborted         // the Hangfire token throws; the internal source is cancelled first

  /** Why `ExecuteJob` threw. */
  datatype Failure =
    | JobNotFound              // storage has no context with the ID
    | QueueMissing             // the job context has no queue
    | MissingTaskName(k: nat)  // the task at position k has no task name
    | MissingTaskId(k: nat)    // the task at position k has no ID
    | Cancelled(source: CancelCheck)
    | CreateFailed(k: nat)
    | ExecutionThrew(k: nat)
    | ExecutionFaulted(k: nat) // a sequential task's execution faulted while the server waited on it
    | TasksFaulted(ks: set<nat>) // `Task.WaitAll` saw these tasks' executions or continuations fault

  /** `CheckForCancellation(jct, cts)`: the internal token is checked first, then the Hangfire one. */
  function CheckForCancellation(token: JobToken): (c: CancelCheck)
    ensures c == Proceed <==> !token.shutdown && !token.aborted
    ensures c == InternalCancelled <==> token.shutdown
  {
    if token.shutdown then InternalCancelled
    else if token.aborted then JobAborted
    else Proceed
  }

  /** Whether the check leaves the internal cancellation source cancelled: it does exactly when the
      check throws. */
  function InternalSourceCancelled(token: JobToken): (cancelled: bool)
    ensures cancelled <==> CheckForCancellation(token) != Proceed
  {
    token.shutdown || token.aborted
  }

  /** The validation of a dequeued task: a task name first, then an ID. */
  function ValidateTask(t: TaskContext, k: nat): (r: Option<Failure>)
    ensures r.None? <==> !IsNullOrWhiteSpace(t.task) && !IsNullOrWhiteSpace(t.id)
    ensures r.Some? ==> r.value == (if IsNullOrWhiteSpace(t.task) then MissingTaskName(k) else MissingTaskId(k))
  {
    if IsNullOrWhiteSpace(t.task) then Some(MissingTaskName(k))
    else if IsNullOrWhiteSpace(t.id) then Some(MissingTaskId(k))
    else None
  }

  predicate IsValidTask(t: TaskContext) {
    ValidateTask(t, 0).None?
  }

  /** The IDs of a queue, position by position. */
  function Ids(q: seq<TaskContext>): (ids: seq<Option<string>>)
    ensures |ids| == |q| && forall i :: 0 <= i < |q| ==> ids[i] == q[i].id
  {
    seq(|q|, i requires 0 <= i < |q| => q[i].id)
  }

  /** The positions whose ID is `id`. */
  function Matches(ids: seq<Option<string>>, id: Option<string>): (m: set<nat>)
    ensures forall i: nat :: i in m <==> i < |ids| && ids[i] == id
  {
    set i: nat | i < |ids| && ids[i] == id
  }

  /** The `ArgumentNullException` of a LINQ operator on `null`, and the `InvalidOperationException`
      of `SingleOrDefault` when several elements match. */
  datatype SequenceError = NoSequence | MoreThanOneMatch

  /** `SingleOrDefault(task => task.Id == id)` over the IDs: the one matching position, none, or
      an `InvalidOperationException` when several match. */
  function SingleOrDefault(ids: seq<Option<string>>, id: Option<string>): (r: Result<Option<nat>, SequenceError>)
    ensures r.Failure? <==> |Matches(ids, id)| >= 2
    ensures r == Success(None) <==> Matches(ids, id) == {}
    ensures r.Success? && r.value.Some? ==> Matches(ids, id) == {r.value.value}
    decreases |ids|
  {
    if ids == [] then Success(None)
    else
      var init := ids[..|ids| - 1];
      var rest := SingleOrDefault(init, id);
      assert Matches(ids, id) == Matches(init, id) + (if ids[|ids| - 1] == id then {|ids| - 1} else {});
      if ids[|ids| - 1] != id then rest
      else if rest == Success(None) then Success(Some(|ids| - 1))
      else
        assert |Matches(ids, id)| >= 2 by {
          var i :| i in Matches(init, id);
          assert {i, |ids| - 1} <= Matches(ids, id);
        }
        Failure(MoreThanOneMatch)
  }
}

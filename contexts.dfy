/** The job and task contexts the pipeline server works on, and the helpers that read and write
    their dictionaries and lists (`QueueTask`, `AddEnvironment`/`GetEnvironment`,
    `AddResult`/`GetResult`, `AddCompletedTask`, `AddArg`/`GetArg`). */
module Contexts {
  import opened Wrappers
  import opened Values

  /** An `IDictionary<string, object>`. A dictionary that was never created is `None`. */
  type Bag = map<string, Value>

  /** `NullReferenceException` (no dictionary), `KeyNotFoundException`, the `ArgumentException` of
      `Dictionary.Add` on a present key, and a failed conversion. */
  datatype AccessError =
    | NoDictionary
    | KeyNotFound(key: string)
    | DuplicateKey(key: string)
    | Conversion(cause: ConvertError)

  /** Creates the dictionary when it is missing, then `Dictionary.Add(key, value)`. */
  function Insert(d: Option<Bag>, key: string, value: Value): (r: Result<Bag, AccessError>)
    ensures r.Failure? <==> d.Some? && key in d.value
    ensures r.Failure? ==> r.error == DuplicateKey(key)
    ensures r.Success? ==> key in r.value && r.value[key] == value
    ensures r.Success? ==> r.value.Keys == (if d.Some? then d.value.Keys else {}) + {key}
    ensures r.Success? && d.Some? ==> forall k :: k in d.value ==> r.value[k] == d.value[k]
  {
    var m := if d.Some? then d.value else map[];
    if key in m then Failure(DuplicateKey(key)) else Success(m[key := value])
  }

  /** Reads `d[key]` and converts it with `Convert.ChangeType`: a missing dictionary fails first, then
      a missing key, then the conversion. */
  function Lookup(d: Option<Bag>, key: string, t: TypeCode, culture: Culture): (r: Result<Value, AccessError>)
    ensures d.None? ==> r == Failure(NoDictionary)
    ensures d.Some? && key !in d.value ==> r == Failure(KeyNotFound(key))
    ensures r.Success? ==> d.Some? && key in d.value && ChangeType(d.value[key], t, culture) == Success(r.value)
    ensures r.Failure? && r.error.Conversion? ==>
      d.Some? && key in d.value && ChangeType(d.value[key], t, culture) == Failure(r.error.cause)
    ensures d.Some? && key in d.value ==>
      (r.Success? <==> ChangeType(d.value[key], t, culture).Success?)
      && (r.Failure? ==> r.error.Conversion? && ChangeType(d.value[key], t, culture) == Failure(r.error.cause))
    ensures r.Failure? ==> !r.error.DuplicateKey?
  {
    if d.None? then Failure(NoDictionary)
    else if key !in d.value then Failure(KeyNotFound(key))
    else match ChangeType(d.value[key], t, culture)
      case Success(v) => Success(v)
      case Failure(e) => Failure(Conversion(e))
  }

  /** A value added under a key is read back unchanged as its own type, and as `object` unless it
      is an object that does not implement `IConvertible` other than a plain `System.Object`. */
  lemma InsertThenLookup(d: Option<Bag>, key: string, v: Value, t: TypeCode, culture: Culture)
    requires Insert(d, key, v).Success?
    requires (t == ObjectType && !v.Other?) || TypeOf(v) == Some(t)
    ensures Lookup(Some(Insert(d, key, v).value), key, t, culture) == Success(v)
  {
  }

  /** Adding the same key twice fails, whatever the dictionary held before. */
  lemma InsertTwiceFails(d: Option<Bag>, key: string, v: Value, w: Value)
    requires Insert(d, key, v).Success?
    ensures Insert(Some(Insert(d, key, v).value), key, w) == Failure(DuplicateKey(key))
  {
  }

  /** Adding a key changes what no other key reads. */
  lemma InsertKeepsOtherKeys(d: Option<Bag>, key: string, v: Value, other: string, t: TypeCode, culture: Culture)
    requires Insert(d, key, v).Success? && other != key
    ensures Lookup(Some(Insert(d, key, v).value), other, t, culture)
         == (if d.Some? then Lookup(d, other, t, culture) else Failure(KeyNotFound(other)))
  {
  }

  /** A task context (`IPipelineTaskContext`). It is a value here: the job's queue holds its task
      contexts by position, and a stamp the server writes on a queued context is a new value at
      that position. `id` and `task` are `None` when `null`. */
  datatype TaskContext = TaskContext(
    id: Option<string>,
    task: Option<string>,
    args: Option<Bag>,
    priority: Int32,
    runParallel: bool,
    start: nat,
    end: nat)
  {
    /** `AddArg`: adds to `Args`, creating it when missing; nothing but `Args` changes. */
    function AddArg(key: string, value: Value): (r: Result<TaskContext, AccessError>)
      ensures r.Failure? <==> args.Some? && key in args.value
      ensures r.Failure? ==> r.error == DuplicateKey(key)
      ensures r.Success? ==> r.value.args.Some? && r.value.args == Some(Insert(args, key, value).value)
      ensures r.Success? ==> r.value.(args := args) == this
    {
      match Insert(args, key, value)
      case Success(m) => Success(this.(args := Some(m)))
      case Failure(e) => Failure(e)
    }

    /** `GetArg`: reads `Args[key]` converted to `t`. */
    function GetArg(key: string, t: TypeCode, culture: Culture): (r: Result<Value, AccessError>)
      ensures args.None? ==> r == Failure(NoDictionary)
      ensures args.Some? && key !in args.value ==> r == Failure(KeyNotFound(key))
      ensures r.Success? ==> args.Some? && key in args.value && ChangeType(args.value[key], t, culture) == Success(r.value)
      ensures args.Some? && key in args.value ==>
        (r.Success? <==> ChangeType(args.value[key], t, culture).Success?)
        && (r.Failure? ==> r.error.Conversion? && ChangeType(args.value[key], t, culture) == Failure(r.error.cause))
    {
      Lookup(args, key, t, culture)
    }
  }

  /** An argument added to a task is read back as itself, and the task is otherwise unchanged. */
  lemma AddArgThenGetArg(task: TaskContext, key: string, v: Value, t: TypeCode, culture: Culture)
    requires task.AddArg(key, v).Success?
    requires (t == ObjectType && !v.Other?) || TypeOf(v) == Some(t)
    ensures task.AddArg(key, v).value.GetArg(key, t, culture) == Success(v)
  {
    InsertThenLookup(task.args, key, v, t, culture);
  }

  /** The stored form of a job context (`IPipelineJobContext`), as storage holds it and as each
      persist writes it. */
  datatype JobRecord = JobRecord(
    id: Option<string>,
    queue: Option<seq<TaskContext>>,
    environment: Option<Bag>,
    result: Option<Bag>,
    completed: Option<seq<TaskContext>>,
    start: nat,
    end: nat)
  {
    /** The job after `QueueTask(t)`. */
    function WithQueued(t: TaskContext): JobRecord {
      this.(queue := Some(OrEmpty(queue) + [t]))
    }

    /** The job after `AddCompletedTask(t)`. */
    function WithCompleted(t: TaskContext): JobRecord {
      this.(completed := Some(OrEmpty(completed) + [t]))
    }
  }

  /** The job after queueing `ts` one after the other. */
  function QueueAll(j: JobRecord, ts: seq<TaskContext>): JobRecord
    decreases |ts|
  {
    if ts == [] then j else QueueAll(j, ts[..|ts| - 1]).WithQueued(ts[|ts| - 1])
  }

  /** Queueing keeps the tasks in the order they were queued, after the ones already there, and
      touches nothing but the queue. */
  lemma {:induction false} QueueAllKeepsOrder(j: JobRecord, ts: seq<TaskContext>)
    ensures QueueAll(j, ts).queue == (if j.queue.None? && ts == [] then None else Some(OrEmpty(j.queue) + ts))
    ensures QueueAll(j, ts).(queue := j.queue) == j
    decreases |ts|
  {
    if ts != [] {
      var init := ts[..|ts| - 1];
      QueueAllKeepsOrder(j, init);
      assert OrEmpty(QueueAll(j, init).queue) == OrEmpty(j.queue) + init;
      assert QueueAll(j, ts) == QueueAll(j, init).WithQueued(ts[|ts| - 1]);
      assert OrEmpty(j.queue) + init + [ts[|ts| - 1]] == OrEmpty(j.queue) + ts;
    } else {
      assert OrEmpty(j.queue) + ts == OrEmpty(j.queue);
    }
  }

  /** A job context that the server and the tasks update in place. */
  class JobContext {
    var id: Option<string>
    var queue: Option<seq<TaskContext>>
    var environment: Option<Bag>
    var result: Option<Bag>
    var completed: Option<seq<TaskContext>>
    var start: nat
    var end: nat

    /** The fields as a value, which is what a persist stores. */
    function Record(): JobRecord
      reads this
    {
      JobRecord(id, queue, environment, result, completed, start, end)
    }

    /** The context deserialized from its stored form. */
    constructor (r: JobRecord)
      ensures Record() == r
    {
      id, queue, environment, result, completed := r.id, r.queue, r.environment, r.result, r.completed;
      start, end := r.start, r.end;
    }

    /** `QueueTask`: appends `t` to `Queue`, creating it when missing. */
    method QueueTask(t: TaskContext)
      modifies this
      ensures Record() == old(Record()).WithQueued(t)
    {
      if queue.None? {
        queue := Some([]);
      }
      queue := Some(queue.value + [t]);
    }

    /** `AddCompletedTask`: appends `t` to `Completed`, creating it when missing. */
    method AddCompletedTask(t: TaskContext)
      modifies this
      ensures Record() == old(Record()).WithCompleted(t)
    {
      if completed.None? {
        completed := Some([]);
      }
      completed := Some(completed.value + [t]);
    }

    /** `AddEnvironment`: adds to `Environment`, creating it when missing; a present key throws and
        leaves the context as it was. */
    method AddEnvironment(key: string, value: Value) returns (s: Status<AccessError>)
      modifies this
      ensures var ins := Insert(old(environment), key, value);
        (s.Done? <==> ins.Success?) && (s.Fail? ==> s.error == ins.error)
        && Record() == (if ins.Success? then old(Record()).(environment := Some(ins.value)) else old(Record()))
    {
      if environment.None? {
        environment := Some(map[]);
      } else if key in environment.value {
        return Fail(DuplicateKey(key));
      }
      environment := Some(environment.value[key := value]);
      return Done;
    }

    /** `GetEnvironment`: reads `Environment[key]` converted to `t`. */
    function GetEnvironment(key: string, t: TypeCode, culture: Culture): (r: Result<Value, AccessError>)
      reads this
      ensures environment.None? ==> r == Failure(NoDictionary)
      ensures environment.Some? && key !in environment.value ==> r == Failure(KeyNotFound(key))
      ensures r.Success? ==> environment.Some? && key in environment.value && ChangeType(environment.value[key], t, culture) == Success(r.value)
      ensures environment.Some? && key in environment.value ==>
        (r.Success? <==> ChangeType(environment.value[key], t, culture).Success?)
        && (r.Failure? ==> r.error.Conversion? && ChangeType(environment.value[key], t, culture) == Failure(r.error.cause))
    {
      Lookup(environment, key, t, culture)
    }

    /** `AddResult`: adds to `Result`, creating it when missing; a present key throws and leaves the
        context as it was. */
    method AddResult(key: string, value: Value) returns (s: Status<AccessError>)
      modifies this
      ensures var ins := Insert(old(result), key, value);
        (s.Done? <==> ins.Success?) && (s.Fail? ==> s.error == ins.error)
        && Record() == (if ins.Success? then old(Record()).(result := Some(ins.value)) else old(Record()))
    {
      if result.None? {
        result := Some(map[]);
      } else if key in result.value {
        return Fail(DuplicateKey(key));
      }
      result := Some(result.value[key := value]);
      return Done;
    }

    /** `GetResult`: reads `Result[key]` converted to `t`. */
    function GetResult(key: string, t: TypeCode, culture: Culture): (r: Result<Value, AccessError>)
      reads this
      ensures result.None? ==> r == Failure(NoDictionary)
      ensures result.Some? && key !in result.value ==> r == Failure(KeyNotFound(key))
      ensures r.Success? ==> result.Some? && key in result.value && ChangeType(result.value[key], t, culture) == Success(r.value)
      ensures result.Some? && key in result.value ==>
        (r.Success? <==> ChangeType(result.value[key], t, culture).Success?)
        && (r.Failure? ==> r.error.Conversion? && ChangeType(result.value[key], t, culture) == Failure(r.error.cause))
    {
      Lookup(result, key, t, culture)
    }
  }
}

/** The in-memory task registry (`ThreadUtils`) and the lifecycle of one `AsyncTask`:
    pending -> running -> completed | failed, with a progress field kept in [0, 100].

    The worker thread that runs `_task_wrapper` is modelled by three sequential steps on the
    registry (`StartTask`, `ProgressCallback`, `FinishTask`) and by `Run`, which performs them
    in order for one task. Task ids (`uuid4`) and timestamps (`datetime.now`) are parameters. */
module ThreadUtils {
  import opened Values

  type TaskId = string
  type Timestamp = int

  datatype Status = Pending | Running | Completed | Failed

  /** The callable handed to `submit_task` with its positional arguments. Whether it declares a
      `progress_callback` parameter (found by signature inspection in the source) is the tag. */
  datatype Job = PlainJob(args: seq<Json>) | ProgressJob(args: seq<Json>)

  /** How the job's call ended: it returned a value, or raised an exception whose `str` is given. */
  datatype Outcome<V> = Returned(value: V) | Raised(message: string)

  /** One call `progress_callback(percentage, current=..., total=...)`; `None` is Python's `None`. */
  datatype ProgressCall = ProgressCall(percentage: int, current: Option<int>, total: Option<int>)

  /** An `AsyncTask` record. */
  datatype Task<V> = Task(
    id: TaskId,
    job: Job,
    status: Status,
    progress: int,
    result: Option<V>,
    error: Option<string>,
    createdTime: Timestamp,
    startTime: Option<Timestamp>,
    endTime: Option<Timestamp>)

  /** The snapshot returned by `get_task_status`. */
  datatype StatusView = StatusView(
    taskId: TaskId,
    status: Status,
    progress: int,
    createdTime: Timestamp,
    startTime: Option<Timestamp>,
    endTime: Option<Timestamp>)

  /** The snapshot returned by `get_task_result`. */
  datatype ResultView<V> = ResultView(taskId: TaskId, status: Status, result: Option<V>, error: Option<string>)

  /** A freshly constructed `AsyncTask`. */
  function NewTask<V>(id: TaskId, job: Job, now: Timestamp): Task<V>
  {
    Task(id, job, Pending, 0, None, None, now, None, None)
  }

  /** What each lifecycle state guarantees about the other fields. */
  ghost predicate WellFormed<V>(t: Task<V>)
  {
    && 0 <= t.progress <= 100
    && match t.status
       case Pending =>
         t.progress == 0 && t.result == None && t.error == None && t.startTime == None && t.endTime == None
       case Running =>
         t.result == None && t.error == None && t.startTime.Some? && t.endTime == None
       case Completed =>
         t.progress == 100 && t.result.Some? && t.error == None && t.startTime.Some? && t.endTime.Some?
       case Failed =>
         t.progress == 0 && t.result == None && t.error.Some? && t.startTime.Some? && t.endTime.Some?
  }

  /** `max(0, min(100, x))`. */
  function Clamp(x: int): (r: int)
    ensures 0 <= r <= 100
    ensures 0 <= x <= 100 ==> r == x
    ensures x < 0 ==> r == 0
    ensures x > 100 ==> r == 100
  {
    if x < 0 then 0 else if x > 100 then 100 else x
  }

  /** `max(0, min(100, x))` over the reals, as the source computes it on floats. */
  function ClampReal(x: real): real
  {
    if x < 0.0 then 0.0 else if x > 100.0 then 100.0 else x
  }

  /** The progress the callback stores for `call`, and whether the call raises. The clamped
      percentage is stored first; a given `current` then overrides it when `total > 0`
      (integer division stands for `int(current / total * 100)`), and a given `current` with
      `total` left `None` raises `TypeError` on the comparison `None > 0`. */
  function CallbackEffect(call: ProgressCall): (r: (int, bool))
    ensures 0 <= r.0 <= 100
    ensures r.1 <==> call.current.Some? && call.total.None?
    ensures !(call.current.Some? && call.total.Some? && call.total.value > 0) ==> r.0 == Clamp(call.percentage)
    ensures call.current.Some? && call.total.Some? && call.total.value > 0 ==>
              r.0 == Clamp(call.current.value * 100 / call.total.value)
  {
    var clamped := Clamp(call.percentage);
    match call.current
    case None => (clamped, false)
    case Some(current) =>
      match call.total
      case None => (clamped, true)
      case Some(total) => if total > 0 then (Clamp(current * 100 / total), false) else (clamped, false)
  }

  /** The integer formula agrees with the source's `int(max(0, min(100, current / total * 100)))`
      evaluated in exact arithmetic. */
  lemma FractionMatchesExactArithmetic(current: int, total: int)
    requires total > 0
    ensures Clamp(current * 100 / total) == ClampReal((current as real / total as real) * 100.0).Floor
  {
    var n := current * 100;
    var q := n / total;
    assert q * total <= n < (q + 1) * total;
    var x := (current as real / total as real) * 100.0;
    assert x == n as real / total as real;
    assert x * total as real == n as real;
    assert (q as real) * (total as real) <= x * total as real;
    assert x * total as real < ((q + 1) as real) * (total as real);
    assert q as real <= x < (q + 1) as real;
    if q < 0 {
      assert x < 0.0;
    } else if q >= 100 {
      assert x >= 100.0;
    } else {
      assert 0.0 <= x <= 100.0;
      assert x.Floor == q;
    }
  }

  /** The progress values a job observes after each of its callback calls. */
  function ProgressTrace(calls: seq<ProgressCall>): (r: seq<int>)
    ensures |r| == |calls|
    ensures forall k :: 0 <= k < |r| ==> r[k] == CallbackEffect(calls[k]).0
  {
    if calls == [] then [] else [CallbackEffect(calls[0]).0] + ProgressTrace(calls[1..])
  }

  /** The registry: `ThreadUtils.tasks`, the map from task id to its `AsyncTask`. */
  class TaskRegistry<V> {
    var tasks: map<TaskId, Task<V>>

    /** Every record sits under its own id and is well formed. */
    ghost predicate Valid()
      reads this
    {
      forall id :: id in tasks ==> tasks[id].id == id && WellFormed(tasks[id])
    }

    constructor ()
      ensures Valid() && tasks == map[]
    {
      tasks := map[];
    }

    /** `submit_task`: records a new pending task under the fresh id `id` (a `uuid4` in the
        source) and returns that id; scheduling on the pool is the later `Run`. */
    method SubmitTask(id: TaskId, job: Job, now: Timestamp) returns (taskId: TaskId)
      requires Valid()
      requires id !in tasks
      modifies this
      ensures Valid()
      ensures taskId == id && taskId !in old(tasks)
      ensures tasks == old(tasks)[taskId := NewTask(taskId, job, now)]
      ensures tasks[taskId].status == Pending && tasks[taskId].progress == 0
      ensures tasks[taskId].result == None && tasks[taskId].error == None
      ensures tasks[taskId].startTime == None && tasks[taskId].endTime == None
    {
      tasks := tasks[id := NewTask(id, job, now)];
      taskId := id;
    }

    /** First step of `_task_wrapper`: status becomes running and `start_time` is recorded. */
    method StartTask(id: TaskId, now: Timestamp)
      requires Valid()
      requires id in tasks && tasks[id].status == Pending
      modifies this
      ensures Valid()
      ensures tasks == old(tasks)[id := old(tasks)[id].(status := Running, startTime := Some(now))]
    {
      tasks := tasks[id := tasks[id].(status := Running, startTime := Some(now))];
    }

    /** The `progress_callback` closure bound to task `id`; only a `ProgressJob` is handed it,
        and it is called while the job runs. */
    method ProgressCallback(id: TaskId, call: ProgressCall) returns (raised: bool)
      requires Valid()
      requires id in tasks && tasks[id].status == Running && tasks[id].job.ProgressJob?
      modifies this
      ensures Valid()
      ensures raised == CallbackEffect(call).1
      ensures tasks == old(tasks)[id := old(tasks)[id].(progress := CallbackEffect(call).0)]
      ensures 0 <= tasks[id].progress <= 100
    {
      var effect := CallbackEffect(call);
      tasks := tasks[id := tasks[id].(progress := effect.0)];
      raised := effect.1;
    }

    /** Last part of `_task_wrapper`: a returned value completes the task with progress 100; a
        raised exception fails it with its text and progress 0. `end_time` is set either way. */
    method FinishTask(id: TaskId, outcome: Outcome<V>, now: Timestamp)
      requires Valid()
      requires id in tasks && tasks[id].status == Running
      modifies this
      ensures Valid()
      ensures outcome.Returned? ==>
                tasks == old(tasks)[id := old(tasks)[id].(status := Completed, result := Some(outcome.value),
                                                          progress := 100, endTime := Some(now))]
      ensures outcome.Raised? ==>
                tasks == old(tasks)[id := old(tasks)[id].(status := Failed, error := Some(outcome.message),
                                                          progress := 0, endTime := Some(now))]
    {
      if outcome.Returned? {
        tasks := tasks[id := tasks[id].(status := Completed, result := Some(outcome.value), progress := 100)];
      } else {
        tasks := tasks[id := tasks[id].(status := Failed, error := Some(outcome.message), progress := 0)];
      }
      tasks := tasks[id := tasks[id].(endTime := Some(now))];
    }

    /** One run of the worker for task `id`: start, then the job (which calls the callback with
        `calls` if it is a `ProgressJob`, and is called without one otherwise), then finish with
        the job's `outcome`. `trace` is the progress visible to a poll after each call. */
    method Run(id: TaskId, calls: seq<ProgressCall>, outcome: Outcome<V>, startNow: Timestamp, endNow: Timestamp)
      returns (trace: seq<int>)
      requires Valid()
      requires id in tasks && tasks[id].status == Pending
      modifies this
      ensures Valid()
      ensures id in tasks && tasks == old(tasks)[id := tasks[id]]
      ensures trace == if old(tasks)[id].job.ProgressJob? then ProgressTrace(calls) else []
      ensures tasks[id].startTime == Some(startNow) && tasks[id].endTime == Some(endNow)
      ensures tasks[id].id == id && tasks[id].job == old(tasks)[id].job
      ensures tasks[id].createdTime == old(tasks)[id].createdTime
      ensures outcome.Returned? ==>
                tasks[id].status == Completed && tasks[id].result == Some(outcome.value)
                && tasks[id].error == None && tasks[id].progress == 100
      ensures outcome.Raised? ==>
                tasks[id].status == Failed && tasks[id].error == Some(outcome.message)
                && tasks[id].result == None && tasks[id].progress == 0
    {
      StartTask(id, startNow);
      trace := [];
      if tasks[id].job.ProgressJob? {
        trace := RunJob(id, calls);
      }
      FinishTask(id, outcome, endNow);
    }

    /** The job of a running `ProgressJob` task calling its callback with each of `calls` in turn;
        `trace` is the progress visible after each call. Only the task's progress changes. */
    method RunJob(id: TaskId, calls: seq<ProgressCall>) returns (trace: seq<int>)
      requires Valid()
      requires id in tasks && tasks[id].status == Running && tasks[id].job.ProgressJob?
      modifies this
      ensures Valid()
      ensures id in tasks && tasks == old(tasks)[id := old(tasks)[id].(progress := tasks[id].progress)]
      ensures trace == ProgressTrace(calls)
    {
      ghost var before := tasks;
      trace := [];
      var k := 0;
      while k < |calls|
        invariant 0 <= k <= |calls|
        invariant Valid()
        invariant id in tasks && tasks == before[id := before[id].(progress := tasks[id].progress)]
        invariant trace == ProgressTrace(calls[..k])
      {
        var _ := ProgressCallback(id, calls[k]);
        trace := trace + [tasks[id].progress];
        k := k + 1;
        assert calls[..k] == calls[..k - 1] + [calls[k - 1]];
        ProgressTraceAppend(calls[..k - 1], calls[k - 1]);
      }
      assert calls[..|calls|] == calls;
    }

    /** `get_task_status`: `None` for an unknown id, otherwise that task's snapshot. */
    method GetTaskStatus(id: TaskId) returns (r: Option<StatusView>)
      ensures r.None? <==> id !in tasks
      ensures r.Some? ==>
                && r.value.taskId == tasks[id].id && r.value.status == tasks[id].status
                && r.value.progress == tasks[id].progress && r.value.createdTime == tasks[id].createdTime
                && r.value.startTime == tasks[id].startTime && r.value.endTime == tasks[id].endTime
    {
      if id in tasks {
        var t := tasks[id];
        r := Some(StatusView(t.id, t.status, t.progress, t.createdTime, t.startTime, t.endTime));
      } else {
        r := None;
      }
    }

    /** `get_task_result`: `None` for an unknown id, otherwise id, status, result and error. A task
        that has not finished has neither a result nor an error. */
    method GetTaskResult(id: TaskId) returns (r: Option<ResultView<V>>)
      requires Valid()
      ensures r.None? <==> id !in tasks
      ensures r.Some? ==>
                && r.value.taskId == id && r.value.status == tasks[id].status
                && r.value.result == tasks[id].result && r.value.error == tasks[id].error
      ensures r.Some? && r.value.status in {Pending, Running} ==> r.value.result == None && r.value.error == None
      ensures r.Some? && r.value.status == Completed ==> r.value.result.Some? && r.value.error == None
      ensures r.Some? && r.value.status == Failed ==> r.value.error.Some? && r.value.result == None
    {
      if id in tasks {
        var t := tasks[id];
        r := Some(ResultView(t.id, t.status, t.result, t.error));
      } else {
        r := None;
      }
    }
  }

  lemma {:induction false} ProgressTraceAppend(calls: seq<ProgressCall>, c: ProgressCall)
    ensures ProgressTrace(calls + [c]) == ProgressTrace(calls) + [CallbackEffect(c).0]
  {
    if calls != [] {
      assert (calls + [c])[1..] == calls[1..] + [c];
      ProgressTraceAppend(calls[1..], c);
    }
  }
}

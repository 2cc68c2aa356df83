/** The response rules of the Flask service: how a sync result becomes a response code, how an
    exception becomes a server error, and what the task endpoints answer for a task of the
    registry. A response is the JSON body `{"code", "message", "data"}` with its HTTP status. */
module SyncBugsApp {
  import opened Values
  import opened ThreadUtils
  import FeishuProjectUtils

  const SuccessCode := 0
  const PartialSuccessCode := 1
  const ErrorCode := 2
  const ParamErrorCode := 3

  /** The `data` part of a response. */
  datatype Payload =
    | Counts(count: Json, success: Json, error: Json)
    | ExceptionText(exception: PyError)
    | Empty
    | Snapshot(view: StatusView)
    | TaskError(taskError: Option<string>)
    | StatusOnly(status: Status)
    | Submitted(taskId: TaskId, sprintName: Option<string>)

  datatype Response = Response(code: int, message: string, data: Payload, http: int)

  /** `len(x)`: lists, strings and dicts have a length; anything else raises `TypeError`. */
  function PyLen(j: Json): (r: Result<nat>)
    ensures r.Ok? <==> j.Arr? || j.Str? || j.Obj?
    ensures j.Arr? ==> r == Ok(|j.items|)
  {
    match j
    case Arr(items) => Ok(|items|)
    case Str(s) => Ok(|s|)
    case Obj(m) => Ok(|m|)
    case _ => Err(TypeError)
  }

  /** `process_result(result)`: code 0 when there is no error entry, 1 when there are errors and
      successes, 2 when there are only errors; always HTTP 200, with count, success and error
      echoed (defaulting to 0, [] and []). A result that is not a dict, or whose lists have no
      length, raises. */
  function ProcessResult(result: Json): (r: Result<Response>)
    ensures r.Ok? <==>
              result.Obj? && PyLen(GetOr(result.fields, "error", Arr([]))).Ok? && PyLen(GetOr(result.fields, "success", Arr([]))).Ok?
    ensures r.Ok? ==>
              var errors := PyLen(GetOr(result.fields, "error", Arr([]))).value;
              var successes := PyLen(GetOr(result.fields, "success", Arr([]))).value;
              && r.value.http == 200
              && (r.value.code == SuccessCode <==> errors == 0)
              && (r.value.code == PartialSuccessCode <==> errors > 0 && successes > 0)
              && (r.value.code == ErrorCode <==> errors > 0 && successes == 0)
              && r.value.data == Counts(GetOr(result.fields, "count", Int(0)),
                                        GetOr(result.fields, "success", Arr([])),
                                        GetOr(result.fields, "error", Arr([])))
    ensures !result.Obj? ==> r == Err(AttributeError(TypeName(result), "get"))
  {
    if !result.Obj? then Err(AttributeError(TypeName(result), "get"))
    else
    var errorCount :- PyLen(GetOr(result.fields, "error", Arr([])));
    var successCount :- PyLen(GetOr(result.fields, "success", Arr([])));
    var data := Counts(GetOr(result.fields, "count", Int(0)), GetOr(result.fields, "success", Arr([])),
                       GetOr(result.fields, "error", Arr([])));
    if errorCount == 0 then Ok(Response(SuccessCode, "全部操作成功", data, 200))
    else if successCount > 0 then Ok(Response(PartialSuccessCode, "部分操作成功", data, 200))
    else Ok(Response(ErrorCode, "操作失败", data, 200))
  }

  /** `handle_exception(e)`: code 2, HTTP 500, the exception under `error`. */
  function HandleException(e: PyError): (r: Response)
    ensures r.code == ErrorCode && r.http == 500 && r.data == ExceptionText(e)
  {
    Response(ErrorCode, "服务器内部错误", ExceptionText(e), 500)
  }

  /** The `try`/`except` of every handler: a raised exception becomes `handle_exception`. */
  function Handled(r: Result<Response>): Response
  {
    match r
    case Ok(resp) => resp
    case Err(e) => HandleException(e)
  }

  /** The result set of a sync loop as the dict it is, with each entry given as JSON by `encode`
      (how an entry's key and detail render is not modelled). */
  function EncodeResultSet(rs: FeishuProjectUtils.ResultSet, encode: FeishuProjectUtils.Entry -> Json): (j: Json)
    ensures j.Obj? && Get(j.fields, "count") == Int(rs.count)
    ensures Get(j.fields, "success").Arr? && |Get(j.fields, "success").items| == |rs.success|
    ensures Get(j.fields, "error").Arr? && |Get(j.fields, "error").items| == |rs.error|
  {
    Obj(map["count" := Int(rs.count),
            "success" := Arr(seq(|rs.success|, k requires 0 <= k < |rs.success| => encode(rs.success[k]))),
            "error" := Arr(seq(|rs.error|, k requires 0 <= k < |rs.error| => encode(rs.error[k])))])
  }

  /** A sync result is answered with HTTP 200 and code 0 exactly when it has no error entry, 1
      when it has errors and successes, 2 when it has only errors. */
  lemma SyncResultCode(rs: FeishuProjectUtils.ResultSet, encode: FeishuProjectUtils.Entry -> Json)
    ensures var r := ProcessResult(EncodeResultSet(rs, encode));
            && r.Ok? && r.value.http == 200
            && (r.value.code == SuccessCode <==> rs.error == [])
            && (r.value.code == PartialSuccessCode <==> rs.error != [] && rs.success != [])
            && (r.value.code == ErrorCode <==> rs.error != [] && rs.success == [])
  {
    var j := EncodeResultSet(rs, encode);
    assert GetOr(j.fields, "error", Arr([])) == Get(j.fields, "error");
    assert GetOr(j.fields, "success", Arr([])) == Get(j.fields, "success");
  }

  /** An empty sync (no bugs) is a full success: code 0 even though nothing succeeded. */
  lemma EmptySyncIsSuccess(encode: FeishuProjectUtils.Entry -> Json)
    ensures ProcessResult(EncodeResultSet(FeishuProjectUtils.ResultSet(0, [], []), encode)).value.code == SuccessCode
  {
    SyncResultCode(FeishuProjectUtils.ResultSet(0, [], []), encode);
  }

  /** `POST /sprints/<sprint_name>/sync-bugs`: an empty sprint name is refused before any work;
      otherwise `sync(sprint_name)` is the sprint loop's result or exception. */
  function SyncSprintBugs(sprintName: string, sync: string -> Result<Json>): (r: Response)
    ensures sprintName == "" ==> r == Response(ParamErrorCode, "缺少必要参数: sprint_name", Empty, 400)
    ensures sprintName != "" && sync(sprintName).Err? ==> r == HandleException(sync(sprintName).error)
    ensures sprintName != "" && sync(sprintName).Ok? ==> r == Handled(ProcessResult(sync(sprintName).value))
  {
    if sprintName == "" then Response(ParamErrorCode, "缺少必要参数: sprint_name", Empty, 400)
    else
      match sync(sprintName)
      case Err(e) => HandleException(e)
      case Ok(result) => Handled(ProcessResult(result))
  }

  /** The empty-name check runs before the sync: the answer does not depend on it. */
  lemma EmptySprintNameDoesNoWork(sync1: string -> Result<Json>, sync2: string -> Result<Json>)
    ensures SyncSprintBugs("", sync1) == SyncSprintBugs("", sync2)
    ensures SyncSprintBugs("", sync1).http == 400 && SyncSprintBugs("", sync1).code == ParamErrorCode
  {
  }

  /** `GET /tasks/<task_id>`: 404 with code 2 for an unknown task, otherwise 200 with code 0 and
      the snapshot. */
  function TaskStatusResponse(info: Option<StatusView>): (r: Response)
    ensures info.None? <==> r.http == 404
    ensures info.None? ==> r.code == ErrorCode && r.data == Empty
    ensures info.Some? ==> r.code == SuccessCode && r.http == 200 && r.data == Snapshot(info.value)
  {
    match info
    case None => Response(ErrorCode, "任务不存在", Empty, 404)
    case Some(v) => Response(SuccessCode, "任务状态查询成功", Snapshot(v), 200)
  }

  /** `GET /tasks/<task_id>/result`: 404 with code 2 for an unknown task; for a completed task
      `process_result` of its result (a `None` result raises, giving 500); code 2 with HTTP 200
      and the error for a failed task; code 3 with HTTP 400 and the status otherwise. */
  function TaskResultResponse(info: Option<ResultView<Json>>): (r: Response)
    ensures info.None? ==> r == Response(ErrorCode, "任务不存在", Empty, 404)
    ensures info.Some? && info.value.status == Completed ==>
              r == Handled(ProcessResult(if info.value.result.Some? then info.value.result.value else Null))
    ensures info.Some? && info.value.status == Failed ==>
              r.code == ErrorCode && r.http == 200 && r.data == TaskError(info.value.error)
    ensures info.Some? && info.value.status in {Pending, Running} ==>
              r.code == ParamErrorCode && r.http == 400 && r.data == StatusOnly(info.value.status)
  {
    match info
    case None => Response(ErrorCode, "任务不存在", Empty, 404)
    case Some(v) =>
      if v.status == Completed then
        Handled(ProcessResult(if v.result.Some? then v.result.value else Null))
      else if v.status == Failed then
        Response(ErrorCode, "任务执行失败", TaskError(v.error), 200)
      else
        Response(ParamErrorCode, "任务尚未完成", StatusOnly(v.status), 400)
  }

  /** A completed task's result is never `None`, so its response is `process_result` of the value
      the job returned, and a job returning a result set answers with that set's code. */
  lemma CompletedTaskAnswersWithItsResult(t: Task<Json>, rs: FeishuProjectUtils.ResultSet,
                                          encode: FeishuProjectUtils.Entry -> Json)
    requires WellFormed(t) && t.status == Completed
    requires t.result == Some(EncodeResultSet(rs, encode))
    ensures var r := TaskResultResponse(Some(ResultView(t.id, t.status, t.result, t.error)));
            r.http == 200 && (r.code == SuccessCode <==> rs.error == [])
  {
    SyncResultCode(rs, encode);
  }

  /** A task that has not finished is answered 400 with code 3, whatever its progress. */
  lemma UnfinishedTaskIsNotReady(t: Task<Json>)
    requires WellFormed(t) && t.status in {Pending, Running}
    ensures var r := TaskResultResponse(Some(ResultView(t.id, t.status, t.result, t.error)));
            r == Response(ParamErrorCode, "任务尚未完成", StatusOnly(t.status), 400)
  {
  }

  /** `TaskStatus.get(task_id)`. */
  method GetTaskStatusEndpoint(registry: TaskRegistry<Json>, taskId: TaskId) returns (r: Response)
    ensures taskId !in registry.tasks ==> r.http == 404 && r.code == ErrorCode
    ensures taskId in registry.tasks ==>
              var t := registry.tasks[taskId];
              r == Response(SuccessCode, "任务状态查询成功",
                            Snapshot(StatusView(t.id, t.status, t.progress, t.createdTime, t.startTime, t.endTime)), 200)
  {
    var info := registry.GetTaskStatus(taskId);
    r := TaskStatusResponse(info);
  }

  /** `TaskResult.get(task_id)`. */
  method GetTaskResultEndpoint(registry: TaskRegistry<Json>, taskId: TaskId) returns (r: Response)
    requires registry.Valid()
    ensures r == TaskResultResponse(if taskId in registry.tasks
                                    then Some(ResultView(taskId, registry.tasks[taskId].status,
                                                         registry.tasks[taskId].result, registry.tasks[taskId].error))
                                    else None)
    ensures taskId !in registry.tasks <==> r.http == 404
  {
    var info := registry.GetTaskResult(taskId);
    r := TaskResultResponse(info);
  }

  /** `POST /sprints/<sprint_name>/sync-bugs/async`: an empty name is refused and nothing is
      submitted; otherwise a progress job for the sprint is submitted under the fresh id `taskId`
      and answered 202. */
  method SyncSprintBugsAsync(registry: TaskRegistry<Json>, sprintName: string, taskId: TaskId, now: Timestamp)
    returns (r: Response)
    requires registry.Valid() && taskId !in registry.tasks
    modifies registry
    ensures registry.Valid()
    ensures sprintName == "" ==>
              r == Response(ParamErrorCode, "缺少必要参数: sprint_name", Empty, 400) && registry.tasks == old(registry.tasks)
    ensures sprintName != "" ==>
              && r == Response(SuccessCode, "任务已提交", Submitted(taskId, Some(sprintName)), 202)
              && registry.tasks == old(registry.tasks)[taskId := NewTask(taskId, ProgressJob([Str(sprintName)]), now)]
  {
    if sprintName == "" {
      return Response(ParamErrorCode, "缺少必要参数: sprint_name", Empty, 400);
    }
    var id := registry.SubmitTask(taskId, ProgressJob([Str(sprintName)]), now);
    r := Response(SuccessCode, "任务已提交", Submitted(id, Some(sprintName)), 202);
  }

  /** `POST /bugs/update/async`: the update job (which takes a progress callback) is submitted
      under the fresh id `taskId` and answered 202. */
  method UpdateBugInfoAsync(registry: TaskRegistry<Json>, taskId: TaskId, now: Timestamp) returns (r: Response)
    requires registry.Valid() && taskId !in registry.tasks
    modifies registry
    ensures registry.Valid()
    ensures r == Response(SuccessCode, "任务已提交", Submitted(taskId, None), 202)
    ensures registry.tasks == old(registry.tasks)[taskId := NewTask(taskId, ProgressJob([]), now)]
  {
    var id := registry.SubmitTask(taskId, ProgressJob([]), now);
    r := Response(SuccessCode, "任务已提交", Submitted(id, None), 202);
  }
}

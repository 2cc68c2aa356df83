# AutoPingCode sync core in Dafny

This project models the bookkeeping and decision logic of a small service. The service keeps the
bugs of three trackers in step: PingCode, Feishu Project and Yunxiao. It also collects NVMe SMART
data from a NAS. The model covers:

- **Task registry** (`utils/thread_utils.py`). A class holding a map from task id to task record.
  Tasks follow the lifecycle pending, then running, then completed or failed. Progress is kept in
  [0, 100] by a clamping callback. A deterministic `Run` stands in for the worker thread.
- **Flask responses** (`flask_app/sync_bugs_app.py`).
  - how a sync result becomes response code 0, 1 or 2;
  - how an exception becomes an HTTP 500;
  - what the task status and result endpoints answer;
  - the empty `sprint_name` checks.
- **Feishu Project client** (`utils/feishu_project_utils.py`).
  - reading an API reply;
  - the paging loop of a work-item search;
  - the per-bug loops that push PingCode data into Feishu bugs and PingCode bugs into a sprint.
  The remote services are a record of functions. Each request a loop sends is answered by one of
  them, and the loop's result set, its lookups, its sends and its progress calls are stated.
- **PingCode client** (`utils/ping_code_utils.py`).
  - comment change detection (`format_comments`) and comment text (`get_comment_text`);
  - the status and URL helpers;
  - the field mapping of `get_format_bug_info`.
- **List helpers** (`utils/utils.py`, `utils/yunxiao_utils.py`). First-match searches over lists of
  records, and the per-opcode expansion of `compare_list`. The opcodes of Python's
  `SequenceMatcher` are an input.
- **NAS SMART helpers** (`utils/nas_utils.py`).
  - conversion of NVMe data units to decimal GB. One unit is 1000 × 512 bytes, per the SMART /
    Health Information log page (Log Identifier 02h) of the NVM Express Base Specification.
  - selection of the root device from the detection script's output;
  - the validity check on `smartctl` JSON;
  - the result rule of `fetch_and_store_smart_json`.
- **Log retention** (`utils/log_utils.py`). Which `.log` files `remove_log_by_create_time` deletes:
  it keeps the newest `count` and deletes the rest. The directory is a class whose entries the
  method removes. The sort is an in-place insertion sort on an array.

Shared modules:

- `Values` holds Python's JSON values and the exceptions the code can raise.
  - `.get` on a non-dict raises `AttributeError`;
  - truthiness;
  - a `Result` type for code that raises.
- `Strings` holds `str.strip`, `startswith` and substring containment.

Imperative source code is modelled as methods with loops. Each such method is proved equal to a
function of its inputs or its old state. The properties the source promises are lemmas about
those functions.

## Model

| member | source | states |
|---|---|---|
| ThreadUtils.TaskRegistry.constructor | utils/thread_utils.py:28-32 | A new registry holds no task. |
| ThreadUtils.TaskRegistry.SubmitTask | utils/thread_utils.py:72-82 | Adds exactly one entry, under the fresh id it returns, and leaves every other task unchanged. The new task (utils/thread_utils.py:14-25) is pending with progress 0 and no result, error, start time or end time. |
| ThreadUtils.TaskRegistry.StartTask | utils/thread_utils.py:36-37 | A pending task becomes running with its start time set. Nothing else in the registry changes. |
| ThreadUtils.Clamp | utils/thread_utils.py:43 | The result lies in [0, 100]. It equals the input when the input is in range, 0 below and 100 above. |
| ThreadUtils.CallbackEffect | utils/thread_utils.py:40-45 | The progress a callback call leaves is in [0, 100]. With `current` given and `total > 0` it is the clamped `current*100/total`. Otherwise, including `total == 0`, it is the clamped percentage. The call raises exactly when `current` is given and `total` is `None`. |
| ThreadUtils.FractionMatchesExactArithmetic | utils/thread_utils.py:45 | Integer `clamp(current*100 div total)` equals the floor of the clamped exact rational `current/total*100`. |
| ThreadUtils.TaskRegistry.ProgressCallback | utils/thread_utils.py:40-45 | Only the running task's progress changes, to the callback's clamped value. The method reports whether the call raised. |
| ThreadUtils.ProgressTrace | utils/thread_utils.py:40-45 | The progress after each call of a sequence of callback calls: one value per call, each the call's own effect. |
| ThreadUtils.ProgressTraceAppend | utils/thread_utils.py:40-45 | One more callback call appends exactly its own effect to the trace. |
| ThreadUtils.TaskRegistry.FinishTask | utils/thread_utils.py:60-70 | A returned value leaves the task completed with that result, no error and progress 100. A raised exception leaves it failed with the exception text, no result and progress 0. The end time is set on both paths. No other task changes. |
| ThreadUtils.TaskRegistry.RunJob | utils/thread_utils.py:51-58 | Running a progress job feeds it each callback call in turn. Only that task's progress changes, and the trace is the callback effects of the calls. |
| ThreadUtils.TaskRegistry.Run | utils/thread_utils.py:34-70 | The whole wrapper, with the outcome as an input. Only the task's own entry changes. A progress job gets the callback and a plain job does not. Start and end time are set, and id, job and creation time are kept. The outcome gives completed with progress 100, or failed with progress 0 and no result. |
| ThreadUtils.TaskRegistry.GetTaskStatus | utils/thread_utils.py:84-100 | Returns `None` exactly for an unknown id. Otherwise it returns the task's id, status, progress and times, and changes nothing. |
| ThreadUtils.TaskRegistry.GetTaskResult | utils/thread_utils.py:102-108 | Returns `None` exactly for an unknown id. Otherwise it returns id, status, result and error. Because of the lifecycle invariant, a completed task has a result and no error, a failed one an error and no result, and an unfinished one neither. |
| SyncBugsApp.ProcessResult | flask_app/sync_bugs_app.py:79-94 | Always HTTP 200. Code 0 exactly when there are no errors, even with no successes. Code 1 exactly when there are errors and successes, 2 exactly when there are only errors. Data echoes count (default 0), success and error (default []). A non-dict raises `AttributeError`, and a list without a length raises. |
| SyncBugsApp.HandleException | flask_app/sync_bugs_app.py:97-99 | Always code 2 with HTTP 500 and the exception under `error`. |
| SyncBugsApp.EncodeResultSet | utils/feishu_project_utils.py:297-301 | A loop's result set as the dict it returns: `count` and one JSON item per success entry and per error entry. |
| SyncBugsApp.SyncResultCode | flask_app/sync_bugs_app.py:88-94 | For a sync loop's result set, the code is 0 iff the error list is empty, 1 iff there are errors and successes, and 2 iff there are only errors. |
| SyncBugsApp.EmptySyncIsSuccess | flask_app/sync_bugs_app.py:89-90 | A sync with no bugs (count 0, nothing succeeded) is answered with code 0. |
| SyncBugsApp.SyncSprintBugs | flask_app/sync_bugs_app.py:132-150 | An empty sprint name gives code 3 with HTTP 400. Otherwise the sprint loop's exception goes through `handle_exception` and its result through `process_result`. |
| SyncBugsApp.EmptySprintNameDoesNoWork | flask_app/sync_bugs_app.py:137-138 | The answer for an empty sprint name does not depend on the sync at all: it is refused before any work. |
| SyncBugsApp.TaskStatusResponse | flask_app/sync_bugs_app.py:228-233 | HTTP 404 exactly for an unknown task, with code 2 and empty data. Otherwise code 0, HTTP 200 and the snapshot unchanged. |
| SyncBugsApp.TaskResultResponse | flask_app/sync_bugs_app.py:251-267 | An unknown task gives 404 with code 2. A completed task gives `process_result` of its result. A failed task gives code 2 with HTTP 200 and the error. Pending and running tasks give code 3 with HTTP 400 and the status. |
| SyncBugsApp.CompletedTaskAnswersWithItsResult | flask_app/sync_bugs_app.py:256-259 | A completed task whose result is a sync result set is answered with HTTP 200, and with code 0 iff that set has no errors. |
| SyncBugsApp.UnfinishedTaskIsNotReady | flask_app/sync_bugs_app.py:262-267 | A pending or running task is answered 400 with code 3 and its status, whatever its progress. |
| SyncBugsApp.GetTaskStatusEndpoint | flask_app/sync_bugs_app.py:223-233 | The status endpoint over the registry: 404 with code 2 for an unknown id, otherwise the task's snapshot. |
| SyncBugsApp.GetTaskResultEndpoint | flask_app/sync_bugs_app.py:246-267 | The result endpoint over the registry. It answers 404 exactly for an unknown id. |
| SyncBugsApp.SyncSprintBugsAsync | flask_app/sync_bugs_app.py:188-211 | An empty sprint name gives 400 with code 3 and submits nothing. Otherwise exactly one progress job for the sprint is added, answered 202. |
| SyncBugsApp.UpdateBugInfoAsync | flask_app/sync_bugs_app.py:158-175 | Exactly one progress job is added, answered 202 with its id. |
| SyncBugsApp.PyLen | flask_app/sync_bugs_app.py:81-82 | `len` is defined exactly on lists, strings and dicts, and is a list's item count. |
| FeishuProjectUtils.GetResponseData | utils/feishu_project_utils.py:38-50 | On status 200 it returns the body's key, or the whole body for an empty key; a body that is not JSON raises. Any other status returns the response text. |
| FeishuProjectUtils.ReadFirstReply | utils/feishu_project_utils.py:181-183 | The first reply is read with the source's defaults: `total` 0, `page_size` 50, `data` `[]`. A reply that is not a dict, or whose `pagination` is not a dict (JSON `null`, say), raises `AttributeError`. |
| FeishuProjectUtils.Accumulate | utils/feishu_project_utils.py:183-189 | Adding pages to a list of items keeps it a list. |
| FeishuProjectUtils.SearchWorkItemAll | utils/feishu_project_utils.py:142-190 | The method's outcome is the search rule: the exception of reading the first reply, `TypeError` when `total` or `page_size` is not a number, otherwise the paging loop's outcome. |
| FeishuProjectUtils.FetchPages | utils/feishu_project_utils.py:184-190 | The `while` loop equals the paging rule. The model reports `Diverges` exactly when `page_size <= 0` and `page_size <= total`; the replies fetched in that case are not examined, so a page that would raise there is not reported. Otherwise it adds pages 2 .. n+1 with n = `total div page_size`, ends with the exception of the first page that raises, and leaves `page_num` at n+1. |
| FeishuProjectUtils.AddPage | utils/feishu_project_utils.py:186-189 | One iteration extends the items of the pages before `page_num` by exactly page `page_num`'s `data`, or raises what reading or adding that page raises. |
| FeishuProjectUtils.SearchCollectsEveryPage | utils/feishu_project_utils.py:142-190 | With numeric `total` and `page_size`, the model reports `Diverges` exactly when `page_size <= 0` and `page_size <= total`; the replies fetched in that case are not examined, so a page that would raise there is not reported. Otherwise, when every page's `data` is a list, the result is the first page's items followed by those of pages 2 .. n+1 in page order, and `page_num` is left at n+1, or untouched when n = 0. |
| FeishuProjectUtils.AccumulateErrorPersists | utils/feishu_project_utils.py:186-189 | Once a page raises, the loop raises that same exception however many pages were due. |
| FeishuProjectUtils.IllFormedPageRaises | utils/feishu_project_utils.py:189 | A later reply that is not a dict, or whose `data` is not a list, makes the whole search raise. |
| FeishuProjectUtils.ListPagesConcatenate | utils/feishu_project_utils.py:183-189 | With well-formed replies, the items are the first page's followed by those of pages 2 .. n+1, in page order. |
| FeishuProjectUtils.WithinTotalLeavesMorePages | utils/feishu_project_utils.py:185 | While `page_size * page_num <= total` holds, fewer than n+1 pages have been requested, so the loop measure decreases. |
| FeishuProjectUtils.PageRequestCount | utils/feishu_project_utils.py:181-190 | For `page_size > 0` the number of extra pages n is the one with `page_size*n <= total < page_size*(n+1)`. So the search makes `total div page_size + 1` requests. |
| FeishuProjectUtils.ExtraPagesStopsTheLoop | utils/feishu_project_utils.py:185-187 | Any m at which the loop condition first fails equals the modelled page count. |
| FeishuProjectUtils.ExactMultipleRequestsOneMorePage | utils/feishu_project_utils.py:185 | When `total` is an exact multiple m of the page size, m+1 requests are made. |
| FeishuProjectUtils.PagesFromSplit | utils/feishu_project_utils.py:181-190 | Concatenating pages is associative over page ranges: a range's items are those of its first part followed by those of the rest. |
| FeishuProjectUtils.JsonStrip | utils/feishu_project_utils.py:223-227 | `.strip()` succeeds exactly on strings and gives the stripped text. |
| FeishuProjectUtils.UnescapeNewlines | utils/feishu_project_utils.py:231 | Replacing the two characters `\n` by a newline never lengthens a text, and leaves a text with no backslash unchanged. |
| FeishuProjectUtils.PlannedFields | utils/feishu_project_utils.py:245-264 | The planned fields exist exactly when the PingCode record is a dict, its state id is a scalar (a list or dict state id raises `TypeError` before the comments are fetched), and its comments format. A non-dict record raises `AttributeError`. The URL field is planned iff the Feishu URL is empty, and it holds `get_bug_url` of the record's `short_id`. The status field is planned iff the mapped status differs from Feishu's, and it holds the mapped status. The comments field is planned iff the formatted comments are non-empty, and it holds them. The fields come in the order URL, status, comments. |
| FeishuProjectUtils.FieldListKeys | utils/feishu_project_utils.py:249-264 | An update has the URL field exactly when a URL is given, the status field exactly when a status is, and the comments field exactly when there are comments. |
| FeishuProjectUtils.FieldListOrdered | utils/feishu_project_utils.py:249-264 | The fields of an update appear in the order URL, status, comments, so no key appears twice. |
| FeishuProjectUtils.FieldListValues | utils/feishu_project_utils.py:249-264 | Each field of an update holds the value given for its key: the URL, the status name or the comment paragraphs. |
| FeishuProjectUtils.Keys | utils/feishu_project_utils.py:249-266 | The field keys of an update, in order. |
| FeishuProjectUtils.AddSuccess | utils/feishu_project_utils.py:275 | Appending a success entry leaves the error list and count alone. |
| FeishuProjectUtils.AddError | utils/feishu_project_utils.py:272 | Appending an error entry leaves the success list and count alone. |
| FeishuProjectUtils.GrowsTrans | utils/feishu_project_utils.py:221-295 | Result sets only grow: append-only growth composes over loop steps. |
| FeishuProjectUtils.TrySend | utils/feishu_project_utils.py:267-275 | Sending an update sends exactly that request and adds one entry. That entry is a success exactly when the reply has no truthy `err_code`. |
| FeishuProjectUtils.TryLookup | utils/feishu_project_utils.py:242-282 | The lookup queries the id without its first six characters. It sends an update exactly when the lookup plans a non-empty field list, and the update carries those planned fields for this bug. A success entry is added exactly when an update was sent and accepted. |
| FeishuProjectUtils.TryUpdate | utils/feishu_project_utils.py:221-285 | One bug's attempt: at most one lookup and one update, growing the result set by at most one entry. An update is sent exactly when fields were planned for the bug, and it carries them to the bug's id. A success entry is added exactly when the sent update is accepted, and it records the sent fields under the PingCode id. |
| FeishuProjectUtils.Caught | utils/feishu_project_utils.py:287-291 | A raised exception adds one error entry. Without one the result set is unchanged. |
| FeishuProjectUtils.UpdateStepAppends | utils/feishu_project_utils.py:221-291 | One loop iteration only appends: at most two entries, one lookup and one update. Every new update targets the current bug and carries the non-empty field list planned for it. |
| FeishuProjectUtils.BugProgress | utils/feishu_project_utils.py:293-295 | After the i-th bug the callback gets `current=i+1, total=count`. |
| FeishuProjectUtils.UpdateAllKeepsCount | utils/feishu_project_utils.py:211-212 | The loop never changes `count`. |
| FeishuProjectUtils.UpdateBugInfoFromPingCode | utils/feishu_project_utils.py:192-301 | The loop's result, lookups and sends equal the per-bug fold over all bugs, so every bug is processed. `count` is the number of bugs. With a callback, progress is called with 0, then once per bug, then 100. An empty bug list gives empty success and error lists. |
| FeishuProjectUtils.UpdatesOnlyWithFields | utils/feishu_project_utils.py:249-267 | Every update the loop sends has at least one field, and is the update planned for one of the bugs: addressed to its id and carrying its planned fields. |
| FeishuProjectUtils.LookupUsesIdWithoutPrefix | utils/feishu_project_utils.py:242-243 | A lookup is for the PingCode id with its first six characters dropped. |
| FeishuProjectUtils.MissingIdAddsOneError | utils/feishu_project_utils.py:283-285 | A bug without a PingCode id adds one error entry and sends nothing. |
| FeishuProjectUtils.LookupFailureAddsTwoErrors | utils/feishu_project_utils.py:278-290 | A lookup that yields no data adds two error entries for the one bug: the explicit one, then the re-raised exception's, whose text shows the result set from before the explicit entry. Nothing is sent. |
| FeishuProjectUtils.SuccessIffUpdateAccepted | utils/feishu_project_utils.py:268-275 | An iteration adds a success exactly when it sent an update whose reply has no truthy `err_code`. The entry is keyed by the PingCode id and holds the fields planned for the bug. |
| FeishuProjectUtils.SyncProgressRises | utils/feishu_project_utils.py:200-299 | With a callback, the progress seen by the task is 0, then `i*100 div count` after bug i, then 100. It never decreases. |
| FeishuProjectUtils.FractionAtMostHundred | utils/feishu_project_utils.py:295 | `current*100 div total` lies in [0, 100] for `0 < current <= total`. |
| FeishuProjectUtils.TryPut | utils/feishu_project_utils.py:342-349 | Moving a found bug into the sprint adds at most one entry and looks nothing up. A put is sent exactly when the first found bug is a dict. The put carries that bug's `_id` (`null` when missing) and the PingCode sprint id. A success entry is added exactly when a put was sent and its reply's `data.value` is truthy. Without an exception the entry, success or error, is keyed by the PingCode id and holds the reply. |
| FeishuProjectUtils.TrySprint | utils/feishu_project_utils.py:334-354 | One sprint iteration: at most one put and one entry, every put for the sprint id. The one lookup is for the PingCode id without its first six characters, and happens exactly when the bug has a non-empty id. |
| FeishuProjectUtils.SprintStepAppends | utils/feishu_project_utils.py:332-362 | One sprint iteration only appends: at most two entries. Each new put is for the sprint id. |
| FeishuProjectUtils.SprintAllFacts | utils/feishu_project_utils.py:332-364 | The sprint loop keeps `count`, and every put it makes moves a bug into the PingCode sprint. |
| FeishuProjectUtils.UpdatePingCodeSprintBug | utils/feishu_project_utils.py:303-370 | A failure reading the sprint ids raises before the loop, after the first progress call, and looks up and puts nothing. Otherwise the result set, the lookups and the puts are the per-bug fold over all bugs, `count` is the number of bugs, every put is for the PingCode sprint, and progress follows 0, one call per bug, then 100. |
| FeishuProjectUtils.SprintLookupUsesIdWithoutPrefix | utils/feishu_project_utils.py:334-341 | A sprint iteration looks up the PingCode id with its first six characters dropped, exactly when the bug has a non-empty id. |
| FeishuProjectUtils.SprintPutMovesFoundBug | utils/feishu_project_utils.py:340-343 | A put happens only after a lookup with truthy data, and it moves the `_id` of the first bug found into the sprint. |
| FeishuProjectUtils.SprintSuccessIffPutAccepted | utils/feishu_project_utils.py:343-348 | An iteration adds a success exactly when it put a bug and the reply's `data.value` is truthy. The success entry is keyed by the PingCode id and holds the reply. |
| FeishuProjectUtils.SprintLookupFailureAddsOneError | utils/feishu_project_utils.py:340-352 | A sprint lookup that yields no data adds one error entry and puts nothing. |
| PingCodeUtils.Texted | utils/ping_code_utils.py:128-131 | The comments that have text: a subsequence of the comments, each with text. |
| PingCodeUtils.FormatComment | utils/ping_code_utils.py:128-144 | One loop iteration moves the paragraph list and the newness flag from their values on the first k comments to those on the first k+1. |
| PingCodeUtils.FormatComments | utils/ping_code_utils.py:109-146 | The loop's result equals the specification: `[]` when the payload has no data, otherwise the paragraphs if some comment is new and `[]` if none is. |
| PingCodeUtils.ParagraphPerTextedComment | utils/ping_code_utils.py:128-144 | Exactly one paragraph per comment with text, in input order. Each paragraph is the bold `display_name：` node followed by the comment's text. Comments without text produce nothing. |
| PingCodeUtils.NewnessIsSticky | utils/ping_code_utils.py:132-133 | Once a prefix of the comments holds a new one, the whole list does: the flag never resets. |
| PingCodeUtils.NonBlank | utils/ping_code_utils.py:169 | Keeps exactly the pieces that are not whitespace-only, and no more pieces than it was given. |
| PingCodeUtils.NonBlankConcat | utils/ping_code_utils.py:169 | `filter` works piecewise over a concatenation, so kept pieces keep their order and their repeats. |
| PingCodeUtils.NonBlankOne | utils/ping_code_utils.py:169 | A single piece is kept, unchanged, exactly when it is not whitespace-only. |
| PingCodeUtils.CommentLinePerTextedComment | utils/ping_code_utils.py:165-172 | One line per comment with text, in order. Each line is the author's display name and the comment's non-blank pieces, and no kept piece is blank. |
| PingCodeUtils.GetCommentText | utils/ping_code_utils.py:148-174 | The loop equals the specification. It raises exactly when the comment request failed, and gives `[]` when the payload has no data. |
| PingCodeUtils.GetBugStatusName | utils/ping_code_utils.py:177-188 | A list or dict state id raises `TypeError`. Otherwise the result is `None` exactly for an unmapped state id, and the mapped name for a mapped one. |
| PingCodeUtils.UrlText | utils/ping_code_utils.py:190-201 | A URL has text exactly when its short id is a scalar. A string short id gives `GetBugUrl` of it, and a missing one renders as `None`. |
| PingCodeUtils.GetBugUrl | utils/ping_code_utils.py:190-201 | The URL starts with the base URL followed by `/pjm/workitems/`, and is exactly as long as that prefix plus the short id. |
| PingCodeUtils.BugUrlRoundTrip | utils/ping_code_utils.py:201 | The short id can be read back from the URL. |
| PingCodeUtils.CollectPointwise | utils/ping_code_utils.py:360-395 | A loop that stops at the first exception yields one value per item, each that item's value, or the error of one of the items. |
| PingCodeUtils.CollectErrExtends | utils/ping_code_utils.py:360-395 | Once a prefix has raised, the whole loop raises that same exception. |
| PingCodeUtils.FormatAllPointwise | utils/ping_code_utils.py:347-395 | `get_format_bug_info` gives one record per bug, each that bug's own mapping, or an exception that formatting one of the bugs raises. |
| PingCodeUtils.GetFormatBugInfo | utils/ping_code_utils.py:347-395 | The loop equals the specification fold over the bugs. |
| PingCodeUtils.FormatBug | utils/ping_code_utils.py:362-391 | One iteration computes that bug's mapping. |
| PingCodeUtils.BugInfoFieldMapping | utils/ping_code_utils.py:362-391 | Identifier is copied. The URL is built from the bug's short id: a string one reads back from it, and a missing one renders as `None`. The state id is a scalar, and the state name is `None` iff the state is unmapped, otherwise its mapped name. Assignee is `""` when there is no assignee id. Description is `""` when empty, otherwise the processed HTML. Comments are `get_comment_text`'s lines. |
| PingCodeUtils.UnhashableStateRaises | utils/ping_code_utils.py:376-381 | A list or dict state id makes formatting the bug raise `TypeError`. |
| Utils.SearchListJson | utils/utils.py:166-177 | The result is `{}` or an element of the list. A returned item matches, and no earlier item does. `{}` is returned when no item matches. |
| Utils.NonEqual | utils/utils.py:64-65 | Only opcodes that are not `equal` are kept, each taken from the input. |
| Utils.NonEqualKeeps | utils/utils.py:64-65 | No opcode other than `equal` is dropped. |
| Utils.NonEqualConcat | utils/utils.py:64-65 | The filter works piecewise over a concatenation, so kept opcodes stay in input order. |
| Utils.NonEqualOne | utils/utils.py:64-65 | A single opcode is kept exactly when it is not `equal`. |
| Utils.DeleteRecords | utils/utils.py:124-126 | One delete record per left element, in order, with `right_data ""`. |
| Utils.InsertRecords | utils/utils.py:127-129 | One insert record per right element, in order, with `left_data ""`. |
| Utils.PairRecords | utils/utils.py:88-98 | An equal-length replace gives at most one record per line pair. |
| Utils.PairRecordsSound | utils/utils.py:88-98 | Each record is a replace pairing a left element with the right element at the same index, carrying that pair's non-empty line opcodes. |
| Utils.PairRecordsPrefix | utils/utils.py:89-98 | The records of the first j pairs are a prefix of the records of all pairs. |
| Utils.PairRecordPosition | utils/utils.py:89-98 | Every pair with non-empty line opcodes gets its record, right after the records of the pairs before it, so records follow index order. |
| Utils.AppendDeletes | utils/utils.py:125-126 | The append loop adds exactly the delete records. |
| Utils.AppendInserts | utils/utils.py:128-129 | The append loop adds exactly the insert records. |
| Utils.AppendPairs | utils/utils.py:89-98 | The pairing loop adds exactly the paired records. |
| Utils.HandleOpcode | utils/utils.py:84-129 | One opcode appends exactly its specified records to the diff, including the nested `compare_list` call for an unequal replace. |
| Utils.CompareList | utils/utils.py:70-131 | The loop over the opcodes equals the specification fold over them. |
| Utils.DiffRecordsAreChanges | utils/utils.py:84-131 | Every record is a delete of a left element, an insert of a right element, or a replace pairing elements of both sides with a non-empty list of non-`equal` line opcodes. |
| Utils.NonEqualInRange | utils/utils.py:64-65 | Dropping opcodes keeps the others within the line ranges. |
| Utils.EqualOpcodesContributeNothing | utils/utils.py:85-86 | Dropping the `equal` opcodes does not change the result. |
| Utils.NestedReplaceIsDeletesThenInserts | utils/utils.py:103-109 | Inside a nested call, an unequal replace yields every delete in order, then every insert in order. |
| YunxiaoUtils.FirstMatch | utils/yunxiao_utils.py:53-57 | A non-`None` answer is the result key of an entry whose key equals the wanted value. |
| YunxiaoUtils.FirstMatchFindsFirst | utils/yunxiao_utils.py:54-56 | When entry i is the first match, the answer is its result key. A missing result key raises, and the exception gives `None`. |
| YunxiaoUtils.FirstMatchNone | utils/yunxiao_utils.py:57 | With no match the answer is `None`. |
| YunxiaoUtils.MalformedBeforeMatch | utils/yunxiao_utils.py:58-60 | An entry lacking the key before any match raises, so the answer is `None`. |
| YunxiaoUtils.YunXiaoUtils.constructor | utils/yunxiao_utils.py:14-25 | Stores the member list and the field configuration of the `缺陷` type of the `Bug` category. |
| YunxiaoUtils.YunXiaoUtils.GetUserId | utils/yunxiao_utils.py:42-60 | The answer is the lookup on the stored list. A non-`None` answer is the `userId` of an entry whose `userName` matches. |
| YunxiaoUtils.YunXiaoUtils.GetWorkItemTypeId | utils/yunxiao_utils.py:62-84 | The answer is the first match on the fetched type list. A failed request gives `None`. |
| YunxiaoUtils.YunXiaoUtils.UpdateWorkItem | utils/yunxiao_utils.py:153-172 | Returns the response text of a reply that came back, and `None` exactly when the request raised. |
| YunxiaoUtils.FindIn | utils/yunxiao_utils.py:54-57 | The search loop equals the specification lookup. |
| NasUtils.UnitsToGbIsBytesOverBillion | utils/nas_utils.py:43-45 | `units*512/1_000_000` is the byte count (units × 512 000) over 10^9. |
| NasUtils.UnitsToGbMonotone | utils/nas_utils.py:44-45 | The conversion is monotone in the unit count. |
| NasUtils.ExtractDataUnitsGb | utils/nas_utils.py:26-49 | A non-dict raises `AttributeError`, which is not caught. A missing or falsy health log gives `(None, None)`. A truthy health log that is not a dict raises `AttributeError`. For a dict health log, two numeric counts give each count's conversion, and a missing, `null` or non-numeric count gives `(None, None)`. |
| NasUtils.StrippedNonBlank | utils/nas_utils.py:86 | There are no more kept lines than lines. |
| NasUtils.StrippedNonBlankConcat | utils/nas_utils.py:86 | The comprehension works piecewise over a concatenation, so kept lines stay in input order with their repeats. |
| NasUtils.StrippedNonBlankOne | utils/nas_utils.py:86 | One line gives its stripped text when that is not empty, and nothing otherwise. |
| NasUtils.StrippedNonBlankComplete | utils/nas_utils.py:86 | Every line whose stripped text is not empty contributes that text. |
| NasUtils.StrippedNonBlankSound | utils/nas_utils.py:86 | Every kept text is the stripped text of some line, is not empty, and has no surrounding whitespace left. |
| NasUtils.LastDevLineIsLast | utils/nas_utils.py:87-94 | No device exactly when no line starts with `/dev/`. Otherwise the device is a line starting with `/dev/` after which no line does. |
| NasUtils.ScanFromLast | utils/nas_utils.py:88-91 | The reverse loop with `break` picks the specified last `/dev/` line. |
| NasUtils.SelectRootDevice | utils/nas_utils.py:86-91 | Device selection is the last `/dev/` line of the stripped non-blank lines. |
| NasUtils.IsSmartOutput | utils/nas_utils.py:110 | A dict is accepted iff it has `smartctl_version` or `device`. Accepted output is truthy. `None`, numbers and booleans raise `TypeError`. |
| NasUtils.NasSmart | utils/nas_utils.py:52-122 | Device and dict are both present or both absent. A failed detection or a non-zero exit code gives `(None, None)`. A returned device is the selected line, `smartctl` on it exited 0, and its output passed the validity check. Conversely, when detection succeeds, a `/dev/` line is selected, `smartctl` on it exits 0 with JSON output and that output passes the check, exactly that device and output are returned. |
| NasUtils.NasSmartDevice | utils/nas_utils.py:86-111 | A returned device starts with `/dev/`, and the returned dict is truthy. |
| NasUtils.GetNasSmartAsDict | utils/nas_utils.py:52-122 | The method equals the specification. |
| NasUtils.FetchAndStoreSmartJson | utils/nas_utils.py:146-158 | Nothing is stored and the result is `None` when no device and dict were obtained. Otherwise the device and dict are stored and the result is the new row id, or the exception storing raised. |
| LogUtils.Suffix | utils/log_utils.py:75 | `PurePath.suffix`: empty, or a dot followed by non-dot characters that ends the name and is shorter than it. It is non-empty exactly when the name's last dot is neither its first nor its last character. |
| LogUtils.LogFiles | utils/log_utils.py:75 | The candidates are exactly the regular files with the suffix. |
| LogUtils.SliceStart | utils/log_utils.py:78 | Where `all_logs[count:]` starts: `count` clamped to the length for a non-negative `count`. |
| LogUtils.SortNewestFirst | utils/log_utils.py:77 | Sorts in place, newest first, as a permutation of the logs. |
| LogUtils.OldestLogs | utils/log_utils.py:77-78 | Selects `len - start` logs among the candidates. Every log not selected is at least as new as every selected one. |
| LogUtils.KeptAreNewer | utils/log_utils.py:77-78 | In a newest-first permutation, the tail lies among the logs, and every log outside it is at least as new as every log in it. |
| LogUtils.Keep | utils/log_utils.py:79 | The entries that remain are exactly those not deleted. |
| LogUtils.LogDirectory.UnlinkAll | utils/log_utils.py:78-79 | The deletion loop removes exactly the listed entries. |
| LogUtils.LogDirectory.RemoveLogByCreateTime | utils/log_utils.py:56-79 | Nothing changes for an argument that is neither a `Path` nor a `str`, or for a missing directory. Otherwise only candidate logs are deleted, `len - start` of them, and every kept log is at least as new as every deleted one. So with at most `count` logs nothing is deleted. |
| Values.GetAttr | utils/feishu_project_utils.py:242 | `.get` succeeds exactly on dicts and raises `AttributeError` otherwise. |
| Strings.StripTrims | utils/nas_utils.py:86 | `str.strip` leaves a text that starts and ends with non-whitespace, and leaves nothing exactly when the text is all whitespace. |
| Strings.StripIdempotent | utils/nas_utils.py:86 | Stripping twice is stripping once. |
| Values.GetAttrOr | utils/feishu_project_utils.py:181-183 | `.get(k, default)` succeeds exactly on dicts, with the default for a missing key, and raises `AttributeError` otherwise. |
| Values.PyAdd | utils/feishu_project_utils.py:189 | `list + x` succeeds exactly when `x` is a list, and concatenates. Every failure is a `TypeError`. |
| Values.ScalarText | utils/ping_code_utils.py:201 | Renders each scalar as `str()` does: a string as itself, `None` as `None`, booleans and integers in their Python spelling. Lists and dicts have no text in the model. |

## Left out

- Threads, the executor, the lock and `shutdown`. One deterministic `Run` per task stands in for the worker thread, and polls between its steps are not interleavings.
- Task ids and timestamps. `uuid4` becomes a fresh id passed in by the caller, and `datetime.now()` a timestamp parameter. `isoformat` is not modelled.
- ThreadUtils.CallbackEffect: progress is `current*100 div total` over integers rather than `int(current/total*100)` in floating point. The two can differ by one, for example 29/100 gives 28 in floating point. `FractionMatchesExactArithmetic` relates the model to exact rational arithmetic.
- `inspect.signature` is a tagged job variant: a progress job or a plain job. A job's arguments are opaque, and what it computes is its given outcome.
- HTTP. Every remote reply is an input, or a function of the request. This covers Feishu's token, uploads, searches and PUTs; PingCode's searches, comments and image tokens; and Yunxiao's member list, types and PUT. `RetryableRequest` (`utils/request_utils.py`) is not part of this model: its `raise_for_status` makes a 4xx or 5xx reply an exception, so a reply the model receives as a response stands for one with a non-error status.
- FeishuProjectUtils.UpdateBugInfoFromPingCode: the bug list both sync loops work on is an input, a list of bugs. A search result that is `null` or not a list of dicts, on which `len(_bugs)` or `bug.get` raises, is not passed on to the loops, although `SearchWorkItemAll` can return one.
- FeishuProjectUtils.UpdateBugInfoFromPingCode: the exact text of each error entry and the repr of a caught exception are kept as structured values, not rendered strings.
- FeishuProjectUtils.SearchWorkItemAll: a loop that never terminates is a `Diverges` outcome, not a hang, and the replies it would fetch on the way are not examined. A page size and a total that are both strings or both lists are excluded by its precondition `PagingModelled`: Python would compare them as sequences, which the model does not cover. When a page raises, the caller's `request_data` already holds that page's number; the model returns only the exception.
- FeishuProjectUtils.FetchPages: when `page_size <= 0` and `page_size <= total` the loop is reported as `Diverges` without examining the pages it would fetch. A page there that is `null` or not a dict would make Python raise `AttributeError` at `res.json().get("data", [])`, or `TypeError` when its data is not a list; that exception is not reported.
- FeishuProjectUtils.SearchCollectsEveryPage: its divergence iff is about the model's `Diverges` outcome. It does not cover a page, fetched while the condition never fails, that would make Python raise.
- Utils.CompareList: `SequenceMatcher` and its opcodes are a function parameter. The regex filtering in `custom_compare_string` is left out, since the default filter list is empty.
- Utils.SearchListJson: takes a list of dicts. Iterating `None`, or calling `.get` on an item that is not a dict, raises in Python; that case is not modelled.
- Utils.SearchListJson: values are compared as JSON values. Python's `True == 1` and `False == 0` (also inside lists and dicts) are not modelled, so an item whose value is `True` does not match a wanted `1` here, although Python returns it.
- YunxiaoUtils.FirstMatch: the same JSON comparison stands for Python's `==`, so `True == 1` and `False == 0` are not modelled.
- PingCodeUtils.FormatComments: `jsonpath` `$..text` extraction is an input, one text list per comment. The f-string rendering of the text list is kept as the list itself.
- PingCodeUtils.GetBugStatusName: the status table (`PING_CODE_BUG_STATUS`, from the configuration) is a parameter whose keys are JSON values. Python's equal hashing of `True` and `1` as keys is not modelled.
- PingCodeUtils.UrlText: a list or dict short id has no text in the model. Python would render its `repr` into the URL.
- Values.ScalarText: lists and dicts give `None`, where an f-string renders their `repr`. Only scalar values are rendered.
- PingCodeUtils.BugInfoOf: `process_html_with_tokenized_images` and `add_token_to_img_urls` (BeautifulSoup, urllib) are the bug's processed description, given as input.
- `search_bug_by_id`, `get_bug_info`, `put_work_item_info` and `get_sprints_info` are remote calls, so they are functions of the `Server` record.
- NasUtils.ExtractDataUnitsGb: `round(..., 2)` is left out, and the conversion is exact over reals. Unit counts are integers or booleans, since JSON floats are not modelled.
- NAS I/O: `subprocess`, SSH, `json.loads`, `splitlines`, printing and SQLite (`init_db`, `save_smart_dict_to_db`). Command results arrive as return code plus lines or parsed JSON, and storing is a function parameter.
- The `FetchSmart` and `SmartData` endpoints, the index pages, Flask routing, CORS and static files.
- Logging setup, `close_file_handler` and every log message.
- LogUtils.SortNewestFirst: Python's sort is stable. The model's insertion sort moves an entry only past strictly older ones, but stability is not stated, so the order among logs with equal modification times is not pinned. The docstring of `remove_log_by_create_time` speaks of keeping 4 files, while the code keeps `count`, which defaults to 10; the model follows the code.
- `Utils.get_time`, `get_method_names_*` and the `get_pc_bug_json.py` script.

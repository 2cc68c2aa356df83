/** `FeiShuProjectUtils`: reading Feishu Project API replies, fetching every page of a work-item
    search, and the two loops that push PingCode data into Feishu bugs
    (`update_bug_info_from_ping_code`) and PingCode bugs into a sprint
    (`update_ping_code_sprint_bug`). The remote services are the `Server` record: each request
    the loops send is answered by one of its functions. */
module FeishuProjectUtils {
  import opened Values
  import opened Strings
  import Utils
  import PingCodeUtils
  import opened ThreadUtils

  // ---------------------------------------------------------------------------------------
  // _get_response_data
  // ---------------------------------------------------------------------------------------

  /** An HTTP response: its status, its body parsed as JSON (`None` when it is not JSON), and
      its text. */
  datatype HttpResponse = HttpResponse(statusCode: int, body: Option<Json>, text: string)

  /** `_get_response_data(response, _key)`: on status 200 the body's `_key` entry, or the whole
      body when `_key` is empty; on any other status the response text. */
  function GetResponseData(response: HttpResponse, key: string): (r: Result<Json>)
    ensures response.statusCode != 200 ==> r == Ok(Str(response.text))
    ensures response.statusCode == 200 && response.body.None? ==> r == Err(JsonDecodeError)
    ensures response.statusCode == 200 && response.body.Some? && key == "" ==> r == Ok(response.body.value)
    ensures response.statusCode == 200 && response.body.Some? && key != "" ==>
              r == GetAttr(response.body.value, key)
  {
    if response.statusCode == 200 then
      match response.body
      case None => Err(JsonDecodeError)
      case Some(body) => if key != "" then GetAttr(body, key) else Ok(body)
    else
      Ok(Str(response.text))
  }

  // ---------------------------------------------------------------------------------------
  // search_work_item_all
  // ---------------------------------------------------------------------------------------

  /** What the paging loop reads from the first reply: `pagination.total`,
      `pagination.page_size` and `data`, each with the default the source gives `.get`. */
  datatype FirstReply = FirstReply(total: Json, pageSize: Json, data: Json)

  /** The three `.get` chains on the first reply. A reply or a `pagination` entry that is not a
      dict (JSON `null`, say) raises `AttributeError`. */
  function ReadFirstReply(first: Json): (r: Result<FirstReply>)
    ensures !first.Obj? ==> r == Err(AttributeError(TypeName(first), "get"))
    ensures first.Obj? && !GetOr(first.fields, "pagination", Obj(map[])).Obj? ==>
              r == Err(AttributeError(TypeName(GetOr(first.fields, "pagination", Obj(map[]))), "get"))
    ensures first.Obj? && GetOr(first.fields, "pagination", Obj(map[])).Obj? ==>
              var pagination := GetOr(first.fields, "pagination", Obj(map[])).fields;
              r == Ok(FirstReply(GetOr(pagination, "total", Int(0)), GetOr(pagination, "page_size", Int(50)),
                                 GetOr(first.fields, "data", Arr([]))))
  {
    match GetAttrOr(first, "pagination", Obj(map[]))
    case Err(e) => Err(e)
    case Ok(pagination) =>
      match GetAttrOr(pagination, "total", Int(0))
      case Err(e) => Err(e)
      case Ok(total) =>
        // `first` is a dict here, so its third `.get` cannot raise
        Ok(FirstReply(total, GetOr(pagination.fields, "page_size", Int(50)), GetOr(first.fields, "data", Arr([]))))
  }

  /** Python compares two strings, or two lists, as sequences. A page size and a total that are
      both strings or both lists make `page_size * page_num <= total` such a comparison, which
      this model does not cover. */
  predicate PagingModelled(first: Json)
  {
    match ReadFirstReply(first)
    case Err(_) => true
    case Ok(reply) =>
      !(reply.pageSize.Str? && reply.total.Str?) && !(reply.pageSize.Arr? && reply.total.Arr?)
  }

  /** The number of pages requested after the first one. */
  function ExtraPages(total: int, pageSize: int): nat
  {
    if pageSize > 0 && total >= 0 then total / pageSize else 0
  }

  /** `res_data_list` after `count` more pages: page `k` is answered by `fetch(k)`, its `data`
      (a list by default) is added to the list so far, and the first reply that raises ends the
      loop with its exception. */
  function Accumulate(start: Json, fetch: nat -> Json, count: nat): (r: Result<Json>)
    ensures start.Arr? && r.Ok? ==> r.value.Arr?
  {
    if count == 0 then Ok(start)
    else
      var acc :- Accumulate(start, fetch, count - 1);
      var data :- GetAttrOr(fetch(count + 1), "data", Arr([]));
      PyAdd(acc, data)
  }

  /** What `search_work_item_all` leaves behind: no result at all when the loop condition never
      fails (the pages fetched meanwhile are not examined), the exception it raises, or the items and the caller's `request_data`, whose `page_num` it
      overwrites. */
  datatype Paged = Diverges | Raises(error: PyError) | Done(items: Json, requestData: Dict)

  /** The outcome of a search, as a function of the replies. A page size and a total that are
      not both numbers raise `TypeError` at the first test of the loop condition. */
  function SearchOutcome(requestData: Dict, first: Json, fetch: nat -> Json): Paged
    requires PagingModelled(first)
  {
    match ReadFirstReply(first)
    case Err(e) => Raises(e)
    case Ok(reply) =>
      var total, pageSize := AsNumber(reply.total), AsNumber(reply.pageSize);
      if total.None? || pageSize.None? then Raises(TypeError)
      else PagingOutcome(requestData, reply.data, fetch, total.value, pageSize.value)
  }

  /** The paging loop once the page size and the total are numbers. With `page_size <= 0` and
      `page_size <= total` the condition `page_size * page_num <= total` never becomes false, and
      the outcome is `Diverges` whatever the pages fetched meanwhile hold. */
  function PagingOutcome(requestData: Dict, data: Json, fetch: nat -> Json, total: int, pageSize: int): Paged
  {
    if pageSize <= 0 && pageSize <= total then Diverges
    else
      var n := ExtraPages(total, pageSize);
      match Accumulate(data, fetch, n)
      case Err(e) => Raises(e)
      case Ok(items) => Done(items, if n == 0 then requestData else requestData["page_num" := Int(n + 1)])
  }

  /** `search_work_item_all(work_item_type_key, request_data)`: `first` is the body of the reply
      to the first request and `fetch(n)` the body of the reply once `request_data["page_num"]`
      is `n`. */
  method SearchWorkItemAll(requestData: Dict, first: Json, fetch: nat -> Json) returns (r: Paged)
    requires PagingModelled(first)
    ensures r == SearchOutcome(requestData, first, fetch)
  {
    var reply := ReadFirstReply(first);
    if reply.Err? {
      return Raises(reply.error);
    }
    var total, pageSize := AsNumber(reply.value.total), AsNumber(reply.value.pageSize);
    if total.None? || pageSize.None? {
      return Raises(TypeError);
    }
    r := FetchPages(requestData, reply.value.data, fetch, total.value, pageSize.value);
  }

  /** The `while` loop of `search_work_item_all`, from `res_data_list` holding the first page's
      `data`. */
  method FetchPages(requestData: Dict, firstData: Json, fetch: nat -> Json, total: int, pageSize: int)
    returns (r: Paged)
    ensures r == PagingOutcome(requestData, firstData, fetch, total, pageSize)
  {
    if pageSize <= 0 && pageSize <= total {
      return Diverges;
    }
    var resDataList := firstData;
    var pageNum := 1;
    var data := requestData;
    while pageSize * pageNum <= total
      invariant pageNum >= 1
      invariant pageSize > 0 || pageNum == 1
      invariant pageNum > 1 ==> pageSize * (pageNum - 1) <= total
      invariant Accumulate(firstData, fetch, pageNum - 1) == Ok(resDataList)
      invariant data == (if pageNum == 1 then requestData else requestData["page_num" := Int(pageNum)])
      invariant pageNum - 1 <= ExtraPages(total, pageSize)
      decreases ExtraPages(total, pageSize) - (pageNum - 1)
    {
      assert pageSize > 0;
      WithinTotalLeavesMorePages(total, pageSize, pageNum);
      pageNum := pageNum + 1;
      data := requestData["page_num" := Int(pageNum)];
      var sum := AddPage(firstData, fetch, pageNum, resDataList);
      if sum.Err? {
        AccumulateErrorPersists(firstData, fetch, pageNum - 1, ExtraPages(total, pageSize));
        return Raises(sum.error);
      }
      resDataList := sum.value;
    }
    ExtraPagesStopsTheLoop(total, pageSize, pageNum - 1);
    return Done(resDataList, data);
  }

  /** `res_data_list + res.json().get("data", [])` for page `pageNum`, from the items of the
      pages before it. */
  method AddPage(firstData: Json, fetch: nat -> Json, pageNum: nat, resDataList: Json) returns (sum: Result<Json>)
    requires pageNum >= 2 && Accumulate(firstData, fetch, pageNum - 2) == Ok(resDataList)
    ensures sum == Accumulate(firstData, fetch, pageNum - 1)
  {
    var pageData := GetAttrOr(fetch(pageNum), "data", Arr([]));
    if pageData.Err? {
      return Err(pageData.error);
    }
    sum := PyAdd(resDataList, pageData.value);
  }

  /** Once a page raises, every longer run of the loop raises the same exception. */
  lemma {:induction false} AccumulateErrorPersists(start: Json, fetch: nat -> Json, m: nat, n: nat)
    requires m <= n && Accumulate(start, fetch, m).Err?
    ensures Accumulate(start, fetch, n) == Accumulate(start, fetch, m)
  {
    if m < n {
      AccumulateErrorPersists(start, fetch, m, n - 1);
    }
  }

  /** A page number whose start lies within `total` is at most the number of extra pages. */
  lemma WithinTotalLeavesMorePages(total: int, pageSize: int, m: int)
    requires pageSize > 0 && m >= 1 && pageSize * m <= total
    ensures m <= ExtraPages(total, pageSize)
  {
    var q := total / pageSize;
    DivisionBetweenMultiples(total, pageSize, q);
    MulCancelLt(pageSize, m, q + 1);
  }

  /** The loop stops after `m` extra pages exactly when `m` is `ExtraPages`. */
  lemma ExtraPagesStopsTheLoop(total: int, pageSize: int, m: nat)
    requires pageSize > 0 || pageSize > total
    requires pageSize * (m + 1) > total
    requires m > 0 ==> pageSize > 0 && pageSize * m <= total
    ensures m == ExtraPages(total, pageSize)
  {
    if m > 0 {
      DivisionBetweenMultiples(total, pageSize, m);
    } else if pageSize > 0 && total >= 0 {
      DivisionBetweenMultiples(total, pageSize, 0);
    }
  }

  lemma MulMono(d: int, x: int, y: int)
    requires d >= 0 && x <= y
    ensures d * x <= d * y
  {
  }

  lemma MulCancelLt(d: int, x: int, y: int)
    requires d > 0 && d * x < d * y
    ensures x < y
  {
    if x >= y {
      MulMono(d, y, x);
    }
  }

  /** `q` is the quotient of `total` by `d` when `total` lies between the multiples `d * q` and
      `d * (q + 1)`. */
  lemma DivisionBetweenMultiples(total: int, d: int, q: int)
    requires d > 0 && d * q <= total < d * (q + 1)
    ensures total / d == q
  {
    var q' := total / d;
    assert d * q' <= total < d * (q' + 1);
    MulCancelLt(d, q', q + 1);
    MulCancelLt(d, q, q' + 1);
  }

  /** For a positive page size, the loop requests `total div page_size + 1` pages in all: the last
      requested page is the first whose start lies beyond `total`. */
  lemma PageRequestCount(total: int, pageSize: int)
    requires pageSize > 0 && total >= 0
    ensures var n := ExtraPages(total, pageSize);
            n + 1 == total / pageSize + 1 && pageSize * n <= total < pageSize * (n + 1)
  {
  }

  /** When `total` is an exact multiple `m * page_size`, `m + 1` pages are requested. */
  lemma ExactMultipleRequestsOneMorePage(pageSize: int, m: nat)
    requires pageSize > 0
    ensures ExtraPages(pageSize * m, pageSize) + 1 == m + 1
  {
    DivisionBetweenMultiples(pageSize * m, pageSize, m);
  }

  /** A well-formed page reply: a dict whose `data`, if present, is a list. */
  predicate ListReply(reply: Json)
  {
    reply.Obj? && GetOr(reply.fields, "data", Arr([])).Arr?
  }

  /** The items of the `count` pages numbered `from`, `from + 1`, ..., in page order. */
  function PagesFrom(fetch: nat -> Json, from: nat, count: nat): seq<Json>
    requires forall k :: from <= k < from + count ==> ListReply(fetch(k))
  {
    if count == 0 then []
    else
      var reply := fetch(from + count - 1);
      assert ListReply(reply);
      PagesFrom(fetch, from, count - 1) + GetOr(reply.fields, "data", Arr([])).items
  }

  /** When the first page's `data` is a list and every later reply is well formed, the search
      collects the first page's items followed by those of the later pages, in page order. */
  lemma {:induction false} ListPagesConcatenate(start: seq<Json>, fetch: nat -> Json, count: nat)
    requires forall k :: 2 <= k < 2 + count ==> ListReply(fetch(k))
    ensures Accumulate(Arr(start), fetch, count) == Ok(Arr(start + PagesFrom(fetch, 2, count)))
  {
    if count > 0 {
      ListPagesConcatenate(start, fetch, count - 1);
      assert ListReply(fetch(count + 1));
      var items := GetOr(fetch(count + 1).fields, "data", Arr([])).items;
      assert GetAttrOr(fetch(count + 1), "data", Arr([])) == Ok(Arr(items));
      assert PagesFrom(fetch, 2, count) == PagesFrom(fetch, 2, count - 1) + items;
      assert Accumulate(Arr(start), fetch, count) == PyAdd(Arr(start + PagesFrom(fetch, 2, count - 1)), Arr(items));
      assert PyAdd(Arr(start + PagesFrom(fetch, 2, count - 1)), Arr(items))
          == Ok(Arr(start + PagesFrom(fetch, 2, count - 1) + items));
      assert start + PagesFrom(fetch, 2, count) == start + PagesFrom(fetch, 2, count - 1) + items;
    } else {
      assert start + PagesFrom(fetch, 2, 0) == start;
    }
  }

  /** The whole search once the page size and the total are numbers: the model reports
      `Diverges` exactly when `page_size <= 0` and `page_size <= total`; the replies fetched in
      that case are not examined, so a page that would raise there is not reported. Otherwise, when the first page's `data`
      is a list and the later replies are well formed, it returns the first page's items
      followed by those of pages 2 .. n+1, and leaves `page_num` at n+1 (untouched for n = 0). */
  lemma SearchCollectsEveryPage(requestData: Dict, first: Json, fetch: nat -> Json)
    requires PagingModelled(first) && ReadFirstReply(first).Ok?
    requires AsNumber(ReadFirstReply(first).value.total).Some?
    requires AsNumber(ReadFirstReply(first).value.pageSize).Some?
    ensures var reply := ReadFirstReply(first).value;
            var total, pageSize := AsNumber(reply.total).value, AsNumber(reply.pageSize).value;
            var n := ExtraPages(total, pageSize);
            && (SearchOutcome(requestData, first, fetch).Diverges? <==> pageSize <= 0 && pageSize <= total)
            && (!(pageSize <= 0 && pageSize <= total) && reply.data.Arr?
                && (forall k :: 2 <= k < 2 + n ==> ListReply(fetch(k))) ==>
                  SearchOutcome(requestData, first, fetch)
                  == Done(Arr(reply.data.items + PagesFrom(fetch, 2, n)),
                          if n == 0 then requestData else requestData["page_num" := Int(n + 1)]))
  {
    var reply := ReadFirstReply(first).value;
    var total, pageSize := AsNumber(reply.total).value, AsNumber(reply.pageSize).value;
    var n := ExtraPages(total, pageSize);
    if reply.data.Arr? && forall k :: 2 <= k < 2 + n ==> ListReply(fetch(k)) {
      ListPagesConcatenate(reply.data.items, fetch, n);
    }
  }

  /** A later reply that is not a dict, or whose `data` is not a list (`null`, say), makes the
      whole search raise: `list + None` is a `TypeError`. */
  lemma {:induction false} IllFormedPageRaises(start: seq<Json>, fetch: nat -> Json, count: nat, page: nat)
    requires 2 <= page < 2 + count && !ListReply(fetch(page))
    ensures Accumulate(Arr(start), fetch, count).Err?
  {
    if page < count + 1 {
      IllFormedPageRaises(start, fetch, count - 1, page);
    }
  }

  /** Pages are concatenated in page order: fetching `a` pages and then the following `b` pages
      gives the items of the `a + b` pages. */
  lemma {:induction false} PagesFromSplit(fetch: nat -> Json, from: nat, a: nat, b: nat)
    requires forall k :: from <= k < from + a + b ==> ListReply(fetch(k))
    ensures PagesFrom(fetch, from, a + b) == PagesFrom(fetch, from, a) + PagesFrom(fetch, from + a, b)
  {
    if b > 0 {
      PagesFromSplit(fetch, from, a, b - 1);
    }
  }

  // ---------------------------------------------------------------------------------------
  // The per-bug synchronisation loops
  // ---------------------------------------------------------------------------------------

  /** A Feishu bug of the search reply: its `id`, `name` and `fields` (a missing `fields` reads
      as the empty list). */
  datatype FsBug = FsBug(id: Json, name: Json, fields: seq<Dict>)

  /** The value of one Feishu field. The URL is `get_bug_url(short_id)`, whose text is
      `PingCodeUtils.UrlText` of it. */
  datatype FieldValue =
    | BugUrl(url: PingCodeUtils.WorkItemUrl)
    | StatusName(name: Json)
    | CommentParagraphs(paragraphs: seq<PingCodeUtils.Paragraph>)

  /** One `{"field_key": ..., "field_value": ...}` of `update_fields`. */
  datatype UpdateField = UpdateField(fieldKey: FieldKey, fieldValue: FieldValue)

  /** The three Feishu fields the update writes; `KeyName` is the `field_key` sent. */
  datatype FieldKey = UrlField | StatusField | CommentsField

  function KeyName(key: FieldKey): string
  {
    match key
    case UrlField => "field_f18a13"
    case StatusField => "field_9d59f3"
    case CommentsField => "field_7f6e66"
  }

  /** The position of a field in `update_fields`: the URL, then the status, then the comments. */
  function FieldRank(key: FieldKey): nat
  {
    match key
    case UrlField => 0
    case StatusField => 1
    case CommentsField => 2
  }

  /** An `update_work_item("issue", id, {"update_fields": fields})` request. */
  datatype UpdateRequest = UpdateRequest(workItemId: Json, fields: seq<UpdateField>)

  /** A `put_work_item_info(work_item_id, {"sprint_id": sprint_id})` request. */
  datatype PutRequest = PutRequest(workItemId: Json, sprintId: Json)

  /** The remote services, as the answers they give: PingCode's bug search by id
      (`search_bug_by_id`, whose `None` on failure is `Null`), its comments
      (`get_bug_comments`) and its work-item update (`put_work_item_info`), and Feishu's work-item
      update. */
  datatype Server = Server(
    searchBugById: string -> Json,
    bugComments: Json -> PingCodeUtils.CommentsReply,
    updateWorkItem: UpdateRequest -> HttpResponse,
    putWorkItem: PutRequest -> Json)

  /** The configuration the loops read: PingCode's base URL and the status table. */
  datatype Context = Context(baseUrl: string, statusTable: map<Json, string>)

  /** Who a result entry is about: the PingCode id, or the Feishu bug's name (the key
      `飞书BUG（{name}）`). */
  datatype EntryKey = ByPingCodeId(pcBugId: string) | ByFeishuName(name: Json)

  /** What a result entry records. `LookupRaised` is the exception raised after a failed lookup,
      whose text names the bug and shows the result set as it was before the explicit error entry. */
  datatype EntryDetail =
    | Updated(fields: seq<UpdateField>)
    | Rejected(response: Json)
    | LookupFailed(info: Json)
    | MissingId
    | CaughtError(error: PyError)
    | LookupRaised(pcBugId: string, snapshot: ResultSet)
    | PutReply(response: Json)

  datatype Entry = Entry(key: EntryKey, detail: EntryDetail)

  /** `result_set`. */
  datatype ResultSet = ResultSet(count: nat, success: seq<Entry>, error: seq<Entry>)

  /** The `field_value` of the bug field whose `field_alias` is `alias` (`None` if absent). */
  function FieldValueOf(fields: seq<Dict>, alias: string): Json
  {
    Get(Utils.SearchListJson(fields, "field_alias", Str(alias)), "field_value")
  }

  /** `.strip()` on a value of any type. */
  function JsonStrip(j: Json): (r: Result<string>)
    ensures r.Ok? <==> j.Str?
    ensures j.Str? ==> r.value == Strip(j.s)
  {
    if j.Str? then Ok(Strip(j.s)) else Err(AttributeError(TypeName(j), "strip"))
  }

  /** `s.replace("\\n", "\n")`: every two-character escape backslash-n becomes a newline,
      scanning from the left. */
  function UnescapeNewlines(s: string): (r: string)
    ensures |r| <= |s|
    ensures (forall i :: 0 <= i < |s| ==> s[i] != '\\') ==> r == s
  {
    if |s| >= 2 && s[0] == '\\' && s[1] == 'n' then ['\n'] + UnescapeNewlines(s[2..])
    else if s == [] then []
    else [s[0]] + UnescapeNewlines(s[1..])
  }

  /** `pc_bug_id`: the stripped PingCode id field. */
  function PcBugId(fields: seq<Dict>): Result<string>
  {
    JsonStrip(FieldValueOf(fields, "pingcode_id"))
  }

  /** `fs_bug_comments`: the stored comments text, escapes undone and stripped. */
  function FsComments(fields: seq<Dict>): Result<string>
  {
    var v := GetOr(Utils.SearchListJson(fields, "field_alias", Str("pingcode_comments")), "field_value", Str(""));
    if v.Str? then Ok(Strip(UnescapeNewlines(v.s))) else Err(AttributeError(TypeName(v), "replace"))
  }

  /** `pc_bug_info.get("value")[0]`. */
  function FirstValue(info: Json): Result<Json>
  {
    var value :- GetAttr(info, "value");
    Index0(value)
  }

  /** The keys of the fields of an update. */
  function Keys(fields: seq<UpdateField>): (r: seq<FieldKey>)
    ensures |r| == |fields|
    ensures forall k :: 0 <= k < |r| ==> r[k] == fields[k].fieldKey
  {
    if fields == [] then [] else [fields[0].fieldKey] + Keys(fields[1..])
  }

  /** The fields of a value that is a dict (none otherwise). */
  function FieldsOf(j: Json): Dict
  {
    if j.Obj? then j.fields else map[]
  }

  /** The mapped status name of the PingCode bug `first` (`TypeError` for a list or dict state
      id). */
  function MappedStatus(first: Json, ctx: Context): Result<Json>
  {
    match PingCodeUtils.GetBugStatusName(Get(FieldsOf(first), "state_id"), ctx.statusTable)
    case Err(e) => Err(e)
    case Ok(name) => Ok(OptionToJson(name))
  }

  /** The comments paragraphs `format_comments` gives for the PingCode bug `first`. */
  function NewComments(first: Json, fsComments: string, server: Server): Result<seq<PingCodeUtils.Paragraph>>
  {
    PingCodeUtils.FormatCommentsResult(server.bugComments(Get(FieldsOf(first), "_id")), fsComments)
  }

  /** The fields of an update: the URL when one is given, the status name when one is given, the
      comments paragraphs when there are any, in that order. */
  function FieldList(url: Option<PingCodeUtils.WorkItemUrl>, status: Option<Json>, paragraphs: seq<PingCodeUtils.Paragraph>)
    : seq<UpdateField>
  {
    (if url.Some? then [UpdateField(UrlField, BugUrl(url.value))] else [])
    + (if status.Some? then [UpdateField(StatusField, StatusName(status.value))] else [])
    + (if paragraphs != [] then [UpdateField(CommentsField, CommentParagraphs(paragraphs))] else [])
  }

  /** An update has the URL field exactly when a URL is given, the status field exactly when a
      status is, the comments field exactly when there are paragraphs. */
  lemma FieldListKeys(url: Option<PingCodeUtils.WorkItemUrl>, status: Option<Json>, paragraphs: seq<PingCodeUtils.Paragraph>)
    ensures var keys := Keys(FieldList(url, status, paragraphs));
            && (UrlField in keys <==> url.Some?)
            && (StatusField in keys <==> status.Some?)
            && (CommentsField in keys <==> paragraphs != [])
  {
    var keys := Keys(FieldList(url, status, paragraphs));
    var u := if url.Some? then [UrlField] else [];
    var st := if status.Some? then [StatusField] else [];
    var c := if paragraphs != [] then [CommentsField] else [];
    assert |keys| == |u + st + c|;
    assert keys == u + st + c;
  }

  /** The fields of an update come in the order URL, status, comments (so no key twice). */
  lemma FieldListOrdered(url: Option<PingCodeUtils.WorkItemUrl>, status: Option<Json>, paragraphs: seq<PingCodeUtils.Paragraph>)
    ensures var r := FieldList(url, status, paragraphs);
            forall i, j :: 0 <= i < j < |r| ==> FieldRank(r[i].fieldKey) < FieldRank(r[j].fieldKey)
  {
    assert FieldRank(UrlField) == 0 && FieldRank(StatusField) == 1 && FieldRank(CommentsField) == 2;
  }

  /** Every field of an update carries the value given for its key. */
  lemma FieldListValues(url: Option<PingCodeUtils.WorkItemUrl>, status: Option<Json>, paragraphs: seq<PingCodeUtils.Paragraph>)
    ensures forall f :: f in FieldList(url, status, paragraphs) ==>
              || (url.Some? && f == UpdateField(UrlField, BugUrl(url.value)))
              || (status.Some? && f == UpdateField(StatusField, StatusName(status.value)))
              || (paragraphs != [] && f == UpdateField(CommentsField, CommentParagraphs(paragraphs)))
  {
  }

  /** `update_request_data["update_fields"]` for a bug whose PingCode record is `first`: the URL
      when Feishu has none, the status when it differs from Feishu's, the comments when
      `format_comments` finds something new, in that order. A non-dict record raises
      `AttributeError`, a list or dict state id `TypeError` before the comments are fetched. */
  function PlannedFields(first: Json, fsUrl: Json, fsStatus: Json, fsComments: string, server: Server, ctx: Context)
    : (r: Result<seq<UpdateField>>)
    ensures r.Ok? <==> first.Obj? && MappedStatus(first, ctx).Ok? && NewComments(first, fsComments, server).Ok?
    ensures !first.Obj? ==> r == Err(AttributeError(TypeName(first), "get"))
    ensures first.Obj? && MappedStatus(first, ctx).Err? ==> r == Err(TypeError)
    ensures r.Ok? ==> (UrlField in Keys(r.value) <==> !Truthy(fsUrl))
    ensures r.Ok? ==> (StatusField in Keys(r.value) <==> MappedStatus(first, ctx).value != fsStatus)
    ensures r.Ok? ==> (CommentsField in Keys(r.value) <==> NewComments(first, fsComments, server) != Ok([]))
    ensures r.Ok? ==> forall i, j :: 0 <= i < j < |r.value| ==> FieldRank(r.value[i].fieldKey) < FieldRank(r.value[j].fieldKey)
    ensures r.Ok? ==> forall f :: f in r.value ==>
              || f == UpdateField(UrlField, BugUrl(PingCodeUtils.WorkItemUrl(ctx.baseUrl, Get(FieldsOf(first), "short_id"))))
              || f == UpdateField(StatusField, StatusName(MappedStatus(first, ctx).value))
              || f == UpdateField(CommentsField, CommentParagraphs(NewComments(first, fsComments, server).value))
  {
    if !first.Obj? then Err(AttributeError(TypeName(first), "get"))
    else
    var url := if !Truthy(fsUrl) then Some(PingCodeUtils.WorkItemUrl(ctx.baseUrl, Get(first.fields, "short_id"))) else None;
    var stateName :- MappedStatus(first, ctx);
    var paragraphs :- NewComments(first, fsComments, server);
    var status := if stateName != fsStatus then Some(stateName) else None;
    FieldListKeys(url, status, paragraphs);
    FieldListOrdered(url, status, paragraphs);
    FieldListValues(url, status, paragraphs);
    Ok(FieldList(url, status, paragraphs))
  }

  /** `res.get("err_code")` on the reply to an update, with the reply itself. */
  function ErrCode(response: HttpResponse): Result<(Json, Json)>
  {
    var res :- GetResponseData(response, "");
    var errCode :- GetAttr(res, "err_code");
    Ok((res, errCode))
  }

  /** `after` is `before` with at most `n` entries appended and the count kept. */
  predicate Grows(before: ResultSet, after: ResultSet, n: nat)
  {
    && after.count == before.count
    && |before.success| <= |after.success| && after.success[..|before.success|] == before.success
    && |before.error| <= |after.error| && after.error[..|before.error|] == before.error
    && |after.success| + |after.error| <= |before.success| + |before.error| + n
  }

  /** Growing by `n` and then by `m` is growing by `n + m`. */
  lemma GrowsTrans(a: ResultSet, b: ResultSet, c: ResultSet, n: nat, m: nat)
    requires Grows(a, b, n) && Grows(b, c, m)
    ensures Grows(a, c, n + m)
  {
    assert c.success[..|a.success|] == c.success[..|b.success|][..|a.success|];
    assert c.error[..|a.error|] == c.error[..|b.error|][..|a.error|];
  }

  function AddSuccess(rs: ResultSet, e: Entry): (r: ResultSet)
    ensures Grows(rs, r, 1) && r.error == rs.error && r.success == rs.success + [e]
  {
    rs.(success := rs.success + [e])
  }

  function AddError(rs: ResultSet, e: Entry): (r: ResultSet)
    ensures Grows(rs, r, 1) && r.success == rs.success && r.error == rs.error + [e]
  {
    rs.(error := rs.error + [e])
  }

  /** What the body of the `try` does for one bug: the result set it leaves (appends made before
      an exception stay), the exception that escaped it if any, the id it looked up in PingCode
      and the update it sent. */
  datatype Attempt = Attempt(results: ResultSet, thrown: Option<EntryDetail>, queried: seq<string>, sent: seq<UpdateRequest>)

  /** Sending the planned update for the bug `pcBugId` and recording the reply: a success entry
      when the reply has no `err_code`, an error entry when it has one. */
  function TrySend(rs: ResultSet, pcBugId: string, workItemId: Json, fields: seq<UpdateField>, server: Server): (a: Attempt)
    ensures a.queried == [] && a.sent == [UpdateRequest(workItemId, fields)]
    ensures Grows(rs, a.results, 1)
    ensures |a.results.success| > |rs.success| <==>
              ErrCode(server.updateWorkItem(a.sent[0])).Ok? && !Truthy(ErrCode(server.updateWorkItem(a.sent[0])).value.1)
    ensures |a.results.success| > |rs.success| ==> a.results == AddSuccess(rs, Entry(ByPingCodeId(pcBugId), Updated(fields)))
  {
    var req := UpdateRequest(workItemId, fields);
    match ErrCode(server.updateWorkItem(req))
    case Err(e) => Attempt(rs, Some(CaughtError(e)), [], [req])
    case Ok((res, errCode)) =>
      if Truthy(errCode) then Attempt(AddError(rs, Entry(ByPingCodeId(pcBugId), Rejected(res))), None, [], [req])
      else Attempt(AddSuccess(rs, Entry(ByPingCodeId(pcBugId), Updated(fields))), None, [], [req])
  }

  /** The Feishu side of one bug: `fs_bug_url`, `fs_bug_status` and `fs_bug_comments`. */
  datatype FsState = FsState(url: Json, status: Json, comments: string)

  /** The fields planned for the bug `pcBugId` from its PingCode record, when the lookup finds one
      and planning raises nothing. */
  function LookupPlan(pcBugId: string, fs: FsState, server: Server, ctx: Context): Option<seq<UpdateField>>
  {
    match GetAttr(server.searchBugById(SliceFrom(pcBugId, 6)), "data")
    case Err(_) => None
    case Ok(info) =>
      if !Truthy(info) then None
      else
        match FirstValue(info)
        case Err(_) => None
        case Ok(first) =>
          match PlannedFields(first, fs.url, fs.status, fs.comments, server, ctx)
          case Err(_) => None
          case Ok(fields) => Some(fields)
  }

  /** Looking the bug `pcBugId` up in PingCode under `pc_bug_id[6:]` and planning its update. A
      lookup without data adds an error entry and raises. An update is sent exactly when fields
      were planned, and it carries them. */
  function TryLookup(rs: ResultSet, pcBugId: string, workItemId: Json, fs: FsState, server: Server, ctx: Context): (a: Attempt)
    ensures a.queried == [SliceFrom(pcBugId, 6)]
    ensures Grows(rs, a.results, 1) && |a.sent| <= 1
    ensures |a.sent| == 1 <==> LookupPlan(pcBugId, fs, server, ctx).Some? && LookupPlan(pcBugId, fs, server, ctx).value != []
    ensures forall req :: req in a.sent ==>
              req.fields != [] && req == UpdateRequest(workItemId, LookupPlan(pcBugId, fs, server, ctx).value)
    ensures |a.results.success| > |rs.success| <==>
              |a.sent| == 1 && ErrCode(server.updateWorkItem(a.sent[0])).Ok? && !Truthy(ErrCode(server.updateWorkItem(a.sent[0])).value.1)
    ensures |a.results.success| > |rs.success| ==> a.results == AddSuccess(rs, Entry(ByPingCodeId(pcBugId), Updated(a.sent[0].fields)))
  {
    var q := SliceFrom(pcBugId, 6);
    match GetAttr(server.searchBugById(q), "data")
    case Err(e) => Attempt(rs, Some(CaughtError(e)), [q], [])
    case Ok(info) =>
      if !Truthy(info) then
        var rs1 := AddError(rs, Entry(ByPingCodeId(pcBugId), LookupFailed(info)));
        Attempt(rs1, Some(LookupRaised(pcBugId, rs)), [q], [])
      else
        match FirstValue(info)
        case Err(e) => Attempt(rs, Some(CaughtError(e)), [q], [])
        case Ok(first) =>
          match PlannedFields(first, fs.url, fs.status, fs.comments, server, ctx)
          case Err(e) => Attempt(rs, Some(CaughtError(e)), [q], [])
          case Ok(fields) =>
            if fields == [] then Attempt(rs, None, [q], [])
            else TrySend(rs, pcBugId, workItemId, fields, server).(queried := [q])
  }

  /** The Feishu side of a bug whose stored comments are `fsComments`. */
  function FsStateOf(bug: FsBug, fsComments: string): FsState
  {
    FsState(FieldValueOf(bug.fields, "pingcode_url"), FieldValueOf(bug.fields, "pingcode_status"), fsComments)
  }

  /** The fields planned for a Feishu bug: none unless it has a PingCode id and readable stored
      comments and the lookup plans some. */
  function PlannedUpdate(bug: FsBug, server: Server, ctx: Context): Option<seq<UpdateField>>
  {
    match (PcBugId(bug.fields), FsComments(bug.fields))
    case (Ok(pcBugId), Ok(fsComments)) =>
      if pcBugId == "" then None else LookupPlan(pcBugId, FsStateOf(bug, fsComments), server, ctx)
    case _ => None
  }

  /** The `try` body of `update_bug_info_from_ping_code` for one bug: reading its PingCode id and
      Feishu fields, then the lookup when it has an id. An update is sent exactly when fields were
      planned for the bug, and it carries them; a success entry records them under the PingCode
      id. */
  function TryUpdate(rs: ResultSet, bug: FsBug, server: Server, ctx: Context): (a: Attempt)
    ensures Grows(rs, a.results, 1) && |a.queried| <= 1 && |a.sent| <= 1
    ensures |a.sent| == 1 <==> PlannedUpdate(bug, server, ctx).Some? && PlannedUpdate(bug, server, ctx).value != []
    ensures forall req :: req in a.sent ==>
              req.fields != [] && req == UpdateRequest(bug.id, PlannedUpdate(bug, server, ctx).value)
    ensures |a.results.success| > |rs.success| <==>
              |a.sent| == 1 && ErrCode(server.updateWorkItem(a.sent[0])).Ok? && !Truthy(ErrCode(server.updateWorkItem(a.sent[0])).value.1)
    ensures |a.results.success| > |rs.success| ==>
              PcBugId(bug.fields).Ok? && a.results == AddSuccess(rs, Entry(ByPingCodeId(PcBugId(bug.fields).value), Updated(a.sent[0].fields)))
  {
    match PcBugId(bug.fields)
    case Err(e) => Attempt(rs, Some(CaughtError(e)), [], [])
    case Ok(pcBugId) =>
      match FsComments(bug.fields)
      case Err(e) => Attempt(rs, Some(CaughtError(e)), [], [])
      case Ok(fsComments) =>
        if pcBugId == "" then
          Attempt(AddError(rs, Entry(ByFeishuName(bug.name), MissingId)), None, [], [])
        else
          assert PlannedUpdate(bug, server, ctx) == LookupPlan(pcBugId, FsStateOf(bug, fsComments), server, ctx);
          TryLookup(rs, pcBugId, bug.id, FsStateOf(bug, fsComments), server, ctx)
  }

  /** The `except` clause: an escaped exception is recorded under the Feishu bug's name. */
  function Caught(a: Attempt, bug: FsBug): (r: ResultSet)
    ensures Grows(a.results, r, 1) && r.success == a.results.success
    ensures a.thrown.None? ==> r == a.results
  {
    match a.thrown
    case None => a.results
    case Some(d) => AddError(a.results, Entry(ByFeishuName(bug.name), d))
  }

  /** The state of a sync loop after some bugs: the result set, the ids looked up in PingCode and
      the updates sent. */
  datatype SyncRun = SyncRun(results: ResultSet, queried: seq<string>, sent: seq<UpdateRequest>)

  /** One bug of `update_bug_info_from_ping_code`. */
  function UpdateStep(run: SyncRun, bug: FsBug, server: Server, ctx: Context): SyncRun
  {
    var a := TryUpdate(run.results, bug, server, ctx);
    SyncRun(Caught(a, bug), run.queried + a.queried, run.sent + a.sent)
  }

  /** One bug only appends: at most two result entries, one lookup and one update, the update
      addressed to that bug and carrying the fields planned for it. */
  lemma UpdateStepAppends(run: SyncRun, bug: FsBug, server: Server, ctx: Context)
    ensures var r := UpdateStep(run, bug, server, ctx);
            && Grows(run.results, r.results, 2)
            && |run.queried| <= |r.queried| <= |run.queried| + 1 && r.queried[..|run.queried|] == run.queried
            && |run.sent| <= |r.sent| <= |run.sent| + 1 && r.sent[..|run.sent|] == run.sent
            && forall req :: req in r.sent ==>
                 req in run.sent || (req.fields != [] && req.workItemId == bug.id && PlannedUpdate(bug, server, ctx) == Some(req.fields))
  {
    var a := TryUpdate(run.results, bug, server, ctx);
    GrowsTrans(run.results, a.results, Caught(a, bug), 1, 1);
    assert (run.queried + a.queried)[..|run.queried|] == run.queried;
    assert (run.sent + a.sent)[..|run.sent|] == run.sent;
  }

  /** `req` is the update planned for `bug`: addressed to it and carrying its planned fields. */
  predicate Sends(bug: FsBug, req: UpdateRequest, server: Server, ctx: Context)
  {
    req.workItemId == bug.id && PlannedUpdate(bug, server, ctx) == Some(req.fields)
  }

  /** The loop of `update_bug_info_from_ping_code` over `bugs`, from `run`. */
  function UpdateAll(run: SyncRun, bugs: seq<FsBug>, server: Server, ctx: Context): SyncRun
  {
    if bugs == [] then run
    else UpdateStep(UpdateAll(run, bugs[..|bugs| - 1], server, ctx), bugs[|bugs| - 1], server, ctx)
  }

  /** The callback calls `progress_callback(current=i+1, total=count)` after each of the first `n`
      of `count` bugs. */
  function BugProgress(count: nat, n: nat): (r: seq<ProgressCall>)
    requires n <= count
    ensures |r| == n
    ensures forall i :: 0 <= i < n ==> r[i] == ProgressCall(0, Some(i + 1), Some(count))
  {
    if n == 0 then [] else BugProgress(count, n - 1) + [ProgressCall(0, Some(n), Some(count))]
  }

  /** The callback calls of a sync loop over `count` bugs (none without a callback): 0 first, one
      per bug, 100 last; an empty list goes straight from 0 to 100. */
  function SyncProgress(hasCallback: bool, count: nat): seq<ProgressCall>
  {
    if !hasCallback then []
    else [ProgressCall(0, None, None)] + BugProgress(count, count) + [ProgressCall(100, None, None)]
  }

  /** The loop over `bugs[..k + 1]` is the loop over `bugs[..k]` followed by one step. */
  lemma UpdateAllStep(run: SyncRun, bugs: seq<FsBug>, k: nat, server: Server, ctx: Context)
    requires k < |bugs|
    ensures UpdateAll(run, bugs[..k + 1], server, ctx) == UpdateStep(UpdateAll(run, bugs[..k], server, ctx), bugs[k], server, ctx)
  {
    assert bugs[..k + 1][..k] == bugs[..k];
  }

  lemma BugProgressStep(count: nat, k: nat)
    requires k < count
    ensures [ProgressCall(0, None, None)] + BugProgress(count, k + 1)
            == [ProgressCall(0, None, None)] + BugProgress(count, k) + [ProgressCall(0, Some(k + 1), Some(count))]
  {
  }

  /** The loop never changes the bug count of the result set. */
  lemma {:induction false} UpdateAllKeepsCount(run: SyncRun, bugs: seq<FsBug>, server: Server, ctx: Context)
    ensures UpdateAll(run, bugs, server, ctx).results.count == run.results.count
  {
    if bugs != [] {
      UpdateAllKeepsCount(run, bugs[..|bugs| - 1], server, ctx);
      UpdateStepAppends(UpdateAll(run, bugs[..|bugs| - 1], server, ctx), bugs[|bugs| - 1], server, ctx);
    }
  }

  /** `update_bug_info_from_ping_code(_bugs, progress_callback)`, with `bugs` the list it works on
      (the given `_bugs`, or the search result when `_bugs` is empty). */
  method UpdateBugInfoFromPingCode(bugs: seq<FsBug>, server: Server, ctx: Context, hasCallback: bool)
    returns (resultSet: ResultSet, calls: seq<ProgressCall>, queried: seq<string>, sent: seq<UpdateRequest>)
    ensures SyncRun(resultSet, queried, sent) == UpdateAll(SyncRun(ResultSet(|bugs|, [], []), [], []), bugs, server, ctx)
    ensures calls == SyncProgress(hasCallback, |bugs|)
    ensures resultSet.count == |bugs|
    ensures bugs == [] ==> resultSet == ResultSet(0, [], []) && queried == [] && sent == []
  {
    calls := [];
    if hasCallback {
      calls := calls + [ProgressCall(0, None, None)];
    }
    var bugCount := |bugs|;
    var run := SyncRun(ResultSet(bugCount, [], []), [], []);
    if bugs == [] {
      if hasCallback {
        calls := calls + [ProgressCall(100, None, None)];
      }
      return run.results, calls, run.queried, run.sent;
    }
    for k := 0 to |bugs|
      invariant run == UpdateAll(SyncRun(ResultSet(bugCount, [], []), [], []), bugs[..k], server, ctx)
      invariant calls == if hasCallback then [ProgressCall(0, None, None)] + BugProgress(bugCount, k) else []
    {
      UpdateAllStep(SyncRun(ResultSet(bugCount, [], []), [], []), bugs, k, server, ctx);
      run := UpdateStep(run, bugs[k], server, ctx);
      if hasCallback {
        BugProgressStep(bugCount, k);
        calls := calls + [ProgressCall(0, Some(k + 1), Some(bugCount))];
      }
    }
    assert bugs[..|bugs|] == bugs;
    UpdateAllKeepsCount(SyncRun(ResultSet(bugCount, [], []), [], []), bugs, server, ctx);
    if hasCallback {
      calls := calls + [ProgressCall(100, None, None)];
      assert calls == SyncProgress(true, bugCount);
    }
    return run.results, calls, run.queried, run.sent;
  }

  /** An update is sent only when at least one field was planned, and only for a bug of the
      list, addressed by its Feishu id and carrying the fields planned for that bug. */
  lemma {:induction false} UpdatesOnlyWithFields(run: SyncRun, bugs: seq<FsBug>, server: Server, ctx: Context)
    ensures forall req :: req in UpdateAll(run, bugs, server, ctx).sent ==>
              req in run.sent || (req.fields != [] && exists b :: b in bugs && Sends(b, req, server, ctx))
  {
    if bugs != [] {
      var n := |bugs| - 1;
      UpdatesOnlyWithFields(run, bugs[..n], server, ctx);
      UpdateStepAppends(UpdateAll(run, bugs[..n], server, ctx), bugs[n], server, ctx);
      forall req | req in UpdateAll(run, bugs, server, ctx).sent
        ensures req in run.sent || (req.fields != [] && exists b :: b in bugs && Sends(b, req, server, ctx))
      {
        var prev := UpdateAll(run, bugs[..n], server, ctx);
        if req in prev.sent && !(req in run.sent) {
          var b :| b in bugs[..n] && Sends(b, req, server, ctx);
          assert b in bugs;
        } else if !(req in prev.sent) {
          assert Sends(bugs[n], req, server, ctx);
          assert bugs[n] in bugs;
        }
      }
    }
  }

  /** Each bug is looked up in PingCode under its id with the first six characters dropped, and
      only when it has an id and its stored comments can be read. */
  lemma LookupUsesIdWithoutPrefix(run: SyncRun, bug: FsBug, server: Server, ctx: Context)
    ensures var r := UpdateStep(run, bug, server, ctx);
            r.queried == run.queried +
              (if PcBugId(bug.fields).Ok? && PcBugId(bug.fields).value != "" && FsComments(bug.fields).Ok?
               then [SliceFrom(PcBugId(bug.fields).value, 6)] else [])
  {
  }

  /** A bug without a PingCode id adds exactly one error entry, keyed by its Feishu name, and
      sends nothing. */
  lemma MissingIdAddsOneError(run: SyncRun, bug: FsBug, server: Server, ctx: Context)
    requires PcBugId(bug.fields) == Ok("") && FsComments(bug.fields).Ok?
    ensures var r := UpdateStep(run, bug, server, ctx);
            r.results == AddError(run.results, Entry(ByFeishuName(bug.name), MissingId)) && r.sent == run.sent
  {
  }

  /** A PingCode lookup that returns no data adds two error entries: the explicit one under the
      PingCode id, then the re-raised exception caught under the Feishu name, whose text shows the
      result set from before the first of the two. */
  lemma LookupFailureAddsTwoErrors(run: SyncRun, bug: FsBug, server: Server, ctx: Context)
    requires PcBugId(bug.fields).Ok? && PcBugId(bug.fields).value != "" && FsComments(bug.fields).Ok?
    requires var info := GetAttr(server.searchBugById(SliceFrom(PcBugId(bug.fields).value, 6)), "data");
             info.Ok? && !Truthy(info.value)
    ensures var r := UpdateStep(run, bug, server, ctx);
            var id := PcBugId(bug.fields).value;
            var info := GetAttr(server.searchBugById(SliceFrom(id, 6)), "data").value;
            var rs1 := AddError(run.results, Entry(ByPingCodeId(id), LookupFailed(info)));
            && r.results == AddError(rs1, Entry(ByFeishuName(bug.name), LookupRaised(id, run.results)))
            && r.sent == run.sent
  {
    var id := PcBugId(bug.fields).value;
    var info := GetAttr(server.searchBugById(SliceFrom(id, 6)), "data").value;
    var rs1 := AddError(run.results, Entry(ByPingCodeId(id), LookupFailed(info)));
    var fs := FsStateOf(bug, FsComments(bug.fields).value);
    assert GetAttr(server.searchBugById(SliceFrom(id, 6)), "data") == Ok(info);
    var a := TryLookup(run.results, id, bug.id, fs, server, ctx);
    assert a == Attempt(rs1, Some(LookupRaised(id, run.results)), [SliceFrom(id, 6)], []);
    assert TryUpdate(run.results, bug, server, ctx) == a;
    assert UpdateStep(run, bug, server, ctx) == SyncRun(Caught(a, bug), run.queried + a.queried, run.sent + []);
    assert Caught(a, bug) == AddError(rs1, Entry(ByFeishuName(bug.name), LookupRaised(id, run.results)));
  }

  /** A success entry is added exactly when an update was sent and its reply carries no
      `err_code`; the entry records, under the PingCode id, the fields planned for the bug. */
  lemma SuccessIffUpdateAccepted(run: SyncRun, bug: FsBug, server: Server, ctx: Context)
    ensures var r := UpdateStep(run, bug, server, ctx);
            (|r.results.success| > |run.results.success|) <==>
              (|r.sent| > |run.sent| && ErrCode(server.updateWorkItem(r.sent[|run.sent|])).Ok?
               && !Truthy(ErrCode(server.updateWorkItem(r.sent[|run.sent|])).value.1))
    ensures var r := UpdateStep(run, bug, server, ctx);
            |r.results.success| > |run.results.success| ==>
              && PcBugId(bug.fields).Ok? && PlannedUpdate(bug, server, ctx).Some?
              && r.results.success == run.results.success
                   + [Entry(ByPingCodeId(PcBugId(bug.fields).value), Updated(PlannedUpdate(bug, server, ctx).value))]
  {
    var a := TryUpdate(run.results, bug, server, ctx);
    assert UpdateStep(run, bug, server, ctx).sent == run.sent + a.sent;
  }

  /** The progress the task records through the callback calls of a sync loop starts at 0, never
      goes down, and ends at 100; after bug `i` of `count` it is `i * 100 / count`. */
  lemma {:induction false} SyncProgressRises(count: nat)
    ensures var trace := ProgressTrace(SyncProgress(true, count));
            && |trace| == count + 2
            && trace[0] == 0 && trace[count + 1] == 100
            && (forall i :: 1 <= i <= count ==> trace[i] == i * 100 / count)
            && (forall i, j :: 0 <= i <= j < |trace| ==> trace[i] <= trace[j])
  {
    var calls := SyncProgress(true, count);
    var trace := ProgressTrace(calls);
    assert calls[0] == ProgressCall(0, None, None);
    assert calls[count + 1] == ProgressCall(100, None, None);
    forall i | 1 <= i <= count
      ensures trace[i] == i * 100 / count
      ensures 0 <= trace[i] <= 100
    {
      assert calls[i] == ProgressCall(0, Some(i), Some(count));
      FractionAtMostHundred(i, count);
    }
    forall i, j | 0 <= i <= j < |trace|
      ensures trace[i] <= trace[j]
    {
      if 0 < i && j <= count {
        DivisionMonotone(i * 100, j * 100, count);
      }
    }
  }

  /** `current * 100 / total` lies in [0, 100] for `0 < current <= total`. */
  lemma FractionAtMostHundred(current: nat, total: nat)
    requires 0 < current <= total
    ensures 0 <= current * 100 / total <= 100
  {
    DivisionMonotone(current * 100, total * 100, total);
    assert total * 100 / total == 100;
  }

  lemma DivisionMonotone(a: nat, b: nat, d: nat)
    requires a <= b && d > 0
    ensures a / d <= b / d
  {
    var qa, qb := a / d, b / d;
    assert d * qa <= a && b < d * (qb + 1);
    MulCancelLt(d, qa, qb + 1);
  }

  /** The sprint the bugs go into: the Feishu sprint id from the filter search and the PingCode
      sprint id from `get_sprints_info`, or the exception raised while reading them (outside any
      `try`, so it ends the whole call). */
  function SprintIds(fsSprintInfo: Result<Json>, pcSprintsInfo: Json): Result<(Json, Json)>
  {
    var info :- fsSprintInfo;
    var fsData :- GetAttr(info, "data");
    var fsFirst :- Index0(fsData);
    var fsSprintId :- GetAttr(fsFirst, "id");
    var pcData :- GetAttr(pcSprintsInfo, "data");
    var pcFirst :- FirstValue(pcData);
    var pcSprintId :- GetAttr(pcFirst, "_id");
    Ok((fsSprintId, pcSprintId))
  }

  /** A sprint-loop iteration's `try` body: the result set it leaves, the exception that escaped,
      the id looked up and the PingCode update sent. */
  datatype SprintAttempt = SprintAttempt(results: ResultSet, thrown: Option<PyError>, queried: seq<string>, puts: seq<PutRequest>)

  /** PingCode accepted a sprint move when its reply's `data.value` is truthy. */
  predicate PutAccepted(res: Json)
  {
    && GetAttr(res, "data").Ok?
    && GetAttr(GetAttr(res, "data").value, "value").Ok?
    && Truthy(GetAttr(GetAttr(res, "data").value, "value").value)
  }

  /** Moving the PingCode bug `first` into the sprint and recording PingCode's reply: a success
      entry when its `data.value` is truthy, an error entry otherwise. */
  function TryPut(rs: ResultSet, pcBugId: string, first: Json, server: Server, pcSprintId: Json): (a: SprintAttempt)
    ensures Grows(rs, a.results, 1) && a.queried == []
    ensures a.puts != [] <==> GetAttr(first, "_id").Ok?
    ensures a.puts != [] ==> a.puts == [PutRequest(GetAttr(first, "_id").value, pcSprintId)]
    ensures |a.results.success| > |rs.success| <==> a.puts != [] && PutAccepted(server.putWorkItem(a.puts[0]))
    ensures a.thrown.None? ==>
              a.puts != [] &&
              var entry := Entry(ByPingCodeId(pcBugId), PutReply(server.putWorkItem(a.puts[0])));
              a.results == if PutAccepted(server.putWorkItem(a.puts[0])) then AddSuccess(rs, entry) else AddError(rs, entry)
  {
    match GetAttr(first, "_id")
    case Err(e) => SprintAttempt(rs, Some(e), [], [])
    case Ok(tempId) =>
      var put := PutRequest(tempId, pcSprintId);
      var res := server.putWorkItem(put);
      match GetAttr(res, "data")
      case Err(e) => SprintAttempt(rs, Some(e), [], [put])
      case Ok(data) =>
        match GetAttr(data, "value")
        case Err(e) => SprintAttempt(rs, Some(e), [], [put])
        case Ok(value) =>
          if Truthy(value) then SprintAttempt(AddSuccess(rs, Entry(ByPingCodeId(pcBugId), PutReply(res))), None, [], [put])
          else SprintAttempt(AddError(rs, Entry(ByPingCodeId(pcBugId), PutReply(res))), None, [], [put])
  }

  /** The `try` body of `update_ping_code_sprint_bug` for one bug. A lookup without data adds an
      error entry and nothing is raised. */
  function TrySprint(rs: ResultSet, bug: FsBug, server: Server, pcSprintId: Json): (a: SprintAttempt)
    ensures Grows(rs, a.results, 1) && |a.puts| <= 1
    ensures forall p :: p in a.puts ==> p.sprintId == pcSprintId
    ensures a.queried == if PcBugId(bug.fields).Ok? && PcBugId(bug.fields).value != ""
                         then [SliceFrom(PcBugId(bug.fields).value, 6)] else []
  {
    match PcBugId(bug.fields)
    case Err(e) => SprintAttempt(rs, Some(e), [], [])
    case Ok(pcBugId) =>
      if pcBugId == "" then
        SprintAttempt(AddError(rs, Entry(ByFeishuName(bug.name), MissingId)), None, [], [])
      else
        var q := SliceFrom(pcBugId, 6);
        match GetAttr(server.searchBugById(q), "data")
        case Err(e) => SprintAttempt(rs, Some(e), [q], [])
        case Ok(info) =>
          if !Truthy(info) then
            SprintAttempt(AddError(rs, Entry(ByPingCodeId(pcBugId), LookupFailed(info))), None, [q], [])
          else
            match FirstValue(info)
            case Err(e) => SprintAttempt(rs, Some(e), [q], [])
            case Ok(first) => TryPut(rs, pcBugId, first, server, pcSprintId).(queried := [q])
  }

  /** The state of the sprint loop after some bugs. */
  datatype SprintRun = SprintRun(results: ResultSet, queried: seq<string>, puts: seq<PutRequest>)

  /** One bug of `update_ping_code_sprint_bug`, the `except` clause included. */
  function SprintStep(run: SprintRun, bug: FsBug, server: Server, pcSprintId: Json): SprintRun
  {
    var a := TrySprint(run.results, bug, server, pcSprintId);
    var rs := match a.thrown
      case None => a.results
      case Some(e) => AddError(a.results, Entry(ByFeishuName(bug.name), CaughtError(e)));
    SprintRun(rs, run.queried + a.queried, run.puts + a.puts)
  }

  /** One bug of the sprint loop only appends, at most two result entries, and only moves bugs
      into the PingCode sprint found for the name. */
  lemma SprintStepAppends(run: SprintRun, bug: FsBug, server: Server, pcSprintId: Json)
    ensures var r := SprintStep(run, bug, server, pcSprintId);
            && Grows(run.results, r.results, 2)
            && forall p :: p in r.puts ==> p in run.puts || p.sprintId == pcSprintId
  {
    var a := TrySprint(run.results, bug, server, pcSprintId);
    assert SprintStep(run, bug, server, pcSprintId).results.error[..|run.results.error|] == a.results.error[..|run.results.error|];
  }

  /** The sprint loop keeps the bug count and puts every bug into the same sprint. */
  lemma {:induction false} SprintAllFacts(run: SprintRun, bugs: seq<FsBug>, server: Server, pcSprintId: Json)
    requires forall p :: p in run.puts ==> p.sprintId == pcSprintId
    ensures SprintAll(run, bugs, server, pcSprintId).results.count == run.results.count
    ensures forall p :: p in SprintAll(run, bugs, server, pcSprintId).puts ==> p.sprintId == pcSprintId
  {
    if bugs != [] {
      SprintAllFacts(run, bugs[..|bugs| - 1], server, pcSprintId);
      SprintStepAppends(SprintAll(run, bugs[..|bugs| - 1], server, pcSprintId), bugs[|bugs| - 1], server, pcSprintId);
    }
  }

  function SprintAll(run: SprintRun, bugs: seq<FsBug>, server: Server, pcSprintId: Json): SprintRun
  {
    if bugs == [] then run
    else SprintStep(SprintAll(run, bugs[..|bugs| - 1], server, pcSprintId), bugs[|bugs| - 1], server, pcSprintId)
  }

  /** The loop over `bugs[..k + 1]` is the loop over `bugs[..k]` followed by one step. */
  lemma SprintAllStep(run: SprintRun, bugs: seq<FsBug>, k: nat, server: Server, pcSprintId: Json)
    requires k < |bugs|
    ensures SprintAll(run, bugs[..k + 1], server, pcSprintId) == SprintStep(SprintAll(run, bugs[..k], server, pcSprintId), bugs[k], server, pcSprintId)
  {
    assert bugs[..k + 1][..k] == bugs[..k];
  }

  /** `update_ping_code_sprint_bug(sprint_name, progress_callback)`: `fsSprintInfo` and
      `pcSprintsInfo` are the replies of the sprint searches for `sprint_name`, and `bugs` the
      Feishu bugs of that sprint as `search_work_item_all` returns them. An exception while
      reading the sprint ids ends the call, after the first progress call. */
  method UpdatePingCodeSprintBug(fsSprintInfo: Result<Json>, pcSprintsInfo: Json, bugs: seq<FsBug>, server: Server,
                                 hasCallback: bool)
    returns (r: Result<ResultSet>, calls: seq<ProgressCall>, queried: seq<string>, puts: seq<PutRequest>)
    ensures SprintIds(fsSprintInfo, pcSprintsInfo).Err? ==>
              r == Err(SprintIds(fsSprintInfo, pcSprintsInfo).error) && queried == [] && puts == [] &&
              calls == (if hasCallback then [ProgressCall(0, None, None)] else [])
    ensures SprintIds(fsSprintInfo, pcSprintsInfo).Ok? ==>
              var run := SprintAll(SprintRun(ResultSet(|bugs|, [], []), [], []), bugs, server, SprintIds(fsSprintInfo, pcSprintsInfo).value.1);
              r == Ok(run.results) && queried == run.queried && puts == run.puts && calls == SyncProgress(hasCallback, |bugs|)
    ensures r.Ok? ==> r.value.count == |bugs|
    ensures forall p :: p in puts ==> p.sprintId == SprintIds(fsSprintInfo, pcSprintsInfo).value.1
  {
    calls := if hasCallback then [ProgressCall(0, None, None)] else [];
    queried, puts := [], [];
    var ids := SprintIds(fsSprintInfo, pcSprintsInfo);
    if ids.Err? {
      return Err(ids.error), calls, queried, puts;
    }
    var pcSprintId := ids.value.1;
    var bugCount := |bugs|;
    var run := SprintRun(ResultSet(bugCount, [], []), [], []);
    for k := 0 to |bugs|
      invariant run == SprintAll(SprintRun(ResultSet(bugCount, [], []), [], []), bugs[..k], server, pcSprintId)
      invariant calls == if hasCallback then [ProgressCall(0, None, None)] + BugProgress(bugCount, k) else []
    {
      SprintAllStep(SprintRun(ResultSet(bugCount, [], []), [], []), bugs, k, server, pcSprintId);
      run := SprintStep(run, bugs[k], server, pcSprintId);
      if hasCallback {
        BugProgressStep(bugCount, k);
        calls := calls + [ProgressCall(0, Some(k + 1), Some(bugCount))];
      }
    }
    assert bugs[..|bugs|] == bugs;
    SprintAllFacts(SprintRun(ResultSet(bugCount, [], []), [], []), bugs, server, pcSprintId);
    if hasCallback {
      calls := calls + [ProgressCall(100, None, None)];
      assert calls == SyncProgress(true, bugCount);
    }
    return Ok(run.results), calls, run.queried, run.puts;
  }

  /** In the sprint loop a failed lookup adds one error entry only: nothing is re-raised. */
  lemma SprintLookupFailureAddsOneError(run: SprintRun, bug: FsBug, server: Server, pcSprintId: Json)
    requires PcBugId(bug.fields).Ok? && PcBugId(bug.fields).value != ""
    requires var info := GetAttr(server.searchBugById(SliceFrom(PcBugId(bug.fields).value, 6)), "data");
             info.Ok? && !Truthy(info.value)
    ensures var r := SprintStep(run, bug, server, pcSprintId);
            var id := PcBugId(bug.fields).value;
            var info := GetAttr(server.searchBugById(SliceFrom(id, 6)), "data").value;
            r.results == AddError(run.results, Entry(ByPingCodeId(id), LookupFailed(info))) && r.puts == run.puts
  {
  }

  /** Each bug of the sprint loop is looked up in PingCode under its id with the first six
      characters dropped, and only when it has an id. */
  lemma SprintLookupUsesIdWithoutPrefix(run: SprintRun, bug: FsBug, server: Server, pcSprintId: Json)
    ensures var r := SprintStep(run, bug, server, pcSprintId);
            r.queried == run.queried +
              (if PcBugId(bug.fields).Ok? && PcBugId(bug.fields).value != ""
               then [SliceFrom(PcBugId(bug.fields).value, 6)] else [])
  {
    var a := TrySprint(run.results, bug, server, pcSprintId);
    assert SprintStep(run, bug, server, pcSprintId).queried == run.queried + a.queried;
  }

  /** The bug moved into the sprint is the first PingCode bug the lookup found, addressed by its
      `_id`. */
  lemma SprintPutMovesFoundBug(run: SprintRun, bug: FsBug, server: Server, pcSprintId: Json)
    ensures var r := SprintStep(run, bug, server, pcSprintId);
            |r.puts| > |run.puts| ==>
              && PcBugId(bug.fields).Ok?
              && var info := GetAttr(server.searchBugById(SliceFrom(PcBugId(bug.fields).value, 6)), "data");
              && info.Ok? && Truthy(info.value) && FirstValue(info.value).Ok?
              && GetAttr(FirstValue(info.value).value, "_id").Ok?
              && r.puts == run.puts + [PutRequest(GetAttr(FirstValue(info.value).value, "_id").value, pcSprintId)]
  {
    var a := TrySprint(run.results, bug, server, pcSprintId);
    assert SprintStep(run, bug, server, pcSprintId).puts == run.puts + a.puts;
  }

  /** A success entry is added exactly when a bug was moved and PingCode's reply carries a
      truthy `data.value`; the entry, keyed by the PingCode id, records that reply. */
  lemma SprintSuccessIffPutAccepted(run: SprintRun, bug: FsBug, server: Server, pcSprintId: Json)
    ensures var r := SprintStep(run, bug, server, pcSprintId);
            (|r.results.success| > |run.results.success|) <==>
              (|r.puts| > |run.puts| && PutAccepted(server.putWorkItem(r.puts[|run.puts|])))
    ensures var r := SprintStep(run, bug, server, pcSprintId);
            |r.results.success| > |run.results.success| ==>
              PcBugId(bug.fields).Ok? &&
              r.results.success == run.results.success +
                [Entry(ByPingCodeId(PcBugId(bug.fields).value), PutReply(server.putWorkItem(r.puts[|run.puts|])))]
  {
    var a := TrySprint(run.results, bug, server, pcSprintId);
    assert SprintStep(run, bug, server, pcSprintId).puts == run.puts + a.puts;
  }
}

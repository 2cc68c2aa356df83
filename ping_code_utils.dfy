/** The parts of `PingCodeClient` that decide and build content: comment change detection
    (`format_comments`), comment text extraction (`get_comment_text`), the status and URL helpers,
    and the per-bug field mapping of `get_format_bug_info`. The HTTP replies are inputs, and the
    strings an f-string would render are kept as the values they are rendered from. */
module PingCodeUtils {
  import opened Values
  import opened Strings
  import Utils

  /** One comment: its `created_by` and the strings `jsonpath(comment, "$..text")` finds in it
      (empty where jsonpath finds none). */
  datatype Comment = Comment(createdBy: Json, texts: seq<string>)

  /** The `data` block of a comments reply: `value` (the comments) and `references.users`. */
  datatype CommentData = CommentData(values: seq<Comment>, users: seq<Dict>)

  /** What `get_bug_comments` returns: `None` after a failed request, a reply whose `data` is
      falsy, or a reply with data. */
  datatype CommentsReply = RequestFailed | NoData | Data(data: CommentData)

  /** The text of a node: the author label `f"{display_name}："` or `f"{comment_text}"` for the
      list of text pieces. */
  datatype Text = AuthorLabel(displayName: Json) | TextList(texts: seq<string>)

  /** `{"type": "text", "text": ..., "attrs": {"bold": "true"}}`, the attrs only when bold. */
  datatype TextNode = TextNode(text: Text, bold: bool)

  /** `{"type": "paragraph", "content": [...]}`. */
  datatype Paragraph = Paragraph(content: seq<TextNode>)

  /** `f"{user_display_name}：{comment_text}"` as built by `get_comment_text`. */
  datatype CommentLine = CommentLine(displayName: Json, texts: seq<string>)

  /** The error of calling `.get` on the `None` a failed request returns. */
  const NoneHasNoGet := AttributeError("NoneType", "get")

  /** `display_name` of the first user whose `uid` is `createdBy` (`None` if there is none). */
  function DisplayName(users: seq<Dict>, createdBy: Json): Json
  {
    Get(Utils.SearchListJson(users, "uid", createdBy), "display_name")
  }

  /** The paragraph `format_comments` builds for one comment with text. */
  function CommentParagraph(c: Comment, users: seq<Dict>): Paragraph
  {
    Paragraph([TextNode(AuthorLabel(DisplayName(users, c.createdBy)), true), TextNode(TextList(c.texts), false)])
  }

  /** `all(item in old_comment_data for item in comment_text)`. */
  predicate AllSeen(oldCommentData: string, texts: seq<string>)
  {
    forall i | 0 <= i < |texts| :: Contains(oldCommentData, texts[i])
  }

  /** The comments that have text, in order. */
  function Texted(cs: seq<Comment>): (r: seq<Comment>)
    ensures |r| <= |cs|
    ensures forall k :: 0 <= k < |r| ==> r[k].texts != [] && r[k] in cs
  {
    if cs == [] then []
    else
      var n := |cs| - 1;
      if cs[n].texts != [] then Texted(cs[..n]) + [cs[n]] else Texted(cs[..n])
  }

  /** `comment_request_list` after the loop of `format_comments` has seen `cs`. */
  function Paragraphs(cs: seq<Comment>, users: seq<Dict>): seq<Paragraph>
  {
    if cs == [] then []
    else
      var n := |cs| - 1;
      if cs[n].texts != [] then Paragraphs(cs[..n], users) + [CommentParagraph(cs[n], users)]
      else Paragraphs(cs[..n], users)
  }

  /** `is_new_comment` after the loop: the old text is empty, or some comment has a text piece
      that does not occur in it. */
  predicate HasNewComment(cs: seq<Comment>, oldCommentData: string)
  {
    oldCommentData == "" || exists k :: 0 <= k < |cs| && cs[k].texts != [] && !AllSeen(oldCommentData, cs[k].texts)
  }

  /** `PingCodeClient.format_comments(comment_id, old_comment_data)` given the reply of
      `get_bug_comments(comment_id)`: the comments as rich-text paragraphs if any of them is new
      with respect to the comments already stored in Feishu, and `[]` otherwise. */
  function FormatCommentsResult(reply: CommentsReply, oldCommentData: string): Result<seq<Paragraph>>
  {
    match reply
    case RequestFailed => Err(NoneHasNoGet)
    case NoData => Ok([])
    case Data(data) =>
      Ok(if HasNewComment(data.values, oldCommentData) then Paragraphs(data.values, data.users) else [])
  }

  /** What one more comment does to the paragraphs. */
  lemma ParagraphsStep(cs: seq<Comment>, users: seq<Dict>, k: nat)
    requires k < |cs|
    ensures Paragraphs(cs[..k + 1], users) ==
              if cs[k].texts != [] then Paragraphs(cs[..k], users) + [CommentParagraph(cs[k], users)] else Paragraphs(cs[..k], users)
  {
    assert cs[..k + 1][..k] == cs[..k];
  }

  /** What one more comment does to the newness flag. */
  lemma NewnessStep(cs: seq<Comment>, oldCommentData: string, k: nat)
    requires k < |cs|
    ensures HasNewComment(cs[..k + 1], oldCommentData) <==>
              HasNewComment(cs[..k], oldCommentData) || (cs[k].texts != [] && !AllSeen(oldCommentData, cs[k].texts))
  {
    var front := cs[..k + 1];
    assert front[..k] == cs[..k] && front[k] == cs[k];
    if HasNewComment(front, oldCommentData) && oldCommentData != "" {
      var j :| 0 <= j < |front| && front[j].texts != [] && !AllSeen(oldCommentData, front[j].texts);
      if j < k {
        assert cs[..k][j] == front[j];
      }
    }
    if HasNewComment(cs[..k], oldCommentData) && oldCommentData != "" {
      var j :| 0 <= j < k && cs[..k][j].texts != [] && !AllSeen(oldCommentData, cs[..k][j].texts);
      assert front[j] == cs[..k][j];
    }
  }

  /** The body of the loop of `format_comments` for the comment `cs[k]`: a comment without text is
      skipped; otherwise its paragraph is appended, and its text is checked against the stored
      comments unless a new comment was already seen. */
  method FormatComment(cs: seq<Comment>, users: seq<Dict>, oldCommentData: string, k: nat,
                       commentRequestList: seq<Paragraph>, isNewComment: bool)
    returns (list: seq<Paragraph>, isNew: bool)
    requires k < |cs|
    requires commentRequestList == Paragraphs(cs[..k], users) && isNewComment == HasNewComment(cs[..k], oldCommentData)
    ensures list == Paragraphs(cs[..k + 1], users) && isNew == HasNewComment(cs[..k + 1], oldCommentData)
  {
    var c := cs[k];
    ParagraphsStep(cs, users, k);
    NewnessStep(cs, oldCommentData, k);
    list, isNew := commentRequestList, isNewComment;
    if c.texts == [] {
      return;
    }
    if !isNew {
      isNew := !AllSeen(oldCommentData, c.texts);
    }
    list := list + [CommentParagraph(c, users)];
  }

  /** The loop of `format_comments`: it computes `FormatCommentsResult`. */
  method FormatComments(reply: CommentsReply, oldCommentData: string) returns (r: Result<seq<Paragraph>>)
    ensures r == FormatCommentsResult(reply, oldCommentData)
  {
    match reply {
      case RequestFailed => return Err(NoneHasNoGet);
      case NoData => return Ok([]);
      case Data(data) =>
        var values, users := data.values, data.users;
        var commentRequestList := [];
        var isNewComment := oldCommentData == "";
        for k := 0 to |values|
          invariant commentRequestList == Paragraphs(values[..k], users)
          invariant isNewComment == HasNewComment(values[..k], oldCommentData)
        {
          commentRequestList, isNewComment := FormatComment(values, users, oldCommentData, k, commentRequestList, isNewComment);
        }
        assert values[..|values|] == values;
        return Ok(if isNewComment then commentRequestList else []);
    }
  }

  /** Every comment with text yields exactly one paragraph, in input order: a bold author label
      followed by the comment's text pieces. With an empty `old_comment_data` this is the result
      of `format_comments`. */
  lemma {:induction false} ParagraphPerTextedComment(cs: seq<Comment>, users: seq<Dict>)
    ensures |Paragraphs(cs, users)| == |Texted(cs)|
    ensures forall k :: 0 <= k < |Texted(cs)| ==> Paragraphs(cs, users)[k] == CommentParagraph(Texted(cs)[k], users)
    ensures forall k :: 0 <= k < |Texted(cs)| ==>
              && |Paragraphs(cs, users)[k].content| == 2
              && Paragraphs(cs, users)[k].content[0] == TextNode(AuthorLabel(DisplayName(users, Texted(cs)[k].createdBy)), true)
              && Paragraphs(cs, users)[k].content[1] == TextNode(TextList(Texted(cs)[k].texts), false)
              && Texted(cs)[k].texts != []
  {
    if cs != [] {
      ParagraphPerTextedComment(cs[..|cs| - 1], users);
    }
  }

  /** Once a new comment is detected the flag stays set: newness of a prefix is newness of the whole. */
  lemma NewnessIsSticky(cs: seq<Comment>, oldCommentData: string, k: nat)
    requires k <= |cs|
    requires HasNewComment(cs[..k], oldCommentData)
    ensures HasNewComment(cs, oldCommentData)
  {
    if oldCommentData != "" {
      var j :| 0 <= j < k && cs[..k][j].texts != [] && !AllSeen(oldCommentData, cs[..k][j].texts);
      assert cs[j] == cs[..k][j];
    }
  }

  /** `list(filter(lambda s: s.strip(), comment_text))`: the pieces that are not whitespace only. */
  function NonBlank(texts: seq<string>): (r: seq<string>)
    ensures |r| <= |texts|
    ensures forall t :: t in r <==> t in texts && Strip(t) != ""
  {
    if texts == [] then []
    else
      var n := |texts| - 1;
      assert texts == texts[..n] + [texts[n]];
      if Strip(texts[n]) != "" then NonBlank(texts[..n]) + [texts[n]] else NonBlank(texts[..n])
  }

  /** `filter` works piecewise: the pieces kept from `a + b` are those kept from `a` followed
      by those kept from `b`, so the kept pieces keep their order and their repeats. */
  lemma {:induction false} NonBlankConcat(a: seq<string>, b: seq<string>)
    ensures NonBlank(a + b) == NonBlank(a) + NonBlank(b)
  {
    if b == [] {
      assert a + b == a;
    } else {
      var n := |b| - 1;
      assert (a + b)[..|a + b| - 1] == a + b[..n];
      assert (a + b)[|a + b| - 1] == b[n];
      NonBlankConcat(a, b[..n]);
    }
  }

  /** A single piece is kept, unchanged, exactly when it is not whitespace only. */
  lemma NonBlankOne(t: string)
    ensures NonBlank([t]) == if Strip(t) != "" then [t] else []
  {
    assert [t][..0] == [];
  }

  /** `comment_request_list` after the loop of `get_comment_text` has seen `cs`. */
  function CommentLines(cs: seq<Comment>, users: seq<Dict>): seq<CommentLine>
  {
    if cs == [] then []
    else
      var n := |cs| - 1;
      if cs[n].texts != [] then CommentLines(cs[..n], users) + [CommentLine(DisplayName(users, cs[n].createdBy), NonBlank(cs[n].texts))]
      else CommentLines(cs[..n], users)
  }

  /** What `get_comment_text` returns for a comments reply. */
  function CommentTextResult(reply: CommentsReply): Result<seq<CommentLine>>
  {
    match reply
    case RequestFailed => Err(NoneHasNoGet)
    case NoData => Ok([])
    case Data(data) => Ok(CommentLines(data.values, data.users))
  }

  /** Each comment that has text yields one line, in order, whose pieces are its non-blank
      pieces; a comment whose pieces are all blank still yields a line, with no pieces. */
  lemma {:induction false} CommentLinePerTextedComment(cs: seq<Comment>, users: seq<Dict>)
    ensures |CommentLines(cs, users)| == |Texted(cs)|
    ensures forall k :: 0 <= k < |Texted(cs)| ==>
              CommentLines(cs, users)[k] == CommentLine(DisplayName(users, Texted(cs)[k].createdBy), NonBlank(Texted(cs)[k].texts))
    ensures forall k, t :: 0 <= k < |Texted(cs)| && t in CommentLines(cs, users)[k].texts ==> Strip(t) != ""
  {
    if cs != [] {
      CommentLinePerTextedComment(cs[..|cs| - 1], users);
    }
  }

  /** `PingCodeClient.get_comment_text(comment_id)` given the reply of `get_bug_comments`. */
  method GetCommentText(reply: CommentsReply) returns (r: Result<seq<CommentLine>>)
    ensures r == CommentTextResult(reply)
    ensures reply.RequestFailed? <==> r.Err?
    ensures reply.NoData? ==> r == Ok([])
  {
    match reply {
      case RequestFailed => return Err(NoneHasNoGet);
      case NoData => return Ok([]);
      case Data(data) =>
        var values, users := data.values, data.users;
        var commentRequestList := [];
        for k := 0 to |values|
          invariant commentRequestList == CommentLines(values[..k], users)
        {
          var c := values[k];
          assert values[..k + 1][..k] == values[..k] && values[..k + 1][k] == c;
          if c.texts == [] {
            continue;
          }
          var pieces := NonBlank(c.texts);
          commentRequestList := commentRequestList + [CommentLine(DisplayName(users, c.createdBy), pieces)];
        }
        assert values[..|values|] == values;
        return Ok(commentRequestList);
    }
  }

  /** `get_bug_status_name`: the configured status name of a PingCode state id (the status table
      `PING_CODE_BUG_STATUS` is a parameter), `None` when the id is not configured. A list or dict
      state id cannot be a dict key, so `status_dict.get` raises `TypeError`. */
  function GetBugStatusName(stateId: Json, statusTable: map<Json, string>): (r: Result<Option<string>>)
    ensures r.Err? <==> !Scalar(stateId)
    ensures r.Err? ==> r.error == TypeError
    ensures r.Ok? ==> (r.value.None? <==> stateId !in statusTable)
    ensures r.Ok? && r.value.Some? ==> r.value.value == statusTable[stateId]
  {
    if !Scalar(stateId) then Err(TypeError)
    else if stateId in statusTable then Ok(Some(statusTable[stateId]))
    else Ok(None)
  }

  const WorkItemsPath := "/pjm/workitems/"

  /** `get_bug_url` on a string short id: the PingCode page of a work item. */
  function GetBugUrl(baseUrl: string, shortId: string): (r: string)
    ensures StartsWith(r, baseUrl + WorkItemsPath) && |r| == |baseUrl| + |WorkItemsPath| + |shortId|
  {
    baseUrl + WorkItemsPath + shortId
  }

  /** `get_bug_url(short_id)` on any short id (a missing one is `None`): the f-string
      `{base_url}/pjm/workitems/{short_id}`, kept as its two parts until `UrlText` renders it. */
  datatype WorkItemUrl = WorkItemUrl(baseUrl: string, shortId: Json)

  /** The text of a work item URL: the short id rendered as `str()` renders it, so a missing
      short id gives a URL ending in `None`. */
  function UrlText(u: WorkItemUrl): (r: Option<string>)
    ensures r.Some? <==> Scalar(u.shortId)
    ensures u.shortId.Str? ==> r == Some(GetBugUrl(u.baseUrl, u.shortId.s))
    ensures u.shortId.Null? ==> r == Some(GetBugUrl(u.baseUrl, "None"))
  {
    match ScalarText(u.shortId)
    case None => None
    case Some(t) => Some(GetBugUrl(u.baseUrl, t))
  }

  /** The short id a work item URL under `baseUrl` points at. */
  function ShortIdOfUrl(baseUrl: string, url: string): Option<string>
  {
    var prefix := baseUrl + WorkItemsPath;
    if StartsWith(url, prefix) then Some(url[|prefix|..]) else None
  }

  /** The URL names its work item: the short id is recovered from it. */
  lemma BugUrlRoundTrip(baseUrl: string, shortId: string)
    ensures ShortIdOfUrl(baseUrl, GetBugUrl(baseUrl, shortId)) == Some(shortId)
  {
    var url := GetBugUrl(baseUrl, shortId);
    assert url == (baseUrl + WorkItemsPath) + shortId;
    assert url[|baseUrl + WorkItemsPath|..] == shortId;
  }

  /** One PingCode bug of the search reply, with what the loop of `get_format_bug_info` fetches
      for it: the description with its images replaced (`process_html_with_tokenized_images`,
      which can raise) and the comments reply. */
  datatype PcBugInput = PcBugInput(
    identifier: Json,
    title: Json,
    createdAt: Json,
    priority: Json,
    severity: Json,
    assignee: Json,
    createdBy: Json,
    stateId: Json,
    shortId: Json,
    description: Json,
    processedDescription: Result<string>,
    comments: CommentsReply)

  /** One `temp_bug_dict`. */
  datatype BugInfo = BugInfo(
    identifier: Json,
    title: Json,
    createdAt: Json,
    bugUrl: WorkItemUrl,
    stateName: Option<string>,
    priority: Json,
    severity: Json,
    assignee: Json,
    createdBy: Json,
    description: string,
    comments: seq<CommentLine>)

  /** The lists the mapping looks names up in: `references.members` and the `options` of the
      priority and severity properties. */
  datatype References = References(members: seq<Dict>, priorities: seq<Dict>, severities: seq<Dict>)

  /** `temp_bug_dict` for one bug, or the exception raised while building it. */
  function BugInfoOf(bug: PcBugInput, refs: References, statusTable: map<Json, string>, baseUrl: string): Result<BugInfo>
  {
    match GetBugStatusName(bug.stateId, statusTable)
    case Err(e) => Err(e)
    case Ok(stateName) =>
    var description :=
      if Truthy(bug.description) then bug.processedDescription else Ok("");
    match description
    case Err(e) => Err(e)
    case Ok(desc) =>
      match CommentTextResult(bug.comments)
      case Err(e) => Err(e)
      case Ok(lines) =>
        Ok(BugInfo(
          bug.identifier, bug.title, bug.createdAt,
          WorkItemUrl(baseUrl, bug.shortId),
          stateName,
          Get(Utils.SearchListJson(refs.priorities, "_id", bug.priority), "text"),
          Get(Utils.SearchListJson(refs.severities, "_id", bug.severity), "text"),
          if Truthy(bug.assignee) then DisplayName(refs.members, bug.assignee) else Str(""),
          DisplayName(refs.members, bug.createdBy),
          desc,
          lines))
  }

  /** The results of a loop that stops at the first failing item: all the values, or the first
      error. */
  function Collect<T>(rs: seq<Result<T>>): Result<seq<T>>
  {
    if rs == [] then Ok([])
    else
      var n := |rs| - 1;
      match Collect(rs[..n])
      case Err(e) => Err(e)
      case Ok(vs) =>
        match rs[n]
        case Err(e) => Err(e)
        case Ok(v) => Ok(vs + [v])
  }

  /** `Collect` succeeds with one value per item, each that item's value, or fails with the error
      of one of the items. */
  lemma {:induction false} CollectPointwise<T>(rs: seq<Result<T>>)
    ensures Collect(rs).Ok? ==> |Collect(rs).value| == |rs| && forall k :: 0 <= k < |rs| ==> rs[k] == Ok(Collect(rs).value[k])
    ensures Collect(rs).Err? ==> exists k :: 0 <= k < |rs| && rs[k] == Err(Collect(rs).error)
  {
    if rs != [] {
      var n := |rs| - 1;
      CollectPointwise(rs[..n]);
      assert forall k :: 0 <= k < n ==> rs[..n][k] == rs[k];
      if Collect(rs[..n]).Err? {
        var k :| 0 <= k < n && rs[..n][k] == Err(Collect(rs[..n]).error);
      }
    }
  }

  lemma CollectStep<T>(rs: seq<Result<T>>, k: nat)
    requires k < |rs|
    ensures Collect(rs[..k + 1]) ==
              match Collect(rs[..k])
              case Err(e) => Err(e)
              case Ok(vs) => (match rs[k] case Err(e) => Err(e) case Ok(v) => Ok(vs + [v]))
  {
    assert rs[..k + 1][..k] == rs[..k] && rs[..k + 1][k] == rs[k];
  }

  /** Once a prefix fails, the whole fails with the same error: the first error wins. */
  lemma {:induction false} CollectErrExtends<T>(rs: seq<Result<T>>, k: nat)
    requires k <= |rs| && Collect(rs[..k]).Err?
    ensures Collect(rs) == Collect(rs[..k])
    decreases |rs| - k
  {
    if k < |rs| {
      assert rs[..k + 1][..k] == rs[..k];
      CollectErrExtends(rs, k + 1);
    } else {
      assert rs[..k] == rs;
    }
  }

  /** The formatting of each bug on its own. */
  function Each(bugs: seq<PcBugInput>, refs: References, statusTable: map<Json, string>, baseUrl: string): (r: seq<Result<BugInfo>>)
    ensures |r| == |bugs| && forall k :: 0 <= k < |bugs| ==> r[k] == BugInfoOf(bugs[k], refs, statusTable, baseUrl)
  {
    seq(|bugs|, k requires 0 <= k < |bugs| => BugInfoOf(bugs[k], refs, statusTable, baseUrl))
  }

  /** The list `get_format_bug_info` returns, or the exception that ends it. */
  function FormatAll(bugs: seq<PcBugInput>, refs: References, statusTable: map<Json, string>, baseUrl: string): Result<seq<BugInfo>>
  {
    Collect(Each(bugs, refs, statusTable, baseUrl))
  }

  /** `get_format_bug_info` gives one record per bug, each that bug formatted on its own, or the
      exception raised formatting one of them. */
  lemma FormatAllPointwise(bugs: seq<PcBugInput>, refs: References, statusTable: map<Json, string>, baseUrl: string)
    ensures var r := FormatAll(bugs, refs, statusTable, baseUrl);
            r.Ok? ==> |r.value| == |bugs| && forall k :: 0 <= k < |bugs| ==> BugInfoOf(bugs[k], refs, statusTable, baseUrl) == Ok(r.value[k])
    ensures var r := FormatAll(bugs, refs, statusTable, baseUrl);
            r.Err? ==> exists k :: 0 <= k < |bugs| && BugInfoOf(bugs[k], refs, statusTable, baseUrl) == Err(r.error)
  {
    CollectPointwise(Each(bugs, refs, statusTable, baseUrl));
  }

  /** `get_format_bug_info(bugs)`: the bugs formatted in order; the first exception ends it. */
  method GetFormatBugInfo(bugs: seq<PcBugInput>, refs: References, statusTable: map<Json, string>, baseUrl: string)
    returns (r: Result<seq<BugInfo>>)
    ensures r == FormatAll(bugs, refs, statusTable, baseUrl)
  {
    ghost var results := Each(bugs, refs, statusTable, baseUrl);
    var bugInfo: seq<BugInfo> := [];
    for k := 0 to |bugs|
      invariant Collect(results[..k]) == Ok(bugInfo)
    {
      CollectStep(results, k);
      var info := FormatBug(bugs[k], refs, statusTable, baseUrl);
      if info.Err? {
        CollectErrExtends(results, k + 1);
        return Err(info.error);
      }
      bugInfo := bugInfo + [info.value];
    }
    assert results[..|bugs|] == results;
    return Ok(bugInfo);
  }

  /** The body of the loop of `get_format_bug_info` for one bug: it fills `temp_bug_dict`. */
  method FormatBug(bug: PcBugInput, refs: References, statusTable: map<Json, string>, baseUrl: string)
    returns (r: Result<BugInfo>)
    ensures r == BugInfoOf(bug, refs, statusTable, baseUrl)
  {
    var stateName := GetBugStatusName(bug.stateId, statusTable);
    if stateName.Err? {
      return Err(stateName.error);
    }
    var description := "";
    if Truthy(bug.description) {
      if bug.processedDescription.Err? {
        return Err(bug.processedDescription.error);
      }
      description := bug.processedDescription.value;
    }
    var comments := GetCommentText(bug.comments);
    if comments.Err? {
      return Err(comments.error);
    }
    var assignee := if Truthy(bug.assignee) then DisplayName(refs.members, bug.assignee) else Str("");
    return Ok(BugInfo(
      bug.identifier, bug.title, bug.createdAt,
      WorkItemUrl(baseUrl, bug.shortId),
      stateName.value,
      Get(Utils.SearchListJson(refs.priorities, "_id", bug.priority), "text"),
      Get(Utils.SearchListJson(refs.severities, "_id", bug.severity), "text"),
      assignee,
      DisplayName(refs.members, bug.createdBy),
      description,
      comments.value));
  }

  /** The field mapping of `get_format_bug_info`: the URL is built from the bug's short id (a
      string one reads back from it, a missing one renders as `None`), the status name comes from
      its state, the assignee is empty when the bug has no assignee id, the description empty when
      the bug's description is, and the comments are `get_comment_text` of the bug. */
  lemma BugInfoFieldMapping(bug: PcBugInput, refs: References, statusTable: map<Json, string>, baseUrl: string)
    requires BugInfoOf(bug, refs, statusTable, baseUrl).Ok?
    ensures var info := BugInfoOf(bug, refs, statusTable, baseUrl).value;
            && info.identifier == bug.identifier
            && info.bugUrl.shortId == bug.shortId
            && (bug.shortId.Str? ==> ShortIdOfUrl(baseUrl, UrlText(info.bugUrl).value) == Some(bug.shortId.s))
            && (bug.shortId.Null? ==> UrlText(info.bugUrl) == Some(baseUrl + WorkItemsPath + "None"))
            && Scalar(bug.stateId)
            && (info.stateName.None? <==> bug.stateId !in statusTable)
            && (info.stateName.Some? ==> info.stateName.value == statusTable[bug.stateId])
            && (!Truthy(bug.assignee) ==> info.assignee == Str(""))
            && (!Truthy(bug.description) ==> info.description == "")
            && (Truthy(bug.description) ==> Ok(info.description) == bug.processedDescription)
            && Ok(info.comments) == CommentTextResult(bug.comments)
  {
    if bug.shortId.Str? {
      BugUrlRoundTrip(baseUrl, bug.shortId.s);
    }
  }

  /** A list or dict state id ends `get_format_bug_info` for that bug with the `TypeError` of
      `status_dict.get`, before the description and the comments are looked at. */
  lemma UnhashableStateRaises(bug: PcBugInput, refs: References, statusTable: map<Json, string>, baseUrl: string)
    requires !Scalar(bug.stateId)
    ensures BugInfoOf(bug, refs, statusTable, baseUrl) == Err(TypeError)
  {
  }

}

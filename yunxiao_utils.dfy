/** The YunXiao client: the member list it loads when constructed, the lookups of a user id and a
    work-item type id in lists returned by the service, and the rule for what an update returns.
    Every lookup runs inside a `try` that answers `None` on any exception. */
module YunxiaoUtils {
  import opened Values

  /** `entry[key]` can be read: the entry is a dict holding `key` (anything else raises). */
  predicate Keyed(entry: Json, key: string)
  {
    entry.Obj? && key in entry.fields
  }

  /** `entry[key]` on an entry that is `Keyed`. */
  function At(entry: Json, key: string): Json
    requires Keyed(entry, key)
  {
    entry.fields[key]
  }

  /** The search loop over a list of records: the `resultKey` of the first record whose `key`
      equals `want`, `None` when no record matches, and `None` as well when a record before the
      match (or the match itself, for `resultKey`) cannot be read, since the `except` clause
      answers `None`. */
  function FirstMatch(entries: seq<Json>, key: string, want: Json, resultKey: string): (r: Json)
    ensures r != Null ==>
              exists i :: 0 <= i < |entries| && Keyed(entries[i], key) && At(entries[i], key) == want
                          && Keyed(entries[i], resultKey) && r == At(entries[i], resultKey)
  {
    if entries == [] then Null
    else if !Keyed(entries[0], key) then Null
    else if At(entries[0], key) == want then (if Keyed(entries[0], resultKey) then At(entries[0], resultKey) else Null)
    else
      var r := FirstMatch(entries[1..], key, want, resultKey);
      assert r != Null ==> exists i :: 1 <= i < |entries| && Keyed(entries[i], key) && At(entries[i], key) == want
                                      && Keyed(entries[i], resultKey) && r == At(entries[i], resultKey) by {
        if r != Null {
          var i :| 0 <= i < |entries[1..]| && Keyed(entries[1..][i], key) && At(entries[1..][i], key) == want
                   && Keyed(entries[1..][i], resultKey) && r == At(entries[1..][i], resultKey);
          assert entries[1..][i] == entries[i + 1];
        }
      }
      r
  }

  /** What iterating over a value gives when looking records up in it: the records of a list.
      Iterating over `None` or a number raises, and iterating over a string or a dict yields
      strings, which cannot be subscripted with a string key; so all of those answer `None`. */
  function Lookup(list: Json, key: string, want: Json, resultKey: string): Json
  {
    if list.Arr? then FirstMatch(list.items, key, want, resultKey) else Null
  }

  /** Records before index `i` all carry `key` and none has the wanted value. */
  predicate NoMatchBefore(entries: seq<Json>, key: string, want: Json, i: int)
    requires i <= |entries|
  {
    forall j :: 0 <= j < i ==> Keyed(entries[j], key) && At(entries[j], key) != want
  }

  /** The first record with the wanted value answers the lookup. */
  lemma {:induction false} FirstMatchFindsFirst(entries: seq<Json>, key: string, want: Json, resultKey: string, i: nat)
    requires i < |entries| && NoMatchBefore(entries, key, want, i)
    requires Keyed(entries[i], key) && At(entries[i], key) == want
    ensures FirstMatch(entries, key, want, resultKey) == (if Keyed(entries[i], resultKey) then At(entries[i], resultKey) else Null)
  {
    if i > 0 {
      FirstMatchFindsFirst(entries[1..], key, want, resultKey, i - 1);
    }
  }

  /** A list of well-formed records none of which matches answers `None`. */
  lemma {:induction false} FirstMatchNone(entries: seq<Json>, key: string, want: Json, resultKey: string)
    requires NoMatchBefore(entries, key, want, |entries|)
    ensures FirstMatch(entries, key, want, resultKey) == Null
  {
    if entries != [] {
      FirstMatchNone(entries[1..], key, want, resultKey);
    }
  }

  /** A record without `key` before any match makes the lookup answer `None`, even when a later
      record matches. */
  lemma {:induction false} MalformedBeforeMatch(entries: seq<Json>, key: string, want: Json, resultKey: string, i: nat)
    requires i < |entries| && NoMatchBefore(entries, key, want, i) && !Keyed(entries[i], key)
    ensures FirstMatch(entries, key, want, resultKey) == Null
  {
    if i > 0 {
      FirstMatchMalformedStep(entries, key, want, i);
      MalformedBeforeMatch(entries[1..], key, want, resultKey, i - 1);
    }
  }

  lemma FirstMatchMalformedStep(entries: seq<Json>, key: string, want: Json, i: nat)
    requires 0 < i < |entries| && NoMatchBefore(entries, key, want, i) && !Keyed(entries[i], key)
    ensures NoMatchBefore(entries[1..], key, want, i - 1) && !Keyed(entries[1..][i - 1], key)
  {
    assert forall j :: 0 <= j < i - 1 ==> entries[1..][j] == entries[j + 1];
  }

  /** The reply to an update: its status and text. */
  datatype PutResponse = PutResponse(statusCode: int, text: string)

  class YunXiaoUtils {
    /** `user_list`: the project members as the service returned them (`None` if the request failed). */
    var userList: Json
    /** `work_item_field`: the field configuration of the bug work-item type. */
    var workItemField: Json

    /** `__init__`: loads the member list and the field configuration of the type named `缺陷` in
        category `Bug`. `members` is the member list reply, `workItemTypes(category)` the reply
        listing the types of a category (or the exception raised fetching or decoding it) and
        `fieldConfig(id)` the field configuration reply for a type id. */
    constructor (members: Json, workItemTypes: string -> Result<Json>, fieldConfig: Json -> Json)
      ensures userList == members
      ensures workItemField == fieldConfig(TypeIdIn(workItemTypes("Bug"), "缺陷"))
    {
      userList := members;
      workItemField := Null;
      new;
      var typeId := GetWorkItemTypeId(workItemTypes, "Bug", "缺陷");
      workItemField := fieldConfig(typeId);
    }

    /** `get_user_id(username)`: the `userId` of the first member whose `userName` is `username`. */
    method GetUserId(username: string) returns (r: Json)
      ensures r == Lookup(userList, "userName", Str(username), "userId")
      ensures r != Null ==>
                exists i :: 0 <= i < |userList.items| && Keyed(userList.items[i], "userName")
                            && At(userList.items[i], "userName") == Str(username)
                            && Keyed(userList.items[i], "userId") && r == At(userList.items[i], "userId")
    {
      r := FindIn(userList, "userName", Str(username), "userId");
    }

    /** `get_work_item_type_id(category, name)`: the `id` of the first type of `category` whose
        `name` is `name`; `None` when none is or when the request raises. */
    method GetWorkItemTypeId(workItemTypes: string -> Result<Json>, category: string, name: string) returns (r: Json)
      ensures r == TypeIdIn(workItemTypes(category), name)
      ensures workItemTypes(category).Err? ==> r == Null
    {
      var reply := workItemTypes(category);
      if reply.Err? {
        return Null;
      }
      r := FindIn(reply.value, "name", Str(name), "id");
    }

    /** `update_work_item(work_item_id, data_dict)`: the response text of a reply that came back
        (a status other than 204 is only logged), `None` when the request raises, which includes
        a 4xx or 5xx status turned into an exception by the request client. */
    function UpdateWorkItem(reply: Result<PutResponse>): (r: Option<string>)
      ensures r.None? <==> reply.Err?
      ensures reply.Ok? ==> r == Some(reply.value.text)
    {
      match reply
      case Err(_) => None
      case Ok(response) => Some(response.text)
    }
  }

  /** The type id `get_work_item_type_id` finds in a reply. */
  function TypeIdIn(reply: Result<Json>, name: string): Json
  {
    if reply.Err? then Null else Lookup(reply.value, "name", Str(name), "id")
  }

  /** The search loop shared by `get_user_id` and `get_work_item_type_id`: it walks the list and
      returns at the first record whose `key` is `want`. */
  method FindIn(list: Json, key: string, want: Json, resultKey: string) returns (r: Json)
    ensures r == Lookup(list, key, want, resultKey)
  {
    if !list.Arr? {
      return Null;
    }
    var entries := list.items;
    for k := 0 to |entries|
      invariant NoMatchBefore(entries, key, want, k)
      invariant FirstMatch(entries, key, want, resultKey) == FirstMatch(entries[k..], key, want, resultKey)
    {
      var entry := entries[k];
      assert entries[k..][0] == entry && entries[k..][1..] == entries[k + 1..];
      if !Keyed(entry, key) {
        return Null;
      }
      if At(entry, key) == want {
        return if Keyed(entry, resultKey) then At(entry, resultKey) else Null;
      }
    }
    assert entries[|entries|..] == [];
    return Null;
  }
}

/** The `fetch`-based API helpers: the current-user lookup, post and comment
    creation with their error texts, the group-name lookup, and the request
    bodies they send. */
module ApiServices {
  import opened Common
  import opened LocalStorage
  import Text

  const NoTokenError: string := "No authentication token found"

  /** A `fetch` response: `ok` is a status in 200..299; `body` is the parsed
      JSON, absent when the body is empty and `response.json()` rejects. */
  datatype Response<T> = Response(status: int, body: Option<T>)

  predicate IsOk(status: int) { 200 <= status <= 299 }

  /** `fetchCurrentUser`: the user, or `null` with no token, a non-OK status,
      or an unreadable body; the boolean says whether a request was made. */
  function FetchCurrentUser<U>(st: Store, outcome: Option<Response<U>>): (r: (Option<U>, bool))
    ensures r.1 <==> HasToken(st, AccessKey)
    ensures r.0.Some? <==> HasToken(st, AccessKey) && outcome.Some? && IsOk(outcome.value.status) && outcome.value.body.Some?
    ensures r.0.Some? ==> r.0.value == outcome.value.body.value
  {
    if !HasToken(st, AccessKey) then (None, false)
    else if outcome.Some? && IsOk(outcome.value.status) && outcome.value.body.Some? then (outcome.value.body, true)
    else (None, true)
  }

  // ------------------------------------------------------- validation errors

  /** The value of one key of an error body: an array of messages (a DRF
      field error) or a single string (a `detail`). */
  datatype ErrorValue = Messages(items: seq<string>) | Text(text: string)

  /** One key of an error body, as `Object.entries` lists it. */
  datatype ErrorEntry = ErrorEntry(field: string, value: ErrorValue)

  /** The message of the `TypeError` that `errors.join` raises on a string. */
  const JoinNotAFunction: string := "errors.join is not a function"

  /** `` `${field}: ${errors.join(', ')}` ``: the line of an array entry, and
      the `TypeError` of a string entry, which has no `join`. */
  function EntryLine(e: ErrorEntry): (r: Result<string, string>)
    ensures e.value.Messages? ==> r == Ok(e.field + ": " + Text.Join(e.value.items, ", "))
    ensures e.value.Text? ==> r == Err(JoinNotAFunction)
  {
    match e.value
    case Messages(items) => Ok(e.field + ": " + Text.Join(items, ", "))
    case Text(_) => Err(JoinNotAFunction)
  }

  /** Every entry is an array, so no line raises. */
  predicate AllArrays(entries: seq<ErrorEntry>) {
    forall i :: 0 <= i < |entries| ==> entries[i].value.Messages?
  }

  function EntryLines(entries: seq<ErrorEntry>): (lines: seq<string>)
    requires AllArrays(entries)
    ensures |lines| == |entries| && forall i :: 0 <= i < |entries| ==> Ok(lines[i]) == EntryLine(entries[i])
  {
    seq(|entries|, i requires 0 <= i < |entries| => EntryLine(entries[i]).value)
  }

  /** The error text `createPost` throws for a rejected post, as written:
      the `TypeError`'s message once an entry is not an array, else the
      lines joined by ` | `, or the fallback when there are none. */
  function PostErrorMessage(entries: seq<ErrorEntry>): string
  {
    if !AllArrays(entries) then JoinNotAFunction
    else
      var joined := Text.Join(EntryLines(entries), " | ");
      if joined == "" then "Invalid post data" else joined
  }

  lemma EntryLinesSnoc(entries: seq<ErrorEntry>, i: nat)
    requires i < |entries| && AllArrays(entries[..i + 1])
    ensures AllArrays(entries[..i])
    ensures EntryLines(entries[..i + 1]) == EntryLines(entries[..i]) + [EntryLine(entries[i]).value]
  {
    assert entries[..i + 1][i] == entries[i];
    forall k | 0 <= k < i
      ensures entries[..i][k] == entries[..i + 1][k]
    {
    }
  }

  /** The loop of `createPost`: one `field: e1, e2` line per entry, joined by
      ` | `, or the fallback when the body had no entries; the first entry
      that is not an array ends the loop with a `TypeError`. */
  method FormatValidationErrors(entries: seq<ErrorEntry>) returns (message: string)
    ensures message == PostErrorMessage(entries)
  {
    var errorMessages: seq<string> := [];
    var i := 0;
    while i < |entries|
      invariant 0 <= i <= |entries|
      invariant AllArrays(entries[..i])
      invariant errorMessages == EntryLines(entries[..i])
    {
      var line := EntryLine(entries[i]);
      if line.Err? {
        return line.error;
      }
      EntryLinesSnoc(entries, i);
      errorMessages := errorMessages + [line.value];
      i := i + 1;
    }
    assert entries[..i] == entries;
    message := Text.Join(errorMessages, " | ");
    if message == "" {
      message := "Invalid post data";
    }
  }

  /** The fallback appears exactly when the server listed no key; with only
      array entries the text starts with the first field's line, and any
      string entry makes it the `TypeError`'s message. */
  lemma PostErrorFallbackIffNoEntries(entries: seq<ErrorEntry>)
    ensures PostErrorMessage(entries) == "Invalid post data" <==> entries == []
    ensures !AllArrays(entries) ==> PostErrorMessage(entries) == JoinNotAFunction
    ensures entries != [] && AllArrays(entries) ==>
      var m := PostErrorMessage(entries);
      var first := EntryLine(entries[0]).value;
      |first| <= |m| && m[..|first|] == first
  {
    if entries != [] && AllArrays(entries) {
      var lines := EntryLines(entries);
      var m := Text.Join(lines, " | ");
      var f := entries[0].field;
      assert m[..|lines[0]|] == lines[0];
      assert lines[0] == f + ": " + Text.Join(entries[0].value.items, ", ");
      assert m[|f|] == ':';
    }
  }

  /** As written, the rejection the post endpoint actually sends, a single
      string `detail` (backend/community/views.py:76-80), surfaces as the
      `TypeError`'s message, whatever the detail says. */
  lemma ServerRejectionHiddenAsWritten(detail: string)
    ensures PostErrorMessage([ErrorEntry("detail", Text(detail))]) == JoinNotAFunction
  {
  }

  /** The evidently intended formatting: an array is joined, any other value
      is shown as it is. */
  function EntryLineCorrected(e: ErrorEntry): (r: string)
    ensures e.value.Messages? ==> Ok(r) == EntryLine(e)
    ensures e.value.Text? ==> r == e.field + ": " + e.value.text
  {
    match e.value
    case Messages(items) => e.field + ": " + Text.Join(items, ", ")
    case Text(t) => e.field + ": " + t
  }

  function PostErrorMessageCorrected(entries: seq<ErrorEntry>): (m: string)
    ensures AllArrays(entries) ==> m == PostErrorMessage(entries)
  {
    var joined := Text.Join(seq(|entries|, i requires 0 <= i < |entries| => EntryLineCorrected(entries[i])), " | ");
    assert AllArrays(entries) ==> seq(|entries|, i requires 0 <= i < |entries| => EntryLineCorrected(entries[i])) == EntryLines(entries);
    if joined == "" then "Invalid post data" else joined
  }

  /** Corrected, the server's detail reaches the user. */
  lemma ServerRejectionShown(detail: string)
    ensures PostErrorMessageCorrected([ErrorEntry("detail", Text(detail))]) == "detail: " + detail
  {
    var e := ErrorEntry("detail", Text(detail));
    var es := [e];
    var lines := seq(|es|, i requires 0 <= i < |es| => EntryLineCorrected(es[i]));
    assert lines[0] == "detail: " + detail;
    assert lines == ["detail: " + detail];
  }

  /** What a post or comment request yields on the wire. */
  datatype PostAnswer<T> = Created(data: T) | Invalid(errors: seq<ErrorEntry>) | NetworkFailure(reason: string)

  /** `createPost`: no token fails before any request; a rejection carries
      the formatted error body. */
  function CreatePost<T>(st: Store, answer: PostAnswer<T>): (r: (Result<T, string>, bool))
    ensures r.1 <==> HasToken(st, AccessKey)
    ensures !HasToken(st, AccessKey) ==> r.0 == Err(NoTokenError)
    ensures HasToken(st, AccessKey) && answer.Created? ==> r.0 == Ok(answer.data)
    ensures HasToken(st, AccessKey) && answer.Invalid? ==> r.0 == Err(PostErrorMessage(answer.errors))
    ensures HasToken(st, AccessKey) && answer.NetworkFailure? ==> r.0 == Err(answer.reason)
  {
    if !HasToken(st, AccessKey) then (Err(NoTokenError), false)
    else match answer
      case Created(d) => (Ok(d), true)
      case Invalid(es) => (Err(PostErrorMessage(es)), true)
      case NetworkFailure(reason) => (Err(reason), true)
  }

  /** The body of `createComment`: exactly `content` and `post`. */
  function CommentBody(postId: int, content: string): (b: map<string, Json>)
    ensures b.Keys == {"content", "post"} && b["content"] == JStr(content) && b["post"] == JInt(postId)
  {
    map["content" := JStr(content), "post" := JInt(postId)]
  }

  datatype CommentAnswer<T> = CommentCreated(data: T) | CommentRejected(detail: Option<string>, json: string) | CommentFailure(reason: string)

  /** `createComment`: no token fails before any request; otherwise the body
      is sent and a rejection reports `detail`, or the whole body as JSON;
      a network failure is rethrown as it is. */
  function CreateComment<T>(st: Store, postId: int, content: string, answer: CommentAnswer<T>): (r: (Result<T, string>, Option<map<string, Json>>))
    ensures r.1.Some? <==> HasToken(st, AccessKey)
    ensures !HasToken(st, AccessKey) ==> r.0 == Err(NoTokenError)
    ensures r.1.Some? ==> r.1.value == CommentBody(postId, content)
    ensures HasToken(st, AccessKey) && answer.CommentCreated? ==> r.0 == Ok(answer.data)
    ensures HasToken(st, AccessKey) && answer.CommentRejected? ==> r.0 == Err(OrElse(answer.detail, answer.json))
    ensures HasToken(st, AccessKey) && answer.CommentFailure? ==> r.0 == Err(answer.reason)
  {
    if !HasToken(st, AccessKey) then (Err(NoTokenError), None)
    else
      var body := Some(CommentBody(postId, content));
      match answer
      case CommentCreated(d) => (Ok(d), body)
      case CommentRejected(detail, json) => (Err(OrElse(detail, json)), body)
      case CommentFailure(reason) => (Err(reason), body)
  }

  // ------------------------------------------------------------ group name

  /** The JSON of a group-name answer: `group_name` may be missing. */
  datatype GroupNameBody = GroupNameBody(groupName: Option<string>)

  const GroupNameFailed: string := "Failed to fetch group name"
  const EmptyBodyError: string := "Unexpected end of JSON input"

  /** `getPostGroupName` as written: the 204 test sits inside the non-OK
      branch, and an OK response is always parsed. */
  function GetPostGroupNameAsWritten(r: Response<GroupNameBody>): (out: Result<Option<string>, string>)
    ensures !IsOk(r.status) && r.status == 404 ==> out == Ok(None)
    ensures !IsOk(r.status) && r.status != 404 ==> out == Err(GroupNameFailed)
    ensures IsOk(r.status) && r.body.Some? ==> out == Ok(r.body.value.groupName)
    ensures IsOk(r.status) && r.body.None? ==> out == Err(EmptyBodyError)
  {
    if !IsOk(r.status) then
      if r.status == 404 then Ok(None)
      else if r.status == 204 then Ok(None)
      else Err(GroupNameFailed)
    else if r.body.None? then Err(EmptyBodyError)
    else Ok(r.body.value.groupName)
  }

  /** The 204 test can never succeed, and the server's answer for a post
      without a group (204, a status with no body) makes the call fail. */
  lemma NoGroupAnswerFailsAsWritten()
    ensures IsOk(204)
    ensures GetPostGroupNameAsWritten(Response(204, None)) == Err(EmptyBodyError)
  {
  }

  /** The corrected lookup: 204 means "no group" and is checked before the
      body is read. */
  function GetPostGroupName(r: Response<GroupNameBody>): (out: Result<Option<string>, string>)
    ensures r.status == 204 || r.status == 404 ==> out == Ok(None)
    ensures r.status != 204 ==> out == GetPostGroupNameAsWritten(r)
  {
    if r.status == 204 then Ok(None) else GetPostGroupNameAsWritten(r)
  }

  /** With the correction no answer the server gives for an existing post
      fails: 200 with a name, or 204 for a post with no group. */
  lemma GroupNameServerAnswers(name: string)
    ensures GetPostGroupName(Response(200, Some(GroupNameBody(Some(name))))) == Ok(Some(name))
    ensures GetPostGroupName(Response(204, None)) == Ok(None)
  {
  }

  // ----------------------------------------------------------- group body

  /** The body of `createGroup`: `description` defaults to '' and
      `is_private` to false; `JSON.stringify` drops a `name` that is
      `undefined` (`None`). */
  function CreateGroupBody(name: Option<Json>, description: Option<string>, isPrivate: Option<bool>): (b: map<string, Json>)
    ensures b.Keys == (if name.Some? then {"name"} else {}) + {"description", "is_private"}
    ensures name.Some? ==> b["name"] == name.value
    ensures b["description"] == JStr(OrElse(description, ""))
    ensures b["is_private"] == JBool(isPrivate == Some(true))
  {
    var rest := map["description" := JStr(OrElse(description, "")), "is_private" := JBool(isPrivate == Some(true))];
    if name.Some? then rest["name" := name.value] else rest
  }
}

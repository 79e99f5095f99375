/** The community serializers: what a client may write to a group, post
    or comment, the two validators, the like counts and the public view of
    a user. */
module CommunitySerializers {
  import opened Common
  import Text

  type UserId = int

  datatype User = User(id: UserId, username: string, email: string, password: string, isStaff: bool)

  /** `UserProfileSerializer`: the only user fields ever exposed. */
  datatype UserProfile = UserProfile(id: UserId, username: string, email: string)

  function ProfileOf(u: User): (r: UserProfile)
    ensures r.id == u.id && r.username == u.username && r.email == u.email
  {
    UserProfile(u.id, u.username, u.email)
  }

  /** Users that agree on the public fields have the same profile,
      whatever their password or flags. */
  lemma ProfileHidesPrivateFields(u: User, password: string, isStaff: bool)
    ensures ProfileOf(u.(password := password, isStaff := isStaff)) == ProfileOf(u)
  {
  }

  const EmptyGroupName: string := "Group name cannot be empty"
  const EmptyPostContent: string := "Post content cannot be empty"

  // ------------------------------------------------------ DRF field checks

  /** One message of a rejection, with the code DRF gives it. */
  datatype ErrorDetail = ErrorDetail(text: string, code: string)

  /** A failing field and its messages, as `serializer.errors` lists it. */
  datatype FieldError = FieldError(field: string, details: seq<ErrorDetail>)

  const Required: ErrorDetail := ErrorDetail("This field is required.", "required")
  const Blank: ErrorDetail := ErrorDetail("This field may not be blank.", "blank")

  function TooLong(n: nat): ErrorDetail {
    ErrorDetail("Ensure this field has no more than " + Text.NatToString(n) + " characters.", "max_length")
  }

  /** A model `CharField` or `TextField` as the serializer checks it before
      any `validate_<field>` runs: a missing value fails when required, a
      value that is empty after stripping fails unless blanks are allowed
      (and is then ""), and otherwise the stripped value must fit
      `max_length`. */
  function CharField(value: Option<string>, required: bool, allowBlank: bool, maxLength: Option<nat>): (r: Result<Option<string>, ErrorDetail>)
    ensures value.None? ==> r == (if required then Err(Required) else Ok(None))
    ensures value.Some? && Text.IsBlank(value.value) ==> r == (if allowBlank then Ok(Some("")) else Err(Blank))
    ensures value.Some? && !Text.IsBlank(value.value) ==>
              && (r.Ok? <==> maxLength.None? || |Text.Trim(value.value)| <= maxLength.value)
              && (r.Ok? ==> r.value == Some(Text.Trim(value.value)))
              && (r.Err? ==> r.error == TooLong(maxLength.value))
  {
    if value.None? then (if required then Err(Required) else Ok(None))
    else if Text.Trim(value.value) == "" then (if allowBlank then Ok(Some("")) else Err(Blank))
    else if maxLength.Some? && |Text.Trim(value.value)| > maxLength.value then Err(TooLong(maxLength.value))
    else Ok(Some(Text.Trim(value.value)))
  }

  /** A value the field accepted passes the same field unchanged. */
  lemma CharFieldIdempotent(value: Option<string>, required: bool, allowBlank: bool, maxLength: Option<nat>)
    requires CharField(value, required, allowBlank, maxLength).Ok?
    ensures var v := CharField(value, required, allowBlank, maxLength).value;
            CharField(v, required, allowBlank, maxLength) == Ok(v)
  {
    if value.Some? {
      Text.TrimIdempotent(value.value);
    }
  }

  /** The entry a field contributes to `serializer.errors`: none when it
      passed. */
  function Failing<T>(field: string, r: Result<T, ErrorDetail>): (es: seq<FieldError>)
    ensures r.Ok? <==> es == []
    ensures r.Err? ==> es == [FieldError(field, [r.error])]
  {
    if r.Ok? then [] else [FieldError(field, [r.error])]
  }

  /** `str()` of the raised `ValidationError`: Python's `repr` of the error
      dictionary, for field names and messages without quote or backslash
      characters (all the ones produced here). */
  function ErrorsRepr(es: seq<FieldError>): string {
    "{" + Text.Join(EntryReprs(es), ", ") + "}"
  }

  function EntryReprs(es: seq<FieldError>): (r: seq<string>)
    ensures |r| == |es| && forall k :: 0 <= k < |es| ==> r[k] == EntryRepr(es[k])
  {
    seq(|es|, k requires 0 <= k < |es| => EntryRepr(es[k]))
  }

  function EntryRepr(e: FieldError): string {
    "'" + e.field + "': [" + Text.Join(seq(|e.details|, k requires 0 <= k < |e.details| => DetailRepr(e.details[k])), ", ") + "]"
  }

  function DetailRepr(d: ErrorDetail): string {
    "ErrorDetail(string='" + d.text + "', code='" + d.code + "')"
  }

  /** The detail opens with the first failing field's name, quoted. */
  lemma ReprNamesFirstField(es: seq<FieldError>)
    requires es != []
    ensures var f := "{'" + es[0].field + "'";
            |f| <= |ErrorsRepr(es)| && ErrorsRepr(es)[..|f|] == f
  {
    var entries := EntryReprs(es);
    var q := "'" + es[0].field + "'";
    EntryNamesField(es[0]);
    PrefixOfFirst(q, entries, ", ");
    PrefixInside("{", q, Text.Join(entries, ", "), "}");
    assert "{'" + es[0].field + "'" == "{" + q;
  }

  lemma EntryNamesField(e: FieldError)
    ensures "'" + e.field + "'" <= EntryRepr(e)
  {
    var q := "'" + e.field + "'";
    var rest := ": [" + Text.Join(seq(|e.details|, k requires 0 <= k < |e.details| => DetailRepr(e.details[k])), ", ") + "]";
    assert EntryRepr(e) == q + rest;
  }

  /** A prefix of the first part is a prefix of the joined parts. */
  lemma PrefixOfFirst(q: string, parts: seq<string>, sep: string)
    requires parts != [] && q <= parts[0]
    ensures q <= Text.Join(parts, sep)
  {
    var j := Text.Join(parts, sep);
    assert j[..|parts[0]|] == parts[0];
    assert j[..|q|] == parts[0][..|q|];
  }

  /** A prefix of the middle part stays a prefix once the same text is put
      in front. */
  lemma PrefixInside(front: string, q: string, middle: string, back: string)
    requires q <= middle
    ensures |front + q| <= |front + middle + back| && (front + middle + back)[..|front + q|] == front + q
  {
    assert (front + middle + back)[..|front + q|] == front + middle[..|q|];
  }

  // ------------------------------------------------------------ validators

  /** `validate_name`: blank names are refused, others kept stripped. */
  function ValidateName(value: string): (r: Result<string, string>)
    ensures r.Err? <==> Text.IsBlank(value)
    ensures r.Err? ==> r.error == EmptyGroupName
    ensures r.Ok? ==> r.value == Text.Trim(value) && r.value != ""
  {
    if Text.Trim(value) == "" then Err(EmptyGroupName) else Ok(Text.Trim(value))
  }

  /** A validated name is a fixed point: validating it again gives it back. */
  lemma ValidateNameIdempotent(value: string)
    requires ValidateName(value).Ok?
    ensures ValidateName(ValidateName(value).value) == ValidateName(value)
  {
    Text.TrimIdempotent(value);
  }

  /** `PostSerializer.validate` on `data.get('content', '')`. */
  function ValidatePostContent(content: Option<string>): (r: Result<string, string>)
    ensures r.Err? <==> content.None? || Text.IsBlank(content.value)
    ensures r.Err? ==> r.error == EmptyPostContent
    ensures r.Ok? ==> r.value == content.value
  {
    var c := if content.Some? then content.value else "";
    if Text.Trim(c) == "" then Err(EmptyPostContent) else Ok(c)
  }

  /** `get_like_count`: the size of the likes set. */
  function LikeCount(likes: set<UserId>): (r: nat)
    ensures r == 0 <==> likes == {}
  {
    |likes|
  }

  /** Adding a new liker raises the count by one; adding a present one does
      not change it. */
  lemma LikeCountOnAdd(likes: set<UserId>, u: UserId)
    ensures LikeCount(likes + {u}) == if u in likes then LikeCount(likes) else LikeCount(likes) + 1
  {
    if u !in likes {
      assert (likes + {u}) - {u} == likes;
    } else {
      assert likes + {u} == likes;
    }
  }

  // --------------------------------------------------------- request bodies

  /** A value is present and not blank. */
  predicate Filled(v: Option<string>) {
    v.Some? && !Text.IsBlank(v.value)
  }

  /** Fits a field of `max_length` n once stripped (an absent value fits). */
  predicate Fits(v: Option<string>, n: nat) {
    v.None? || |Text.Trim(v.value)| <= n
  }

  const GroupNameMax: nat := 100
  const PostTitleMax: nat := 200

  /** A group request body, including the fields the serializer marks
      read-only; an absent key is `None`. */
  datatype GroupInput = GroupInput(name: Option<string>, description: Option<string>, isPrivate: bool,
                                   creator: Option<UserId>, members: set<UserId>, moderators: set<UserId>)

  datatype GroupFields = GroupFields(name: string, description: string, isPrivate: bool)

  /** The `name` field: DRF's checks (required, not blank, at most 100
      characters), then `validate_name` on the stripped value. */
  function CleanName(name: Option<string>): (r: Result<string, ErrorDetail>)
    ensures r.Ok? <==> Filled(name) && Fits(name, GroupNameMax)
    ensures r.Ok? ==> r.value == Text.Trim(name.value)
    ensures r.Err? ==> r.error == CharField(name, true, false, Some(GroupNameMax)).error
  {
    match CharField(name, true, false, Some(GroupNameMax))
    case Err(d) => Err(d)
    case Ok(v) =>
      if v.None? then Err(Required)
      else match ValidateName(v.value)
        case Err(m) => Err(ErrorDetail(m, "invalid"))
        case Ok(n) =>
          Text.TrimIdempotent(name.value);
          Ok(n)
  }

  /** A group body is accepted exactly when the name is present, not blank
      and at most 100 characters after stripping, and the description is
      present and not blank; the errors list the failing fields in field
      order. */
  function DeserializeGroup(input: GroupInput): (r: Result<GroupFields, seq<FieldError>>)
    ensures r.Ok? <==> Filled(input.name) && Fits(input.name, GroupNameMax) && Filled(input.description)
    ensures r.Ok? ==> r.value == GroupFields(Text.Trim(input.name.value), Text.Trim(input.description.value), input.isPrivate)
    ensures r.Err? ==> r.error == Failing("name", CleanName(input.name)) + Failing("description", CharField(input.description, true, false, None))
  {
    var name := CleanName(input.name);
    var description := CharField(input.description, true, false, None);
    var errors := Failing("name", name) + Failing("description", description);
    if errors != [] then Err(errors)
    else Ok(GroupFields(name.value, description.value.value, input.isPrivate))
  }

  /** Every message a rejected group body gets is one of DRF's own:
      `validate_name`'s "Group name cannot be empty" is never sent. */
  lemma GroupNameMessageUnreachable(input: GroupInput)
    requires DeserializeGroup(input).Err?
    ensures forall e :: e in DeserializeGroup(input).error ==>
              e.details == [Required] || e.details == [Blank] || e.details == [TooLong(GroupNameMax)]
  {
    var n := CleanName(input.name);
    var d := CharField(input.description, true, false, None);
    var es := DeserializeGroup(input).error;
    assert es == Failing("name", n) + Failing("description", d);
    forall e | e in es
      ensures e.details == [Required] || e.details == [Blank] || e.details == [TooLong(GroupNameMax)]
    {
      if e in Failing("name", n) {
        assert e.details == [CharField(input.name, true, false, Some(GroupNameMax)).error];
      } else {
        assert e.details == [d.error];
      }
    }
  }

  /** Creator, members and moderators in the body are ignored. */
  lemma GroupReadOnlyFieldsIgnored(input: GroupInput, creator: Option<UserId>, members: set<UserId>, moderators: set<UserId>)
    ensures DeserializeGroup(input.(creator := creator, members := members, moderators := moderators)) == DeserializeGroup(input)
  {
  }

  /** A post body; `group` is the primary key sent, `None` when absent or
      null. */
  datatype PostInput = PostInput(title: Option<string>, content: Option<string>, group: Option<int>,
                                 author: Option<UserId>, likes: set<UserId>)

  datatype PostFields = PostFields(title: string, content: string, group: Option<int>)

  /** The `group` field: a primary key must name an existing group. */
  function CleanGroup(group: Option<int>, groups: set<int>): (r: Result<Option<int>, ErrorDetail>)
    ensures r.Ok? <==> group.None? || group.value in groups
    ensures r.Ok? ==> r.value == group
    ensures r.Err? ==> r.error == ErrorDetail("Invalid pk \"" + Text.IntToString(group.value) + "\" - object does not exist.", "does_not_exist")
  {
    if group.Some? && group.value !in groups
    then Err(ErrorDetail("Invalid pk \"" + Text.IntToString(group.value) + "\" - object does not exist.", "does_not_exist"))
    else Ok(group)
  }

  /** A post body is accepted exactly when the title (optional, may be
      blank) fits 200 characters, the content is present and not blank, and
      the group, if any, exists; the title is stored as "" when absent. */
  function DeserializePost(input: PostInput, groups: set<int>): (r: Result<PostFields, seq<FieldError>>)
    ensures r.Ok? <==> Fits(input.title, PostTitleMax) && Filled(input.content) && (input.group.None? || input.group.value in groups)
    ensures r.Ok? ==> r.value == PostFields(if input.title.Some? then Text.Trim(input.title.value) else "",
                                            Text.Trim(input.content.value), input.group)
    ensures r.Err? ==> r.error == Failing("title", CharField(input.title, false, true, Some(PostTitleMax)))
                                  + Failing("content", CharField(input.content, true, false, None))
                                  + Failing("group", CleanGroup(input.group, groups))
  {
    var title := CharField(input.title, false, true, Some(PostTitleMax));
    var content := CharField(input.content, true, false, None);
    var group := CleanGroup(input.group, groups);
    var errors := Failing("title", title) + Failing("content", content) + Failing("group", group);
    if errors != [] then Err(errors)
    else match ValidatePostContent(content.value)
      case Err(m) => Err([FieldError("non_field_errors", [ErrorDetail(m, "invalid")])])
      case Ok(c) => Ok(PostFields(if title.value.Some? then title.value.value else "", c, group.value))
  }

  /** Content that passes the field check also passes `validate`, so
      "Post content cannot be empty" is never sent. */
  lemma PostContentMessageUnreachable(input: PostInput, groups: set<int>)
    requires DeserializePost(input, groups).Err?
    ensures forall e :: e in DeserializePost(input, groups).error ==> e.field in {"title", "content", "group"}
  {
    var t := Failing("title", CharField(input.title, false, true, Some(PostTitleMax)));
    var c := Failing("content", CharField(input.content, true, false, None));
    var g := Failing("group", CleanGroup(input.group, groups));
    var es := DeserializePost(input, groups).error;
    assert es == t + c + g;
    forall e | e in es
      ensures e.field in {"title", "content", "group"}
    {
      assert e in t || e in c || e in g;
    }
  }

  /** Author and likes in the body are ignored. */
  lemma PostReadOnlyFieldsIgnored(input: PostInput, groups: set<int>, author: Option<UserId>, likes: set<UserId>)
    ensures DeserializePost(input.(author := author, likes := likes), groups) == DeserializePost(input, groups)
  {
  }

  datatype CommentInput = CommentInput(content: Option<string>, post: Option<int>, author: Option<UserId>, likes: set<UserId>)

  /** Of a comment body only the content is checked and taken (stripped);
      post, author and likes are read-only. */
  function DeserializeComment(input: CommentInput): (r: Result<string, seq<FieldError>>)
    ensures r.Ok? <==> Filled(input.content)
    ensures r.Ok? ==> r.value == Text.Trim(input.content.value)
    ensures r.Err? ==> r.error == Failing("content", CharField(input.content, true, false, None))
  {
    var content := CharField(input.content, true, false, None);
    if content.Err? then Err(Failing("content", content)) else Ok(content.value.value)
  }
}

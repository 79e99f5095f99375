/** The community endpoints: groups with their member and moderator sets,
    posts and comments with their like sets, and the orderings of the
    listing actions. */
module CommunityViews {
  import opened Common
  import Sorting
  import Sequences
  import opened CommunitySerializers

  datatype Group = Group(name: string, description: string, isPrivate: bool, creator: UserId,
                         members: set<UserId>, moderators: set<UserId>)

  datatype Post = Post(id: int, title: string, content: string, author: UserId, group: Option<int>,
                       likes: set<UserId>, createdAt: int)

  datatype Comment = Comment(id: int, content: string, author: UserId, post: int, likes: set<UserId>, createdAt: int)

  /** The tables: users, groups by id, posts and comments in insertion
      order. */
  datatype Community = Community(users: set<UserId>, groups: map<int, Group>, posts: seq<Post>, comments: seq<Comment>)

  /** A response: a status with one field of JSON, 400 with the
      serializer's field errors as the body, a created object's id, or an
      unhandled exception (a server error). */
  datatype Reply = Status(code: int, key: string, text: string) | Invalid(errors: seq<FieldError>) | Created(id: int) | ServerError

  const NotFound: Reply := Status(404, "detail", "Not found.")
  const OnlyCreator: string := "Only group creator can add moderators"
  const NoGroup: string := "This post does not belong to any group."

  /** Nothing but group `gid` may differ between `c` and `r`. */
  predicate OnlyGroupChanged(c: Community, r: Community, gid: int) {
    r.users == c.users && r.posts == c.posts && r.comments == c.comments
    && r.groups.Keys == c.groups.Keys
    && forall g :: g in c.groups && g != gid ==> r.groups[g] == c.groups[g]
  }

  // ----------------------------------------------------------------- groups

  /** Adding a group under a fresh id leaves every existing group as it was. */
  lemma AddKeepsGroups(groups: map<int, Group>, newId: int, g: Group)
    requires newId !in groups
    ensures forall k :: k in groups ==> k in groups[newId := g] && groups[newId := g][k] == groups[k]
  {
  }

  /** The default `create` with `perform_create`: a body the serializer
      rejects gives 400 with its field errors and changes nothing; otherwise
      the new group has the requester as creator and no members. */
  function CreateGroupStep(c: Community, requester: UserId, input: GroupInput, newId: int): (r: (Community, Reply))
    requires newId !in c.groups
    ensures DeserializeGroup(input).Err? ==> r == (c, Invalid(DeserializeGroup(input).error))
    ensures DeserializeGroup(input).Ok? <==> r.1 == Created(newId)
    ensures r.1 == Created(newId) ==>
              && newId in r.0.groups
              && r.0.groups[newId] == Group(Text.Trim(input.name.value), Text.Trim(input.description.value), input.isPrivate, requester, {}, {})
              && r.0.users == c.users && r.0.posts == c.posts && r.0.comments == c.comments
    ensures forall g :: g in c.groups ==> g in r.0.groups && r.0.groups[g] == c.groups[g]
  {
    match DeserializeGroup(input)
    case Err(es) => (c, Invalid(es))
    case Ok(f) =>
      var g := Group(f.name, f.description, f.isPrivate, requester, {}, {});
      AddKeepsGroups(c.groups, newId, g);
      (c.(groups := c.groups[newId := g]), Created(newId))
  }

  function JoinStep(c: Community, gid: int, u: UserId): (r: (Community, Reply))
    ensures gid !in c.groups ==> r == (c, NotFound)
    ensures gid in c.groups ==>
              (r.1 == Status(200, "status", "joined") && OnlyGroupChanged(c, r.0, gid)
               && r.0.groups[gid] == c.groups[gid].(members := c.groups[gid].members + {u}))
  {
    if gid !in c.groups then (c, NotFound)
    else
      var g := c.groups[gid];
      (c.(groups := c.groups[gid := g.(members := g.members + {u})]), Status(200, "status", "joined"))
  }

  function LeaveStep(c: Community, gid: int, u: UserId): (r: (Community, Reply))
    ensures gid !in c.groups ==> r == (c, NotFound)
    ensures gid in c.groups ==>
              (r.1 == Status(200, "status", "left") && OnlyGroupChanged(c, r.0, gid)
               && r.0.groups[gid] == c.groups[gid].(members := c.groups[gid].members - {u}))
  {
    if gid !in c.groups then (c, NotFound)
    else
      var g := c.groups[gid];
      (c.(groups := c.groups[gid := g.(members := g.members - {u})]), Status(200, "status", "left"))
  }

  /** Joining twice is joining once. */
  lemma JoinIdempotent(c: Community, gid: int, u: UserId)
    ensures JoinStep(JoinStep(c, gid, u).0, gid, u) == JoinStep(c, gid, u)
  {
    if gid in c.groups {
      var g := c.groups[gid];
      var once := JoinStep(c, gid, u).0;
      assert g.members + {u} + {u} == g.members + {u};
      assert once.groups[gid := once.groups[gid].(members := once.groups[gid].members + {u})] == once.groups;
    }
  }

  /** Leaving a group one is not in changes nothing. */
  lemma LeaveNonMemberNoop(c: Community, gid: int, u: UserId)
    requires gid in c.groups && u !in c.groups[gid].members
    ensures LeaveStep(c, gid, u).0 == c
  {
    var g := c.groups[gid];
    assert g.members - {u} == g.members;
    assert c.groups[gid := g] == c.groups;
  }

  /** Joining and then leaving restores the member set of a non-member. */
  lemma JoinThenLeave(c: Community, gid: int, u: UserId)
    requires gid in c.groups && u !in c.groups[gid].members
    ensures LeaveStep(JoinStep(c, gid, u).0, gid, u).0 == c
  {
    var g := c.groups[gid];
    assert g.members + {u} - {u} == g.members;
    assert c.groups[gid := g] == c.groups;
  }

  /** `add_moderator`: only the creator may add, and the target must be an
      existing user (`User.objects.get` raises otherwise). */
  function AddModeratorStep(c: Community, gid: int, requester: UserId, target: Option<UserId>): (r: (Community, Reply))
    ensures gid !in c.groups ==> r == (c, NotFound)
    ensures gid in c.groups && c.groups[gid].creator != requester ==> r == (c, Status(403, "error", OnlyCreator))
    ensures gid in c.groups && c.groups[gid].creator == requester && (target.None? || target.value !in c.users)
            ==> r == (c, ServerError)
    ensures gid in c.groups && c.groups[gid].creator == requester && target.Some? && target.value in c.users
            ==> r.1 == Status(200, "status", "moderator added") && OnlyGroupChanged(c, r.0, gid)
                && r.0.groups[gid] == c.groups[gid].(moderators := c.groups[gid].moderators + {target.value})
  {
    if gid !in c.groups then (c, NotFound)
    else if c.groups[gid].creator != requester then (c, Status(403, "error", OnlyCreator))
    else if target.None? || target.value !in c.users then (c, ServerError)
    else
      var g := c.groups[gid];
      (c.(groups := c.groups[gid := g.(moderators := g.moderators + {target.value})]), Status(200, "status", "moderator added"))
  }

  /** Whoever asks, the moderators of a group change only when its creator
      asks. */
  lemma ModeratorsChangeOnlyByCreator(c: Community, gid: int, requester: UserId, target: Option<UserId>)
    requires gid in c.groups
    ensures var r := AddModeratorStep(c, gid, requester, target).0;
            gid in r.groups && (r.groups[gid].moderators != c.groups[gid].moderators ==> c.groups[gid].creator == requester)
  {
  }

  function NewestPostFirst(p: Post): int { -p.createdAt }
  function NewestCommentFirst(m: Comment): int { -m.createdAt }

  /** `posts`: the group's posts, newest first. */
  function GroupPosts(c: Community, gid: int): (r: Option<seq<Post>>)
    ensures (r.None? <==> gid !in c.groups)
  {
    if gid !in c.groups then None
    else Some(Sorting.SortBy(Sequences.Where(c.posts, (p: Post) => p.group == Some(gid)), NewestPostFirst))
  }

  lemma GroupPostsNewestFirst(c: Community, gid: int)
    requires gid in c.groups
    ensures var r := GroupPosts(c, gid).value;
            && (forall i, j :: 0 <= i < j < |r| ==> r[i].createdAt >= r[j].createdAt)
            && (forall k :: 0 <= k < |r| ==> r[k] in c.posts && r[k].group == Some(gid))
            && (forall k :: 0 <= k < |c.posts| && c.posts[k].group == Some(gid) ==> c.posts[k] in r)
  {
    var sel := Sequences.Where(c.posts, (p: Post) => p.group == Some(gid));
    Sorting.SortByKeepsElements(sel, NewestPostFirst);
  }

  // ------------------------------------------------------------------ posts

  predicate HasPost(posts: seq<Post>, pid: int) {
    exists k :: 0 <= k < |posts| && posts[k].id == pid
  }

  function FindPost(posts: seq<Post>, pid: int): (r: Option<Post>)
    ensures r.Some? <==> HasPost(posts, pid)
    ensures r.Some? ==> r.value in posts && r.value.id == pid
  {
    if posts == [] then None
    else if posts[0].id == pid then Some(posts[0])
    else
      var rest := FindPost(posts[1..], pid);
      assert HasPost(posts[1..], pid) ==> HasPost(posts, pid) by {
        if HasPost(posts[1..], pid) {
          var k :| 0 <= k < |posts[1..]| && posts[1..][k].id == pid;
          assert posts[k + 1].id == pid;
        }
      }
      rest
  }

  /** `create`: the serializer's `ValidationError` is caught and answered
      with 400 and its `str()` as detail, changing nothing; otherwise the
      post is saved with the requester as author and no likes. */
  function CreatePostStep(c: Community, requester: UserId, input: PostInput, newId: int, now: int): (r: (Community, Reply))
    ensures DeserializePost(input, c.groups.Keys).Err? ==>
              r == (c, Status(400, "detail", ErrorsRepr(DeserializePost(input, c.groups.Keys).error)))
    ensures DeserializePost(input, c.groups.Keys).Ok? ==>
              var f := DeserializePost(input, c.groups.Keys).value;
              && r.1 == Created(newId)
              && r.0 == c.(posts := c.posts + [Post(newId, f.title, Text.Trim(input.content.value), requester, input.group, {}, now)])
  {
    match DeserializePost(input, c.groups.Keys)
    case Err(es) => (c, Status(400, "detail", ErrorsRepr(es)))
    case Ok(f) => (c.(posts := c.posts + [Post(newId, f.title, f.content, requester, f.group, {}, now)]), Created(newId))
  }

  /** The likes of post `pid` with `u` added (`add`) or removed. */
  function SetPostLike(posts: seq<Post>, pid: int, u: UserId, add: bool): (r: seq<Post>)
    ensures |r| == |posts|
    ensures forall k :: 0 <= k < |posts| && posts[k].id != pid ==> r[k] == posts[k]
    ensures forall k :: 0 <= k < |posts| && posts[k].id == pid ==>
              r[k] == posts[k].(likes := if add then posts[k].likes + {u} else posts[k].likes - {u})
  {
    seq(|posts|, k requires 0 <= k < |posts| =>
      if posts[k].id == pid then posts[k].(likes := if add then posts[k].likes + {u} else posts[k].likes - {u})
      else posts[k])
  }

  function LikePostStep(c: Community, pid: int, u: UserId): (r: (Community, Reply))
    ensures !HasPost(c.posts, pid) ==> r == (c, NotFound)
    ensures HasPost(c.posts, pid) ==> r == (c.(posts := SetPostLike(c.posts, pid, u, true)), Status(200, "status", "liked"))
  {
    if !HasPost(c.posts, pid) then (c, NotFound)
    else (c.(posts := SetPostLike(c.posts, pid, u, true)), Status(200, "status", "liked"))
  }

  function UnlikePostStep(c: Community, pid: int, u: UserId): (r: (Community, Reply))
    ensures !HasPost(c.posts, pid) ==> r == (c, NotFound)
    ensures HasPost(c.posts, pid) ==> r == (c.(posts := SetPostLike(c.posts, pid, u, false)), Status(200, "status", "unliked"))
  {
    if !HasPost(c.posts, pid) then (c, NotFound)
    else (c.(posts := SetPostLike(c.posts, pid, u, false)), Status(200, "status", "unliked"))
  }

  /** Liking twice is liking once, and unliking twice is unliking once. */
  lemma PostLikeIdempotent(c: Community, pid: int, u: UserId)
    ensures LikePostStep(LikePostStep(c, pid, u).0, pid, u) == LikePostStep(c, pid, u)
    ensures UnlikePostStep(UnlikePostStep(c, pid, u).0, pid, u) == UnlikePostStep(c, pid, u)
  {
    var once := SetPostLike(c.posts, pid, u, true);
    assert SetPostLike(once, pid, u, true) == once;
    var gone := SetPostLike(c.posts, pid, u, false);
    forall k | 0 <= k < |gone| && gone[k].id == pid
      ensures gone[k].likes - {u} == gone[k].likes
    {
    }
    assert SetPostLike(gone, pid, u, false) == gone;
    if HasPost(c.posts, pid) {
      var k :| 0 <= k < |c.posts| && c.posts[k].id == pid;
      assert once[k].id == pid && gone[k].id == pid;
    }
  }

  /** A like retracted by someone who had not liked leaves the post as it
      was. */
  lemma LikeThenUnlikePost(c: Community, pid: int, u: UserId)
    requires forall k :: 0 <= k < |c.posts| && c.posts[k].id == pid ==> u !in c.posts[k].likes
    ensures UnlikePostStep(LikePostStep(c, pid, u).0, pid, u).0 == c
  {
    if HasPost(c.posts, pid) {
      var once := SetPostLike(c.posts, pid, u, true);
      var k :| 0 <= k < |c.posts| && c.posts[k].id == pid;
      assert once[k].id == pid;
      var back := SetPostLike(once, pid, u, false);
      forall j | 0 <= j < |c.posts|
        ensures back[j] == c.posts[j]
      {
        if c.posts[j].id == pid {
          assert c.posts[j].likes + {u} - {u} == c.posts[j].likes;
        }
      }
    }
  }

  /** `comments`: the post's comments, newest first. */
  function PostComments(c: Community, pid: int): (r: Option<seq<Comment>>)
    ensures r.None? <==> !HasPost(c.posts, pid)
  {
    if !HasPost(c.posts, pid) then None
    else Some(Sorting.SortBy(Sequences.Where(c.comments, (m: Comment) => m.post == pid), NewestCommentFirst))
  }

  lemma PostCommentsNewestFirst(c: Community, pid: int)
    requires HasPost(c.posts, pid)
    ensures var r := PostComments(c, pid).value;
            && (forall i, j :: 0 <= i < j < |r| ==> r[i].createdAt >= r[j].createdAt)
            && (forall k :: 0 <= k < |r| ==> r[k] in c.comments && r[k].post == pid)
            && (forall k :: 0 <= k < |c.comments| && c.comments[k].post == pid ==> c.comments[k] in r)
  {
    var sel := Sequences.Where(c.comments, (m: Comment) => m.post == pid);
    Sorting.SortByKeepsElements(sel, NewestCommentFirst);
  }

  /** Every post's group exists. */
  predicate GroupsExist(c: Community) {
    forall k :: 0 <= k < |c.posts| && c.posts[k].group.Some? ==> c.posts[k].group.value in c.groups
  }

  /** A new post names an existing group or none, so every post's group
      keeps existing. */
  lemma CreatePostKeepsGroupsExist(c: Community, requester: UserId, input: PostInput, newId: int, now: int)
    requires GroupsExist(c)
    ensures GroupsExist(CreatePostStep(c, requester, input, newId, now).0)
  {
    var res := DeserializePost(input, c.groups.Keys);
    if res.Ok? {
      var p := Post(newId, res.value.title, Text.Trim(input.content.value), requester, input.group, {}, now);
      var r := c.(posts := c.posts + [p]);
      assert CreatePostStep(c, requester, input, newId, now).0 == r;
      assert p.group.Some? ==> p.group.value in c.groups;
      forall k | 0 <= k < |r.posts| && r.posts[k].group.Some?
        ensures r.posts[k].group.value in r.groups
      {
        if k < |c.posts| {
          assert r.posts[k] == c.posts[k];
        } else {
          assert k == |c.posts| && r.posts[k].group == input.group;
        }
      }
    }
  }

  /** The group endpoints add groups and change members and moderators,
      but never remove a group or touch a post. */
  lemma GroupStepsKeepGroupsExist(c: Community, requester: UserId, gid: int, u: UserId, target: Option<UserId>,
                                  group: GroupInput, newId: int)
    requires GroupsExist(c) && newId !in c.groups
    ensures GroupsExist(CreateGroupStep(c, requester, group, newId).0)
    ensures GroupsExist(JoinStep(c, gid, u).0) && GroupsExist(LeaveStep(c, gid, u).0)
    ensures GroupsExist(AddModeratorStep(c, gid, requester, target).0)
  {
    SamePostsMoreGroups(c, CreateGroupStep(c, requester, group, newId).0);
    SamePostsMoreGroups(c, JoinStep(c, gid, u).0);
    SamePostsMoreGroups(c, LeaveStep(c, gid, u).0);
    SamePostsMoreGroups(c, AddModeratorStep(c, gid, requester, target).0);
  }

  /** A step that keeps the posts and every group keeps their groups existing. */
  lemma SamePostsMoreGroups(c: Community, r: Community)
    requires GroupsExist(c) && r.posts == c.posts && c.groups.Keys <= r.groups.Keys
    ensures GroupsExist(r)
  {
  }

  /** Likes and comments keep every post's group. */
  lemma LikeStepsKeepGroupsExist(c: Community, requester: UserId, pid: int, u: UserId,
                                 comment: CommentInput, newId: int, now: int, add: bool)
    requires GroupsExist(c)
    ensures GroupsExist(LikePostStep(c, pid, u).0) && GroupsExist(UnlikePostStep(c, pid, u).0)
    ensures GroupsExist(CreateCommentStep(c, requester, comment, newId, now).0)
    ensures GroupsExist(LikeCommentStep(c, pid, u, add).0)
  {
    var liked := SetPostLike(c.posts, pid, u, true);
    var unliked := SetPostLike(c.posts, pid, u, false);
    assert forall k :: 0 <= k < |c.posts| ==> liked[k].group == c.posts[k].group && unliked[k].group == c.posts[k].group;
  }

  /** `group_name`: 204 with a detail for a post outside any group, else
      200 with the group's name. */
  function GroupNameStep(c: Community, pid: int): (r: Reply)
    requires GroupsExist(c)
    ensures !HasPost(c.posts, pid) ==> r == NotFound
    ensures HasPost(c.posts, pid) && FindPost(c.posts, pid).value.group.None? ==> r == Status(204, "detail", NoGroup)
    ensures HasPost(c.posts, pid) && FindPost(c.posts, pid).value.group.Some? ==>
              && FindPost(c.posts, pid).value.group.value in c.groups
              && r == Status(200, "group_name", c.groups[FindPost(c.posts, pid).value.group.value].name)
  {
    match FindPost(c.posts, pid)
    case None => NotFound
    case Some(p) =>
      if p.group.None? then Status(204, "detail", NoGroup)
      else
        assert p.group.value in c.groups by {
          var k :| 0 <= k < |c.posts| && c.posts[k] == p;
        }
        Status(200, "group_name", c.groups[p.group.value].name)
  }

  /** A post id that is new to the list is found only at the end. */
  lemma {:induction false} FindAppendedPost(posts: seq<Post>, p: Post)
    requires !HasPost(posts, p.id)
    ensures FindPost(posts + [p], p.id) == Some(p)
  {
    if posts != [] {
      assert (posts + [p])[1..] == posts[1..] + [p];
      assert forall k :: 0 <= k < |posts[1..]| ==> posts[1..][k] == posts[k + 1];
      assert posts[0].id != p.id;
      FindAppendedPost(posts[1..], p);
    }
  }

  /** A post created in a group reports that group's name, and one created
      without a group reports 204. */
  lemma CreatedPostGroupName(c: Community, requester: UserId, input: PostInput, newId: int, now: int)
    requires GroupsExist(c) && !HasPost(c.posts, newId)
    requires DeserializePost(input, c.groups.Keys).Ok?
    ensures var r := CreatePostStep(c, requester, input, newId, now).0;
            && GroupsExist(r)
            && GroupNameStep(r, newId) == (if input.group.Some? then Status(200, "group_name", c.groups[input.group.value].name)
                                           else Status(204, "detail", NoGroup))
  {
    var f := DeserializePost(input, c.groups.Keys).value;
    var p := Post(newId, f.title, f.content, requester, f.group, {}, now);
    CreatePostKeepsGroupsExist(c, requester, input, newId, now);
    FindAppendedPost(c.posts, p);
    assert HasPost(c.posts + [p], newId) by {
      assert (c.posts + [p])[|c.posts|] == p;
    }
  }

  // --------------------------------------------------------------- comments

  predicate HasComment(comments: seq<Comment>, cid: int) {
    exists k :: 0 <= k < |comments| && comments[k].id == cid
  }

  /** The default `create` of a comment: a body the serializer rejects gives
      400 with its field errors; only then does `perform_create` look up the
      post named in the body (404 when there is none) and save the comment
      with the requester as author. */
  function CreateCommentStep(c: Community, requester: UserId, input: CommentInput, newId: int, now: int): (r: (Community, Reply))
    ensures DeserializeComment(input).Err? ==> r == (c, Invalid(DeserializeComment(input).error))
    ensures DeserializeComment(input).Ok? && (input.post.None? || !HasPost(c.posts, input.post.value)) ==> r == (c, NotFound)
    ensures DeserializeComment(input).Ok? && input.post.Some? && HasPost(c.posts, input.post.value) ==>
              r == (c.(comments := c.comments + [Comment(newId, Text.Trim(input.content.value), requester, input.post.value, {}, now)]), Created(newId))
  {
    match DeserializeComment(input)
    case Err(es) => (c, Invalid(es))
    case Ok(content) =>
      if input.post.None? || !HasPost(c.posts, input.post.value) then (c, NotFound)
      else (c.(comments := c.comments + [Comment(newId, content, requester, input.post.value, {}, now)]), Created(newId))
  }

  /** An author or likes in a comment body change nothing: the comment is
      the requester's, starts unliked, and hangs under the body's post. */
  lemma CommentReadOnlyFieldsIgnored(c: Community, requester: UserId, input: CommentInput, newId: int, now: int,
                                     author: Option<UserId>, likes: set<UserId>)
    ensures var r := CreateCommentStep(c, requester, input.(author := author, likes := likes), newId, now);
            && r == CreateCommentStep(c, requester, input, newId, now)
            && (r.1.Created? ==>
                  && |r.0.comments| == |c.comments| + 1
                  && var m := r.0.comments[|c.comments|];
                     m.author == requester && m.likes == {} && Some(m.post) == input.post && HasPost(c.posts, m.post))
  {
  }

  function SetCommentLike(comments: seq<Comment>, cid: int, u: UserId, add: bool): (r: seq<Comment>)
    ensures |r| == |comments|
    ensures forall k :: 0 <= k < |comments| && comments[k].id != cid ==> r[k] == comments[k]
    ensures forall k :: 0 <= k < |comments| && comments[k].id == cid ==>
              r[k] == comments[k].(likes := if add then comments[k].likes + {u} else comments[k].likes - {u})
  {
    seq(|comments|, k requires 0 <= k < |comments| =>
      if comments[k].id == cid then comments[k].(likes := if add then comments[k].likes + {u} else comments[k].likes - {u})
      else comments[k])
  }

  function LikeCommentStep(c: Community, cid: int, u: UserId, add: bool): (r: (Community, Reply))
    ensures !HasComment(c.comments, cid) ==> r == (c, NotFound)
    ensures HasComment(c.comments, cid) ==>
              r == (c.(comments := SetCommentLike(c.comments, cid, u, add)), Status(200, "status", if add then "liked" else "unliked"))
  {
    if !HasComment(c.comments, cid) then (c, NotFound)
    else (c.(comments := SetCommentLike(c.comments, cid, u, add)), Status(200, "status", if add then "liked" else "unliked"))
  }

  /** After a like the liker is in every matching comment's set, after an
      unlike in none, and repeating either changes nothing. */
  lemma CommentLikeIdempotent(c: Community, cid: int, u: UserId, add: bool)
    ensures var r := LikeCommentStep(c, cid, u, add);
            && LikeCommentStep(r.0, cid, u, add) == r
            && forall k :: 0 <= k < |r.0.comments| && r.0.comments[k].id == cid ==> (u in r.0.comments[k].likes <==> add)
  {
    var once := SetCommentLike(c.comments, cid, u, add);
    forall k | 0 <= k < |once| && once[k].id == cid
      ensures (if add then once[k].likes + {u} else once[k].likes - {u}) == once[k].likes
    {
    }
    assert SetCommentLike(once, cid, u, add) == once;
    if HasComment(c.comments, cid) {
      var k :| 0 <= k < |c.comments| && c.comments[k].id == cid;
      assert once[k].id == cid;
    }
  }

  // -------------------------------------------------------- the view sets

  class CommunityApi {
    var users: set<UserId>
    var groups: map<int, Group>
    var posts: seq<Post>
    var comments: seq<Comment>

    function State(): Community
      reads this
    {
      Community(users, groups, posts, comments)
    }

    constructor(registered: set<UserId>)
      ensures State() == Community(registered, map[], [], [])
    {
      users, groups, posts, comments := registered, map[], [], [];
    }

    method CreateGroup(requester: UserId, input: GroupInput, newId: int) returns (reply: Reply)
      requires newId !in groups
      modifies this
      ensures var r := CreateGroupStep(old(State()), requester, input, newId);
              State() == r.0 && reply == r.1
    {
      var v := DeserializeGroup(input);
      if v.Err? {
        return Invalid(v.error);
      }
      groups := groups[newId := Group(v.value.name, v.value.description, v.value.isPrivate, requester, {}, {})];
      reply := Created(newId);
    }

    method Join(gid: int, u: UserId) returns (reply: Reply)
      modifies this
      ensures var r := JoinStep(old(State()), gid, u);
              State() == r.0 && reply == r.1
    {
      if gid !in groups {
        return NotFound;
      }
      groups := groups[gid := groups[gid].(members := groups[gid].members + {u})];
      reply := Status(200, "status", "joined");
    }

    method Leave(gid: int, u: UserId) returns (reply: Reply)
      modifies this
      ensures var r := LeaveStep(old(State()), gid, u);
              State() == r.0 && reply == r.1
    {
      if gid !in groups {
        return NotFound;
      }
      groups := groups[gid := groups[gid].(members := groups[gid].members - {u})];
      reply := Status(200, "status", "left");
    }

    method AddModerator(gid: int, requester: UserId, target: Option<UserId>) returns (reply: Reply)
      modifies this
      ensures var r := AddModeratorStep(old(State()), gid, requester, target);
              State() == r.0 && reply == r.1
    {
      if gid !in groups {
        return NotFound;
      }
      if groups[gid].creator != requester {
        return Status(403, "error", OnlyCreator);
      }
      if target.None? || target.value !in users {
        return ServerError;
      }
      groups := groups[gid := groups[gid].(moderators := groups[gid].moderators + {target.value})];
      reply := Status(200, "status", "moderator added");
    }

    method CreatePost(requester: UserId, input: PostInput, newId: int, now: int) returns (reply: Reply)
      modifies this
      ensures var r := CreatePostStep(old(State()), requester, input, newId, now);
              State() == r.0 && reply == r.1
    {
      var v := DeserializePost(input, groups.Keys);
      if v.Err? {
        return Status(400, "detail", ErrorsRepr(v.error));
      }
      posts := posts + [Post(newId, v.value.title, v.value.content, requester, v.value.group, {}, now)];
      reply := Created(newId);
    }

    method LikePost(pid: int, u: UserId) returns (reply: Reply)
      modifies this
      ensures var r := LikePostStep(old(State()), pid, u);
              State() == r.0 && reply == r.1
    {
      if !HasPost(posts, pid) {
        return NotFound;
      }
      posts := SetPostLike(posts, pid, u, true);
      reply := Status(200, "status", "liked");
    }

    method UnlikePost(pid: int, u: UserId) returns (reply: Reply)
      modifies this
      ensures var r := UnlikePostStep(old(State()), pid, u);
              State() == r.0 && reply == r.1
    {
      if !HasPost(posts, pid) {
        return NotFound;
      }
      posts := SetPostLike(posts, pid, u, false);
      reply := Status(200, "status", "unliked");
    }

    method CreateComment(requester: UserId, input: CommentInput, newId: int, now: int) returns (reply: Reply)
      modifies this
      ensures var r := CreateCommentStep(old(State()), requester, input, newId, now);
              State() == r.0 && reply == r.1
    {
      var v := DeserializeComment(input);
      if v.Err? {
        return Invalid(v.error);
      }
      if input.post.None? || !HasPost(posts, input.post.value) {
        return NotFound;
      }
      comments := comments + [Comment(newId, v.value, requester, input.post.value, {}, now)];
      reply := Created(newId);
    }

    method LikeComment(cid: int, u: UserId, add: bool) returns (reply: Reply)
      modifies this
      ensures var r := LikeCommentStep(old(State()), cid, u, add);
              State() == r.0 && reply == r.1
    {
      if !HasComment(comments, cid) {
        return NotFound;
      }
      comments := SetCommentLike(comments, cid, u, add);
      reply := Status(200, "status", if add then "liked" else "unliked");
    }
  }
}

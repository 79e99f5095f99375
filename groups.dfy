/** The group page: membership checks, creating and liking posts, and the
    comment list of each post card. Every transition computes the next list
    from the current one. */
module GroupsPage {
  import opened Common
  import opened PostInteractions
  import Text

  datatype Comment = Comment(id: int, likes: seq<Id>, likeCount: int)
  datatype Post = Post(id: int, likes: seq<Id>, likeCount: int, comments: Option<seq<Comment>>)

  /** `likes.filter(like => like.id !== userId)`. */
  function RemoveLikes(likes: seq<Id>, userId: Id): (r: seq<Id>)
    ensures userId !in r
    ensures forall x :: x != userId ==> multiset(r)[x] == multiset(likes)[x]
    ensures |r| <= |likes|
  {
    if likes == [] then []
    else
      assert likes == [likes[0]] + likes[1..];
      (if likes[0] == userId then [] else [likes[0]]) + RemoveLikes(likes[1..], userId)
  }

  lemma {:induction false} RemoveAbsentLike(likes: seq<Id>, userId: Id)
    requires userId !in likes
    ensures RemoveLikes(likes, userId) == likes
  {
    if likes != [] {
      RemoveAbsentLike(likes[1..], userId);
      assert likes == [likes[0]] + likes[1..];
    }
  }

  lemma {:induction false} RemoveAppendedLike(likes: seq<Id>, userId: Id)
    requires userId !in likes
    ensures RemoveLikes(likes + [userId], userId) == likes
  {
    if likes == [] {
      assert RemoveLikes([userId], userId) == [] + RemoveLikes([], userId);
    } else {
      assert (likes + [userId])[1..] == likes[1..] + [userId];
      RemoveAppendedLike(likes[1..], userId);
      assert likes == [likes[0]] + likes[1..];
    }
  }

  // ---------------------------------------------------------- membership

  /** An operand of `===` here: a number, or an object parsed from JSON
      (the profile the group serializer nests as `creator`). */
  datatype JsValue = JsNumber(n: int) | JsObject(id: int, username: string)

  /** `a === n`: an object is never strictly equal to a number. */
  predicate StrictEquals(a: JsValue, n: int) {
    a.JsNumber? && a.n == n
  }

  /** The group as the page holds it: members and moderators by id, and the
      `creator` field as received. */
  datatype Group = Group(creator: JsValue, members: seq<Id>, moderators: seq<Id>)

  /** `isGroupMember`: false without a group or a truthy user id. */
  predicate IsGroupMember(g: Option<Group>, userId: Id) {
    g.Some? && Truthy(userId) && userId in g.value.members
  }

  /** `isGroupCreator` as written: `group.creator === safeUser.id`. */
  predicate IsGroupCreator(g: Option<Group>, userId: Id) {
    g.Some? && Truthy(userId) && StrictEquals(g.value.creator, userId.value)
  }

  predicate IsGroupModerator(g: Option<Group>, userId: Id) {
    g.Some? && Truthy(userId) && userId in g.value.moderators
  }

  /** A missing group, a missing user, or a user with id 0 is never member,
      creator or moderator; otherwise membership tests the id lists and the
      creator test holds only for a creator given as that very number. */
  lemma RolesNeedGroupAndUser(g: Option<Group>, userId: Id)
    ensures g.None? || !Truthy(userId) ==>
      !IsGroupMember(g, userId) && !IsGroupCreator(g, userId) && !IsGroupModerator(g, userId)
    ensures g.Some? && Truthy(userId) ==>
      && (IsGroupMember(g, userId) <==> exists k :: 0 <= k < |g.value.members| && g.value.members[k] == userId)
      && (IsGroupModerator(g, userId) <==> exists k :: 0 <= k < |g.value.moderators| && g.value.moderators[k] == userId)
      && (IsGroupCreator(g, userId) <==> g.value.creator == JsNumber(userId.value))
  {
  }

  /** As written, the page never recognises the creator of a group the
      server sends, since it sends the creator as an object. */
  lemma CreatorNeverRecognizedAsWritten(g: Option<Group>, userId: Id)
    requires g.Some? && g.value.creator.JsObject?
    ensures !IsGroupCreator(g, userId)
  {
  }

  /** The evidently intended test: `group.creator?.id === safeUser.id`. */
  predicate IsGroupCreatorById(g: Option<Group>, userId: Id) {
    g.Some? && Truthy(userId) && g.value.creator.JsObject? && g.value.creator.id == userId.value
  }

  /** Corrected, the creator the server names is recognised, and only they
      are. */
  lemma CreatorRecognizedById(g: Option<Group>, userId: Id, creatorId: int, username: string)
    requires g.Some? && g.value.creator == JsObject(creatorId, username) && Truthy(userId)
    ensures IsGroupCreatorById(g, userId) <==> userId.value == creatorId
  {
  }

  // ------------------------------------------------------------ creating

  const AuthError: string := "Authentication error. Please log in again."
  const CreatePostFailed: string := "Failed to create post. Please try again."

  /** The request body: `content` and `group`, plus `title` when it is not
      blank. */
  function NewPostBody(groupId: int, content: string, title: string): (b: map<string, Json>)
    ensures "title" in b <==> !Text.IsBlank(title)
    ensures "content" in b && "group" in b && b["content"] == JStr(content) && b["group"] == JInt(groupId)
    ensures "title" in b ==> b["title"] == JStr(title)
    ensures b.Keys <= {"content", "group", "title"}
  {
    var base := map["content" := JStr(content), "group" := JInt(groupId)];
    if !Text.IsBlank(title) then base["title" := JStr(title)] else base
  }

  datatype PostForm = PostForm(posts: seq<Post>, content: string, title: string, error: Option<string>)

  /** `handleCreatePost`: the created post goes first and the form clears; a
      401 or another failure sets the matching error and keeps the form. */
  function CreatePostStep(f: PostForm, answer: HttpOutcome<Post>): (r: PostForm)
    ensures answer.Success? ==> r == PostForm([answer.data] + f.posts, "", "", None)
    ensures answer.IsUnauthorized() ==> r == f.(error := Some(AuthError))
    ensures !answer.Success? && !answer.IsUnauthorized() ==>
      r == f.(error := Some(OrElse(if answer.HttpError? then answer.message else None, CreatePostFailed)))
  {
    if answer.Success? then PostForm([answer.data] + f.posts, "", "", None)
    else if answer.IsUnauthorized() then f.(error := Some(AuthError))
    else f.(error := Some(OrElse(if answer.HttpError? then answer.message else None, CreatePostFailed)))
  }

  // -------------------------------------------------------------- liking

  /** `posts.find(p => p.id === postId)`. */
  function FindPost(posts: seq<Post>, id: int): (r: Option<Post>)
    ensures r.Some? ==> r.value in posts && r.value.id == id
    ensures r.None? <==> forall k :: 0 <= k < |posts| ==> posts[k].id != id
  {
    if posts == [] then None
    else if posts[0].id == id then Some(posts[0])
    else FindPost(posts[1..], id)
  }

  function LikedPost(p: Post, userId: Id): (q: Post)
    ensures q.id == p.id && q.comments == p.comments
    ensures q.likes == p.likes + [userId] && q.likeCount == p.likeCount + 1
  {
    p.(likes := p.likes + [userId], likeCount := p.likeCount + 1)
  }

  function UnlikedPost(p: Post, userId: Id): (q: Post)
    ensures q.id == p.id && q.comments == p.comments
    ensures q.likes == RemoveLikes(p.likes, userId) && q.likeCount == p.likeCount - 1
  {
    p.(likes := RemoveLikes(p.likes, userId), likeCount := p.likeCount - 1)
  }

  function MapPosts(posts: seq<Post>, id: int, f: Post -> Post): (r: seq<Post>)
    ensures |r| == |posts|
    ensures forall k :: 0 <= k < |posts| ==> r[k] == if posts[k].id == id then f(posts[k]) else posts[k]
  {
    seq(|posts|, k requires 0 <= k < |posts| => if posts[k].id == id then f(posts[k]) else posts[k])
  }

  const LikePostFailed: string := "Failed to like post. Please try again."

  datatype LikePostEffect = LikePostEffect(posts: seq<Post>, error: Option<string>, request: Option<LikeRequest>)

  /** `handleLikePost`: the first post with the id decides between like and
      unlike; only posts with that id change. A missing post or a failed call
      leaves the list and sets the error. */
  function LikePostStep(posts: seq<Post>, postId: int, userId: Id, accepted: bool): (r: LikePostEffect)
    ensures FindPost(posts, postId).None? ==> r == LikePostEffect(posts, Some(LikePostFailed), None)
    ensures FindPost(posts, postId).Some? ==>
      var liked := userId in FindPost(posts, postId).value.likes;
      r.request == Some(if liked then UnlikeCall else LikeCall)
      && (!accepted ==> r.posts == posts && r.error == Some(LikePostFailed))
      && (accepted ==> (r.error == None && |r.posts| == |posts|
          && forall k :: 0 <= k < |posts| ==>
               r.posts[k] == if posts[k].id != postId then posts[k]
                             else if liked then UnlikedPost(posts[k], userId) else LikedPost(posts[k], userId)))
  {
    var found := FindPost(posts, postId);
    if found.None? then LikePostEffect(posts, Some(LikePostFailed), None)
    else if userId in found.value.likes then
      if accepted then LikePostEffect(MapPosts(posts, postId, p => UnlikedPost(p, userId)), None, Some(UnlikeCall))
      else LikePostEffect(posts, Some(LikePostFailed), Some(UnlikeCall))
    else
      if accepted then LikePostEffect(MapPosts(posts, postId, p => LikedPost(p, userId)), None, Some(LikeCall))
      else LikePostEffect(posts, Some(LikePostFailed), Some(LikeCall))
  }

  /** Liking a post the user had not liked and then unliking it, both
      accepted, gives back the original post. */
  lemma LikeThenUnlikeRestoresPost(p: Post, userId: Id)
    requires userId !in p.likes
    ensures UnlikedPost(LikedPost(p, userId), userId) == p
  {
    RemoveAppendedLike(p.likes, userId);
  }

  predicate DistinctPostIds(posts: seq<Post>) {
    forall i, j :: 0 <= i < j < |posts| ==> posts[i].id != posts[j].id
  }

  /** With distinct ids, `find` returns the one post carrying the id. */
  lemma FindDistinct(posts: seq<Post>, id: int, i: nat)
    requires DistinctPostIds(posts) && i < |posts| && posts[i].id == id
    ensures FindPost(posts, id) == Some(posts[i])
  {
    var r := FindPost(posts, id);
    assert r.Some?;
    var k :| 0 <= k < |posts| && posts[k] == r.value;
    assert posts[k].id == posts[i].id;
  }

  /** An accepted click on a post the user has not liked likes every post
      with that id. */
  lemma AcceptedLike(posts: seq<Post>, postId: int, userId: Id, i: nat)
    requires i < |posts| && FindPost(posts, postId) == Some(posts[i]) && userId !in posts[i].likes
    ensures var r := LikePostStep(posts, postId, userId, true).posts;
            |r| == |posts| && forall k :: 0 <= k < |posts| ==>
              r[k] == if posts[k].id == postId then LikedPost(posts[k], userId) else posts[k]
  {
  }

  /** An accepted click on a post the user has liked unlikes every post with
      that id. */
  lemma AcceptedUnlike(posts: seq<Post>, postId: int, userId: Id, i: nat)
    requires i < |posts| && FindPost(posts, postId) == Some(posts[i]) && userId in posts[i].likes
    ensures var r := LikePostStep(posts, postId, userId, true).posts;
            |r| == |posts| && forall k :: 0 <= k < |posts| ==>
              r[k] == if posts[k].id == postId then UnlikedPost(posts[k], userId) else posts[k]
  {
  }

  /** Two steps that each change only index `i`, the second putting back
      its original element, restore the sequence. */
  lemma RestoredAt<T>(a: seq<T>, b: seq<T>, c: seq<T>, i: nat)
    requires |b| == |a| && |c| == |b| && i < |a| && c[i] == a[i]
    requires forall k :: 0 <= k < |a| && k != i ==> b[k] == a[k]
    requires forall k :: 0 <= k < |b| && k != i ==> c[k] == b[k]
    ensures c == a
  {
  }

  /** The same for a list whose ids are distinct: like then unlike is the
      identity. */
  lemma LikeThenUnlikeRestoresList(posts: seq<Post>, postId: int, userId: Id)
    requires forall i, j :: 0 <= i < j < |posts| ==> posts[i].id != posts[j].id
    requires FindPost(posts, postId).Some? && userId !in FindPost(posts, postId).value.likes
    ensures var once := LikePostStep(posts, postId, userId, true).posts;
            LikePostStep(once, postId, userId, true).posts == posts
  {
    var p := FindPost(posts, postId).value;
    var i :| 0 <= i < |posts| && posts[i] == p;
    var once := LikePostStep(posts, postId, userId, true).posts;
    assert |once| == |posts| && once[i] == LikedPost(p, userId) && DistinctPostIds(once)
           && forall k :: 0 <= k < |posts| && k != i ==> once[k] == posts[k] by {
      FindDistinct(posts, postId, i);
      AcceptedLike(posts, postId, userId, i);
      assert forall k :: 0 <= k < |once| ==> once[k].id == posts[k].id;
    }
    var twice := LikePostStep(once, postId, userId, true).posts;
    assert |twice| == |once| && twice[i] == p && forall k :: 0 <= k < |once| && k != i ==> twice[k] == once[k] by {
      FindDistinct(once, postId, i);
      AcceptedUnlike(once, postId, userId, i);
      LikeThenUnlikeRestoresPost(p, userId);
    }
    RestoredAt(posts, once, twice, i);
  }

  // ------------------------------------------------------------- comments

  const CreateCommentFailed: string := "Failed to create comment"

  /** `handleCreateComment`: the comment goes first in the matching post's
      list, a missing list counting as empty; the result is what the post
      card's form receives. */
  function CreateCommentStep(posts: seq<Post>, postId: int, created: Option<Comment>): (r: (seq<Post>, Result<Comment, string>))
    ensures created.None? ==> r == (posts, Err(CreateCommentFailed))
    ensures created.Some? ==> r.1 == Ok(created.value) && |r.0| == |posts|
    ensures created.Some? ==> forall k :: 0 <= k < |posts| ==>
      r.0[k] == if posts[k].id == postId
                then posts[k].(comments := Some([created.value] + (if posts[k].comments.Some? then posts[k].comments.value else [])))
                else posts[k]
  {
    if created.None? then (posts, Err(CreateCommentFailed))
    else
      var c := created.value;
      (MapPosts(posts, postId, (p: Post) => p.(comments := Some([c] + (if p.comments.Some? then p.comments.value else [])))), Ok(c))
  }

  /** `handleLoadComments`: the matching posts get the loaded list. */
  function LoadCommentsStep(posts: seq<Post>, postId: int, loaded: Option<seq<Comment>>): (r: (seq<Post>, Result<seq<Comment>, string>))
    ensures loaded.None? ==> r == (posts, Err("Failed to load comments"))
    ensures loaded.Some? ==> (r.1 == Ok(loaded.value) && |r.0| == |posts|
      && forall k :: 0 <= k < |posts| ==> r.0[k] == if posts[k].id == postId then posts[k].(comments := loaded) else posts[k])
  {
    if loaded.None? then (posts, Err("Failed to load comments"))
    else (MapPosts(posts, postId, (p: Post) => p.(comments := loaded)), Ok(loaded.value))
  }

  function MapComments(comments: seq<Comment>, id: int, f: Comment -> Comment): (r: seq<Comment>)
    ensures |r| == |comments|
    ensures forall k :: 0 <= k < |comments| ==> r[k] == if comments[k].id == id then f(comments[k]) else comments[k]
  {
    seq(|comments|, k requires 0 <= k < |comments| => if comments[k].id == id then f(comments[k]) else comments[k])
  }

  /** The post card's `handleLikeComment`: after an accepted call the
      matching comments gain the user's like and one count. */
  function LikeCommentStep(comments: seq<Comment>, commentId: int, userId: Id, accepted: bool): (r: seq<Comment>)
    ensures !accepted ==> r == comments
    ensures accepted ==> |r| == |comments| && forall k :: 0 <= k < |comments| ==>
      r[k] == if comments[k].id == commentId
              then comments[k].(likes := comments[k].likes + [userId], likeCount := comments[k].likeCount + 1)
              else comments[k]
  {
    if !accepted then comments
    else MapComments(comments, commentId, (c: Comment) => c.(likes := c.likes + [userId], likeCount := c.likeCount + 1))
  }

  /** `handleUnlikeComment`: the matching comments lose every like of the
      user and one count. */
  function UnlikeCommentStep(comments: seq<Comment>, commentId: int, userId: Id, accepted: bool): (r: seq<Comment>)
    ensures !accepted ==> r == comments
    ensures accepted ==> |r| == |comments| && forall k :: 0 <= k < |comments| ==>
      r[k] == if comments[k].id == commentId
              then comments[k].(likes := RemoveLikes(comments[k].likes, userId), likeCount := comments[k].likeCount - 1)
              else comments[k]
    ensures accepted ==> forall k :: 0 <= k < |r| && comments[k].id == commentId ==> userId !in r[k].likes
  {
    if !accepted then comments
    else MapComments(comments, commentId, (c: Comment) => c.(likes := RemoveLikes(c.likes, userId), likeCount := c.likeCount - 1))
  }
}

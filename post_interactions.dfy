/** What the post card, the comment card and the groups page share: the
    like button's counter and flag, and the comment form. */
module PostInteractions {
  import opened Common
  import Text

  /** A user or record id as the page sees it; `None` is `undefined`. */
  type Id = Option<int>

  /** JavaScript truthiness of an id: present and not 0. */
  predicate Truthy(id: Id) { id.Some? && id.value != 0 }

  /** `like_count || 0`. */
  function CountOrZero(c: Option<int>): (r: int)
    ensures c.Some? ==> r == c.value
    ensures c.None? ==> r == 0
  {
    if c.Some? then c.value else 0
  }

  datatype LikeState = LikeState(isLiked: bool, likeCount: int)

  /** The card's first render: liked exactly when some like carries the
      user's id (`undefined` matching `undefined`). */
  function InitialLikeState(likes: seq<Id>, userId: Id, likeCount: Option<int>): (s: LikeState)
    ensures s.isLiked <==> exists k :: 0 <= k < |likes| && likes[k] == userId
    ensures s.likeCount == CountOrZero(likeCount)
  {
    LikeState(userId in likes, CountOrZero(likeCount))
  }

  /** What the cards read from the `likes` the server sends. The post and
      comment serializers list a many-to-many field by its keys, so each
      like is a bare number, and `like?.id` of a number is `undefined`. */
  function SeenLikeIds(keys: seq<int>): (r: seq<Id>)
    ensures |r| == |keys| && forall k :: 0 <= k < |r| ==> r[k] == None
  {
    seq(|keys|, k requires 0 <= k < |keys| => None)
  }

  /** As written: a signed-in user never sees their own like, so their
      click sends a second like (which the server ignores) and the shown
      count rises; a visitor sees every liked post as liked. */
  lemma ServerLikesHiddenAsWritten(keys: seq<int>, userId: Id, likeCount: Option<int>, targetId: Id,
                                   missingTarget: string, missingUser: string)
    ensures InitialLikeState(SeenLikeIds(keys), userId, likeCount).isLiked <==> userId.None? && keys != []
    ensures Truthy(targetId) && Truthy(userId) && userId.value in keys ==>
              HandleLikeStep(InitialLikeState(SeenLikeIds(keys), userId, likeCount), targetId, userId, missingTarget, missingUser, None)
              == LikeAttempt(LikeState(true, CountOrZero(likeCount) + 1), None, Some(LikeCall))
  {
    var seen := SeenLikeIds(keys);
    if userId.None? && keys != [] {
      assert seen[0] == userId;
    }
  }

  /** Corrected: the user's key itself is looked for among the likes. */
  function InitialLikeStateByKey(keys: seq<int>, userId: Id, likeCount: Option<int>): (s: LikeState)
    ensures s.isLiked <==> userId.Some? && userId.value in keys
    ensures s.likeCount == CountOrZero(likeCount)
  {
    LikeState(userId.Some? && userId.value in keys, CountOrZero(likeCount))
  }

  /** With the correction, a user who has liked sends an unlike and the
      count falls, and a visitor sees nothing liked. */
  lemma LikerUnlikesCorrected(keys: seq<int>, userId: Id, likeCount: Option<int>, targetId: Id,
                              missingTarget: string, missingUser: string)
    ensures userId.None? ==> !InitialLikeStateByKey(keys, userId, likeCount).isLiked
    ensures Truthy(targetId) && Truthy(userId) && userId.value in keys ==>
              HandleLikeStep(InitialLikeStateByKey(keys, userId, likeCount), targetId, userId, missingTarget, missingUser, None)
              == LikeAttempt(LikeState(false, CountOrZero(likeCount) - 1), None, Some(UnlikeCall))
  {
  }

  /** A like answered by the server: the count moves by one according to the
      previous flag, then the flag flips. */
  function Toggle(s: LikeState): (r: LikeState)
    ensures r.isLiked == !s.isLiked
    ensures s.isLiked ==> r.likeCount == s.likeCount - 1
    ensures !s.isLiked ==> r.likeCount == s.likeCount + 1
  {
    if s.isLiked then LikeState(false, s.likeCount - 1) else LikeState(true, s.likeCount + 1)
  }

  /** A like followed by an unlike, both answered, restores the card. */
  lemma ToggleTwiceRestores(s: LikeState)
    ensures Toggle(Toggle(s)) == s
  {
  }

  datatype LikeRequest = LikeCall | UnlikeCall

  /** The state after a click, the error set (if any), and the request made. */
  datatype LikeAttempt = LikeAttempt(state: LikeState, error: Option<string>, request: Option<LikeRequest>)

  /** The click handler of both cards. `failure` is the message of the call's
      error, or `None` when the server accepted it. */
  function HandleLikeStep(s: LikeState, targetId: Id, userId: Id, missingTarget: string, missingUser: string, failure: Option<string>): (r: LikeAttempt)
    ensures r.request.None? <==> !Truthy(targetId) || !Truthy(userId)
    ensures !Truthy(targetId) ==> r == LikeAttempt(s, Some(missingTarget), None)
    ensures Truthy(targetId) && !Truthy(userId) ==> r == LikeAttempt(s, Some(missingUser), None)
    ensures r.request.Some? ==> r.request.value == (if s.isLiked then UnlikeCall else LikeCall)
    ensures r.request.Some? && failure.Some? ==> r.state == s && r.error == failure
    ensures r.request.Some? && failure.None? ==> r.state == Toggle(s) && r.error == None
    ensures r.state == s || r.state == Toggle(s)
  {
    if !Truthy(targetId) then LikeAttempt(s, Some(missingTarget), None)
    else if !Truthy(userId) then LikeAttempt(s, Some(missingUser), None)
    else
      var request := if s.isLiked then UnlikeCall else LikeCall;
      if failure.Some? then LikeAttempt(s, failure, Some(request))
      else LikeAttempt(Toggle(s), None, Some(request))
  }

  const EmptyComment: string := "Comment cannot be empty"
  const CommentFailed: string := "Failed to post comment"

  /** The comment form afterwards and the text sent, if a call was made. */
  datatype CommentSubmit<C> = CommentSubmit(comments: seq<C>, input: string, error: Option<string>, sent: Option<string>)

  /** `handleCommentSubmit`: blank input is refused without a call; a created
      comment goes first and the input is cleared; a failure keeps both and
      shows the error's message, or the fallback when it has none. */
  function SubmitComment<C>(comments: seq<C>, input: string, answer: Result<C, string>): (r: CommentSubmit<C>)
    ensures r.sent.None? <==> Text.IsBlank(input)
    ensures r.sent.None? ==> r == CommentSubmit(comments, input, Some(EmptyComment), None)
    ensures r.sent.Some? ==> r.sent.value == input
    ensures r.sent.Some? && answer.Ok? ==> r.comments == [answer.value] + comments && r.input == "" && r.error == None
    ensures r.sent.Some? && answer.Err? ==>
      r.comments == comments && r.input == input && r.error == Some(OrElse(Some(answer.error), CommentFailed))
  {
    if Text.IsBlank(input) then CommentSubmit(comments, input, Some(EmptyComment), None)
    else match answer
      case Ok(c) => CommentSubmit([c] + comments, "", None, Some(input))
      case Err(m) => CommentSubmit(comments, input, Some(OrElse(Some(m), CommentFailed)), Some(input))
  }
}

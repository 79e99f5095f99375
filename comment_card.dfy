/** The comment card: its like button, its count badge and the click
    animation. */
module CommentComponent {
  import opened Common
  import opened PostInteractions

  const InvalidComment: string := "Invalid comment ID"
  const LoginToLikeComments: string := "Please log in to like comments"

  /** The count badge is drawn only for a positive count. */
  predicate ShowsBadge(s: LikeState) { s.likeCount > 0 }

  /** Starting from a non-negative count, an accepted like always shows the
      badge, and an accepted unlike hides it exactly when it was the last
      like. */
  lemma BadgeAfterToggle(s: LikeState)
    requires s.likeCount >= 0
    ensures !s.isLiked ==> ShowsBadge(Toggle(s))
    ensures s.isLiked ==> (ShowsBadge(Toggle(s)) <==> s.likeCount > 1)
  {
  }

  class CommentCard {
    const commentId: Id
    const userId: Id
    var isLiked: bool
    var likeCount: int
    var error: Option<string>
    var isAnimating: bool

    function LikeView(): LikeState
      reads this
    {
      LikeState(isLiked, likeCount)
    }

    /** `likes` is the comment's list, `[]` when it has none. */
    constructor(commentId: Id, likes: seq<Id>, likeCount: Option<int>, userId: Id)
      ensures LikeView() == InitialLikeState(likes, userId, likeCount)
      ensures this.commentId == commentId && this.userId == userId && error == None && !isAnimating
    {
      this.commentId := commentId;
      this.userId := userId;
      isLiked := userId in likes;
      this.likeCount := CountOrZero(likeCount);
      error := None;
      isAnimating := false;
    }

    /** The click: the animation starts whatever happens; the 300 ms timer
      that ends it is `OnAnimationTimer`. */
    method HandleLike(failure: Option<string>) returns (request: Option<LikeRequest>)
      modifies this
      ensures var r := HandleLikeStep(old(LikeView()), commentId, userId, InvalidComment, LoginToLikeComments, failure);
              LikeView() == r.state && error == r.error && request == r.request
      ensures isAnimating
    {
      error := None;
      isAnimating := true;
      if !Truthy(commentId) {
        error := Some(InvalidComment);
        return None;
      }
      if !Truthy(userId) {
        error := Some(LoginToLikeComments);
        return None;
      }
      request := Some(if isLiked then UnlikeCall else LikeCall);
      if failure.Some? {
        error := failure;
        return;
      }
      if isLiked {
        likeCount := likeCount - 1;
      } else {
        likeCount := likeCount + 1;
      }
      isLiked := !isLiked;
    }

    method OnAnimationTimer()
      modifies this
      ensures !isAnimating && LikeView() == old(LikeView()) && error == old(error)
    {
      isAnimating := false;
    }
  }
}

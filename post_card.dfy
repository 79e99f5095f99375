/** The post card: its like button and comment form. */
module PostComponent {
  import opened Common
  import opened PostInteractions
  import Text

  /** A created comment as the server returns it. */
  datatype CommentRecord = CommentRecord(fields: map<string, Json>)

  const InvalidPost: string := "Invalid post"
  const LoginToLikePosts: string := "Please log in to like posts"

  class PostCard {
    const postId: Id
    const userId: Id
    /** The post's `likes` ids and `like_count`, as the props give them. */
    const likes: seq<Id>
    const propCount: Option<int>
    var showComments: bool
    var isLiked: bool
    var likeCount: int
    var postError: Option<string>
    var comments: seq<CommentRecord>
    var newComment: string
    var commentError: Option<string>

    function LikeView(): LikeState
      reads this
    {
      LikeState(isLiked, likeCount)
    }

    /** The effect that runs once the post is known. */
    constructor(postId: Id, likes: seq<Id>, likeCount: Option<int>, userId: Id)
      ensures LikeView() == InitialLikeState(likes, userId, likeCount)
      ensures this.postId == postId && this.userId == userId && this.likes == likes && propCount == likeCount
      ensures !showComments && postError == None && comments == [] && newComment == "" && commentError == None
    {
      this.postId := postId;
      this.userId := userId;
      this.likes := likes;
      propCount := likeCount;
      showComments := false;
      isLiked := userId in likes;
      this.likeCount := CountOrZero(likeCount);
      postError := None;
      comments := [];
      newComment := "";
      commentError := None;
    }

    method HandleLike(failure: Option<string>) returns (request: Option<LikeRequest>)
      modifies this
      ensures var r := HandleLikeStep(old(LikeView()), postId, userId, InvalidPost, LoginToLikePosts, failure);
              LikeView() == r.state && postError == r.error && request == r.request
      ensures comments == old(comments) && newComment == old(newComment) && commentError == old(commentError)
      ensures showComments == old(showComments)
    {
      postError := None;
      if !Truthy(postId) {
        postError := Some(InvalidPost);
        return None;
      }
      if !Truthy(userId) {
        postError := Some(LoginToLikePosts);
        return None;
      }
      if isLiked {
        request := Some(UnlikeCall);
        if failure.Some? {
          postError := failure;
          return;
        }
        likeCount := likeCount - 1;
      } else {
        request := Some(LikeCall);
        if failure.Some? {
          postError := failure;
          return;
        }
        likeCount := likeCount + 1;
      }
      isLiked := !isLiked;
    }

    /** The comments button. The effect lists `showComments` among its
        dependencies, so it runs again: the like cells are read from the
        props once more, which drops a like or unlike shown since the post
        was loaded; and comments are fetched (`load`) when they are now
        shown, none are loaded yet, and the post has an id. */
    method ToggleComments() returns (load: bool)
      modifies this
      ensures showComments == !old(showComments)
      ensures LikeView() == InitialLikeState(likes, userId, propCount)
      ensures load <==> showComments && comments == [] && Truthy(postId)
      ensures comments == old(comments) && newComment == old(newComment)
      ensures postError == old(postError) && commentError == old(commentError)
    {
      showComments := !showComments;
      isLiked := userId in likes;
      likeCount := CountOrZero(propCount);
      load := showComments && |comments| == 0 && Truthy(postId);
    }

    method HandleCommentSubmit(answer: Result<CommentRecord, string>) returns (sent: Option<string>)
      modifies this
      ensures var r := SubmitComment(old(comments), old(newComment), answer);
              comments == r.comments && newComment == r.input && commentError == r.error && sent == r.sent
      ensures isLiked == old(isLiked) && likeCount == old(likeCount) && postError == old(postError)
      ensures showComments == old(showComments)
    {
      var r := SubmitComment(comments, newComment, answer);
      comments := r.comments;
      newComment := r.input;
      commentError := r.error;
      sent := r.sent;
    }
  }
}

/**
 * Comments on forum posts and replies to them
 * (Controllers/CommentController.cs): creating one, reading one, and the
 * top-level comments of a post.
 */
module CommentController {
  import opened Wrappers
  import opened Sequences
  import opened Models
  import opened Data

  /**
   * The refusal CreateComment gives a comment before storing it:
   * BadRequest for a null body; for a top-level comment, BadRequest when
   * its post does not exist; for a reply, BadRequest when its parent does
   * not exist, and a server error when its post does not exist (the post
   * is not checked for replies, so the foreign key refuses the row at
   * SaveChangesAsync and the catch block answers 500). None when the
   * comment can be stored.
   */
  function CommentRejection(posts: seq<Post>, comments: seq<Comment>, comment: Option<Comment>): (r: Option<Reply<Comment>>)
    ensures r.None? <==>
      && comment.Some?
      && HasKey(posts, PostKey, comment.value.postId)
      && (comment.value.parentCommentId.Some? ==> HasKey(comments, CommentKey, comment.value.parentCommentId.value))
    ensures comment.None? ==> r == Some(BadRequest(InputRequired))
    ensures comment.Some? && comment.value.parentCommentId.None? ==>
      (r == Some(BadRequest(Missing(Posts))) <==> !HasKey(posts, PostKey, comment.value.postId))
    ensures comment.Some? && comment.value.parentCommentId.Some? ==>
      && (r == Some(BadRequest(Missing(Comments))) <==> !HasKey(comments, CommentKey, comment.value.parentCommentId.value))
      && (r == Some(ServerError) <==>
            HasKey(comments, CommentKey, comment.value.parentCommentId.value) && !HasKey(posts, PostKey, comment.value.postId))
  {
    if comment.None? then Some(BadRequest(InputRequired))
    else
      var c := comment.value;
      if c.parentCommentId.None? then
        if !HasKey(posts, PostKey, c.postId) then Some(BadRequest(Missing(Posts))) else None
      else if !HasKey(comments, CommentKey, c.parentCommentId.value) then Some(BadRequest(Missing(Comments)))
      else if !HasKey(posts, PostKey, c.postId) then Some(ServerError)
      else None
  }

  /**
   * POST create: refused as CommentRejection says, with the table
   * unchanged; otherwise exactly one row, the body under a new ID, is
   * appended.
   */
  method CreateComment(db: AppDbContext, comment: Option<Comment>) returns (r: Reply<Comment>)
    requires db.Valid()
    modifies db`comments
    ensures db.Valid()
    ensures var rejected := CommentRejection(db.posts, old(db.comments), comment);
      rejected.Some? ==> r == rejected.value && db.comments == old(db.comments)
    ensures var rejected := CommentRejection(db.posts, old(db.comments), comment);
      rejected.None? ==>
        var stored := comment.value.(id := FreshKey(old(db.comments), CommentKey));
        r == Created(stored) && db.comments == old(db.comments) + [stored]
  {
    var rejected := CommentRejection(db.posts, db.comments, comment);
    if rejected.Some? {
      return rejected.value;
    }
    var stored := comment.value.(id := FreshKey(db.comments, CommentKey));
    AppendUnique(db.comments, CommentKey, stored);
    db.comments := db.comments + [stored];
    r := Created(stored);
  }

  /** GET {id}: the comment with that ID, or NotFound. */
  function GetComment(comments: seq<Comment>, id: int): (r: Reply<Comment>)
    ensures r.Ok? || r == NotFound(Missing(Comments))
    ensures r.Ok? <==> HasKey(comments, CommentKey, id)
    ensures r.Ok? ==> r.value in comments && r.value.id == id
  {
    match FindByKey(comments, CommentKey, id)
    case None => NotFound(Missing(Comments))
    case Some(c) => Ok(c)
  }

  /** The test `c.PostID == postId && c.ParentCommentID == null`. */
  function TopLevelOf(postId: int): Comment -> bool {
    (c: Comment) => c.postId == postId && c.parentCommentId.None?
  }

  /**
   * GET GetComments/{postId}: the post's top-level comments, each as often
   * as in the table (the query does not order them); NotFound when it has
   * none.
   */
  function GetCommentsByPostId(comments: seq<Comment>, postId: int): (r: Reply<seq<Comment>>)
    ensures r.Ok? || r == NotFound(NoRows)
    ensures r.NotFound? <==>
      forall j | 0 <= j < |comments| :: !(comments[j].postId == postId && comments[j].parentCommentId.None?)
    ensures r.Ok? ==>
      forall c :: multiset(r.value)[c] ==
        if c.postId == postId && c.parentCommentId.None? then multiset(comments)[c] else 0
  {
    var tops := Filter(comments, TopLevelOf(postId));
    FilterEmpty(comments, TopLevelOf(postId));
    if tops == [] then NotFound(NoRows) else Ok(tops)
  }

  /** In a table with unique IDs, every comment listed for a post is the one GetComment finds under its ID. */
  lemma ListedCommentIsFound(comments: seq<Comment>, postId: int, c: Comment)
    requires UniqueKeys(comments, CommentKey)
    requires GetCommentsByPostId(comments, postId).Ok?
    requires c in GetCommentsByPostId(comments, postId).value
    ensures GetComment(comments, c.id) == Ok(c)
  {
    var listed := GetCommentsByPostId(comments, postId).value;
    assert multiset(listed)[c] > 0;
    var j :| 0 <= j < |comments| && comments[j] == c;
    FoundIsOnly(comments, CommentKey, c.id, j);
  }
}

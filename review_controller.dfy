/**
 * Shop reviews and their reply threads (Controllers/ReviewController.cs):
 * creating a review or a reply, reading one review with its replies, the
 * top-level reviews of a shop, and the recursive mapping to ReviewDto.
 */
module ReviewController {
  import opened Wrappers
  import opened Sequences
  import opened Models
  import opened Data

  // ---------------------------------------------------------------- create

  /**
   * The refusal CreateReview gives a review before storing it: BadRequest
   * for a null body; for a top-level review, BadRequest when its shop does
   * not exist; for a reply, BadRequest when its parent does not exist, and
   * a server error when its shop does not exist (the shop is not checked
   * for replies, so the foreign key refuses the row at SaveChangesAsync and
   * the catch block answers 500). None when the review can be stored.
   */
  function ReviewRejection(shops: seq<Shop>, reviews: seq<Review>, review: Option<Review>): (r: Option<Reply<Review>>)
    ensures r.None? <==>
      && review.Some?
      && HasKey(shops, ShopKey, review.value.shopId)
      && (review.value.parentReviewId.Some? ==> HasKey(reviews, ReviewKey, review.value.parentReviewId.value))
    ensures review.None? ==> r == Some(BadRequest(InputRequired))
    ensures review.Some? && review.value.parentReviewId.None? ==>
      (r == Some(BadRequest(Missing(Shops))) <==> !HasKey(shops, ShopKey, review.value.shopId))
    ensures review.Some? && review.value.parentReviewId.Some? ==>
      && (r == Some(BadRequest(Missing(Reviews))) <==> !HasKey(reviews, ReviewKey, review.value.parentReviewId.value))
      && (r == Some(ServerError) <==>
            HasKey(reviews, ReviewKey, review.value.parentReviewId.value) && !HasKey(shops, ShopKey, review.value.shopId))
  {
    if review.None? then Some(BadRequest(InputRequired))
    else
      var v := review.value;
      if v.parentReviewId.None? then
        if !HasKey(shops, ShopKey, v.shopId) then Some(BadRequest(Missing(Shops))) else None
      else if !HasKey(reviews, ReviewKey, v.parentReviewId.value) then Some(BadRequest(Missing(Reviews)))
      else if !HasKey(shops, ShopKey, v.shopId) then Some(ServerError)
      else None
  }

  /** Every reply was written after its parent: the parent's ID is the smaller one. */
  predicate ParentsPrecede(reviews: seq<Review>) {
    forall i | 0 <= i < |reviews| ::
      reviews[i].parentReviewId.Some? ==> reviews[i].parentReviewId.value < reviews[i].id
  }

  /** The row CreateReview stores: the body under the identity column's next ID. */
  function Inserted(reviews: seq<Review>, body: Review): (v: Review)
    ensures v.id == FreshKey(reviews, ReviewKey) && !HasKey(reviews, ReviewKey, v.id)
    ensures v.parentReviewId == body.parentReviewId && v.shopId == body.shopId
    ensures v.username == body.username && v.content == body.content && v.service == body.service
    ensures v.stars == body.stars && v.createdAt == body.createdAt
  {
    body.(id := FreshKey(reviews, ReviewKey))
  }

  /**
   * POST create: refused as ReviewRejection says, with the table unchanged;
   * otherwise exactly one row, the body under a new ID, is appended.
   */
  method CreateReview(db: AppDbContext, review: Option<Review>) returns (r: Reply<Review>)
    requires db.Valid()
    modifies db`reviews
    ensures db.Valid()
    ensures var rejected := ReviewRejection(db.shops, old(db.reviews), review);
      rejected.Some? ==> r == rejected.value && db.reviews == old(db.reviews)
    ensures var rejected := ReviewRejection(db.shops, old(db.reviews), review);
      rejected.None? ==>
        var stored := Inserted(old(db.reviews), review.value);
        r == Created(stored) && db.reviews == old(db.reviews) + [stored]
  {
    var rejected := ReviewRejection(db.shops, db.reviews, review);
    if rejected.Some? {
      return rejected.value;
    }
    var stored := Inserted(db.reviews, review.value);
    AppendUnique(db.reviews, ReviewKey, stored);
    db.reviews := db.reviews + [stored];
    r := Created(stored);
  }

  /**
   * A review CreateReview accepts keeps replies after their parents, so
   * following parent links always ends at a top-level review.
   */
  lemma CreateKeepsParentsPrecede(shops: seq<Shop>, reviews: seq<Review>, review: Option<Review>)
    requires ParentsPrecede(reviews)
    requires ReviewRejection(shops, reviews, review).None?
    ensures ParentsPrecede(reviews + [Inserted(reviews, review.value)])
  {
    var stored := Inserted(reviews, review.value);
    var after := reviews + [stored];
    if stored.parentReviewId.Some? {
      var j :| 0 <= j < |reviews| && reviews[j].id == stored.parentReviewId.value;
      assert stored.parentReviewId.value < stored.id;
    }
    assert after[|reviews|] == stored;
    assert forall i | 0 <= i < |reviews| :: after[i] == reviews[i];
  }

  // ---------------------------------------------------------- reply threads

  /**
   * A review as Entity Framework materialises it: the row and its `Reviews`
   * collection, which is null when it was not loaded.
   */
  datatype ReviewTree = ReviewTree(review: Review, replies: Replies)
  datatype Replies = NotLoaded | Loaded(trees: seq<ReviewTree>)

  /** Models/ReviewDto.cs: the fields a client sees, with the replies nested; `Reviews` may be null. */
  datatype ReviewDto = ReviewDto(
    id: int,
    content: Option<string>,
    username: Option<string>,
    service: Option<string>,
    createdAt: Time,
    stars: Option<Float>,
    reviews: DtoList)
  datatype DtoList = Null | List(dtos: seq<ReviewDto>)

  /** The DTO shows the row's ID, Content, Username, Service, Stars and CreatedAt unchanged. */
  predicate Copies(v: Review, d: ReviewDto) {
    && d.id == v.id && d.content == v.content && d.username == v.username
    && d.service == v.service && d.stars == v.stars && d.createdAt == v.createdAt
  }

  /**
   * `d` is `t` node for node: every node's fields are copied, a null reply
   * collection stays null, and a loaded one has as many replies, each
   * mirrored in the same position.
   */
  predicate Mirrors(t: ReviewTree, d: ReviewDto)
    decreases t
  {
    && Copies(t.review, d)
    && (t.replies.NotLoaded? <==> d.reviews.Null?)
    && (t.replies.Loaded? && d.reviews.List? ==>
          && |t.replies.trees| == |d.reviews.dtos|
          && forall i | 0 <= i < |t.replies.trees| :: Mirrors(t.replies.trees[i], d.reviews.dtos[i]))
  }

  /** MapToDto: the DTO of a review and, recursively, of its replies. */
  function MapToDto(t: ReviewTree): (d: ReviewDto)
    ensures Mirrors(t, d)
    decreases t
  {
    var v := t.review;
    var replies := match t.replies
      case NotLoaded => Null
      case Loaded(cs) => List(seq(|cs|, i requires 0 <= i < |cs| => MapToDto(cs[i])));
    ReviewDto(v.id, v.content, v.username, v.service, v.createdAt, v.stars, replies)
  }

  /** The number of nodes of a review tree. */
  function Size(t: ReviewTree): nat
    decreases t
  {
    1 + match t.replies
      case NotLoaded => 0
      case Loaded(cs) => SizeAll(cs)
  }

  function SizeAll(cs: seq<ReviewTree>): nat
    decreases cs
  {
    if cs == [] then 0 else Size(cs[0]) + SizeAll(cs[1..])
  }

  /** The number of nodes of a DTO tree. */
  function DtoSize(d: ReviewDto): nat
    decreases d
  {
    1 + match d.reviews
      case Null => 0
      case List(ds) => DtoSizeAll(ds)
  }

  function DtoSizeAll(ds: seq<ReviewDto>): nat
    decreases ds
  {
    if ds == [] then 0 else DtoSize(ds[0]) + DtoSizeAll(ds[1..])
  }

  /** A mirrored DTO has exactly as many nodes as the review tree. */
  lemma {:induction false} MirrorsSameSize(t: ReviewTree, d: ReviewDto)
    requires Mirrors(t, d)
    ensures Size(t) == DtoSize(d)
    decreases t
  {
    if t.replies.Loaded? {
      MirrorsSameSizeAll(t.replies.trees, d.reviews.dtos);
    }
  }

  lemma {:induction false} MirrorsSameSizeAll(cs: seq<ReviewTree>, ds: seq<ReviewDto>)
    requires |cs| == |ds| && forall i | 0 <= i < |cs| :: Mirrors(cs[i], ds[i])
    ensures SizeAll(cs) == DtoSizeAll(ds)
    decreases cs
  {
    if cs != [] {
      MirrorsSameSize(cs[0], ds[0]);
      assert forall i | 0 <= i < |cs[1..]| :: cs[1..][i] == cs[i + 1] && ds[1..][i] == ds[i + 1];
      MirrorsSameSizeAll(cs[1..], ds[1..]);
    }
  }

  // --------------------------------------------------------------- loading

  /** The test `r.ParentReviewID == id`: the direct replies to review `id`. */
  function ReplyTo(id: int): Review -> bool {
    (v: Review) => v.parentReviewId == Some(id)
  }

  /**
   * The tree lazy loading materialises for row `v`: its replies, their
   * replies, and so on, down to `depth` levels; below that the collection
   * is left null.
   */
  function Thread(reviews: seq<Review>, v: Review, depth: nat): (t: ReviewTree)
    ensures t.review == v
    ensures depth == 0 <==> t.replies.NotLoaded?
    ensures depth > 0 ==>
      var children := Filter(reviews, ReplyTo(v.id));
      && |t.replies.trees| == |children|
      && forall i | 0 <= i < |children| :: t.replies.trees[i].review == children[i]
    decreases depth
  {
    if depth == 0 then ReviewTree(v, NotLoaded)
    else
      var children := Filter(reviews, ReplyTo(v.id));
      ReviewTree(v, Loaded(seq(|children|, i requires 0 <= i < |children| => Thread(reviews, children[i], depth - 1))))
  }

  // --------------------------------------------------------------- queries

  /**
   * The DTO a query returns for row `v`: its whole reply tree loaded (lazy
   * loading follows the `Reviews` collections as far as they go, at most
   * one level per row) and mapped. Its direct replies are the rows replying
   * to `v`, in table order.
   */
  function ThreadDto(reviews: seq<Review>, v: Review): (d: ReviewDto)
    requires v in reviews
    ensures Copies(v, d) && d.reviews.List?
    ensures var children := Filter(reviews, ReplyTo(v.id));
      && |d.reviews.dtos| == |children|
      && forall i | 0 <= i < |children| :: children[i].parentReviewId == Some(v.id) && Copies(children[i], d.reviews.dtos[i])
  {
    var t := Thread(reviews, v, |reviews|);
    var d := MapToDto(t);
    assert forall i | 0 <= i < |t.replies.trees| :: Mirrors(t.replies.trees[i], d.reviews.dtos[i]);
    d
  }

  /**
   * GET {id}: NotFound for an unknown ID; otherwise the review's DTO, with
   * its direct replies, each a row of the table replying to it, in table
   * order.
   */
  function GetReview(reviews: seq<Review>, id: int): (r: Reply<ReviewDto>)
    ensures r.Ok? || r == NotFound(Missing(Reviews))
    ensures r.Ok? <==> HasKey(reviews, ReviewKey, id)
    ensures r.Ok? ==>
      var children := Filter(reviews, ReplyTo(id));
      && (exists j | 0 <= j < |reviews| :: reviews[j].id == id && Copies(reviews[j], r.value))
      && r.value.reviews.List? && |r.value.reviews.dtos| == |children|
      && forall i | 0 <= i < |children| :: children[i].parentReviewId == Some(id) && Copies(children[i], r.value.reviews.dtos[i])
  {
    match FindByKey(reviews, ReviewKey, id)
    case None => NotFound(Missing(Reviews))
    case Some(v) => Ok(ThreadDto(reviews, v))
  }

  /** The test `r.ShopID == shopId && r.ParentReviewID == null`. */
  function TopLevelOf(shopId: int): Review -> bool {
    (v: Review) => v.shopId == shopId && v.parentReviewId.None?
  }

  /**
   * GET shop/{shopId}: the DTOs of the shop's top-level reviews, in table
   * order, every one with its reply tree, whose direct replies are the rows
   * replying to it in table order; NotFound when the shop has none.
   */
  function GetReviewsByShopId(reviews: seq<Review>, shopId: int): (r: Reply<seq<ReviewDto>>)
    ensures r.Ok? || r == NotFound(NoRows)
    ensures r.NotFound? <==> forall j | 0 <= j < |reviews| :: !(reviews[j].shopId == shopId && reviews[j].parentReviewId.None?)
    ensures r.Ok? ==>
      var tops := Filter(reviews, TopLevelOf(shopId));
      && |r.value| == |tops|
      && forall i | 0 <= i < |tops| ::
           && tops[i] in reviews && tops[i].shopId == shopId && tops[i].parentReviewId.None?
           && Copies(tops[i], r.value[i]) && r.value[i].reviews.List?
           && var children := Filter(reviews, ReplyTo(tops[i].id));
              && |r.value[i].reviews.dtos| == |children|
              && forall k | 0 <= k < |children| ::
                   children[k].parentReviewId == Some(tops[i].id) && Copies(children[k], r.value[i].reviews.dtos[k])
  {
    var tops := Filter(reviews, TopLevelOf(shopId));
    FilterEmpty(reviews, TopLevelOf(shopId));
    if tops == [] then NotFound(NoRows)
    else Ok(seq(|tops|, i requires 0 <= i < |tops| => ThreadDto(reviews, tops[i])))
  }
}

/**
 * The rows of the marketplace schema (the classes under Models/) and the response shapes
 * built from them. A nullable column is an Option; timestamps are ticks;
 * floating-point columns are opaque values that are only copied.
 */
module Models {
  import opened Wrappers

  /** A `DateTime`, as a tick count. */
  type Time = int

  /** A `float` or `double` column: carried around, never computed with. */
  datatype Float = Float(bits: int)

  /** The users table; Models/User.cs is not part of this model, only ID and Username are used. */
  datatype User = User(id: int, username: Option<string>)

  datatype Shop = Shop(
    id: int,
    name: Option<string>,
    heading: Option<string>,
    description: Option<string>,
    reviews: int,
    trust: Option<int>,
    iconsIndex: Option<int>,
    services: Option<string>,
    multiplier: Option<Float>,
    ratings: Option<Float>,
    isAvailable: Option<bool>,
    paymentMethods: Option<int>,
    users: Option<string>,
    color01: Option<string>,
    color02: Option<string>,
    color03: Option<string>,
    image: Option<int>,
    contact: Option<string>)

  datatype Order = Order(
    id: int,
    userId: int,
    shopId: int,
    description: Option<string>,
    title: Option<string>,
    status: Option<int>,
    paymentReference: Option<string>,
    isPaid: Option<bool>,
    state: Option<bool>,
    field1: Option<string>,
    field2: Option<string>,
    field3: Option<string>,
    field4: Option<string>,
    field5: Option<string>,
    price: Option<Float>,
    createdAt: Time)

  datatype Service = Service(
    id: int,
    name: Option<string>,
    serviceType: Option<string>,
    description: Option<string>,
    item01: Option<string>,
    item02: Option<string>,
    item03: Option<string>,
    item04: Option<string>,
    item05: Option<string>,
    price: Option<Float>,
    inStock: Option<int>,
    isAvailable: bool)

  datatype Post = Post(
    id: int,
    heading: Option<string>,
    content: Option<string>,
    username: Option<string>,
    votes: Option<int>,
    comments: Option<int>,
    badges: seq<Option<string>>,
    createdAt: Time)

  /** A comment on a post, or a reply to another comment. */
  datatype Comment = Comment(
    id: int,
    parentCommentId: Option<int>,
    postId: int,
    username: Option<string>,
    content: Option<string>,
    votes: int,
    createdAt: Time)

  /** A review of a shop, or a reply to another review. */
  datatype Review = Review(
    id: int,
    parentReviewId: Option<int>,
    shopId: int,
    username: Option<string>,
    content: Option<string>,
    service: Option<string>,
    stars: Option<Float>,
    createdAt: Time)

  /** The chat between one user and one shop, with its two seen flags. */
  datatype Conversation = Conversation(
    id: int,
    shopId: int,
    userId: int,
    lastUpdatedAt: Time,
    isAdminSeen: bool,
    isSeen: bool,
    createdAt: Time)

  /** One chat message; `isUser` says which side wrote it. */
  datatype Message = Message(
    id: int,
    userId: int,
    shopId: int,
    content: string,
    isUser: bool,
    createdAt: Time,
    conversationId: Option<int>)

  /** Models/ConversationDto.cs; unset integer and boolean members hold their defaults. */
  datatype ConversationDto = ConversationDto(
    id: int,
    conversationId: int,
    name: Option<string>,
    shopId: int,
    userId: int,
    isSeen: bool,
    createdAt: Time,
    lastUpdatedAt: Time,
    isAdminSeen: bool)

  /** Models/OrderDto.cs. */
  datatype OrderDto = OrderDto(
    id: int,
    title: Option<string>,
    field1: Option<string>,
    field2: Option<string>,
    field3: Option<string>,
    field4: Option<string>,
    field5: Option<string>,
    price: Option<Float>,
    createdAt: Time,
    username: Option<string>)

  // Primary keys, as functions for the generic table operations.

  function UserKey(u: User): int { u.id }
  function ShopKey(s: Shop): int { s.id }
  function OrderKey(o: Order): int { o.id }
  function ServiceKey(s: Service): int { s.id }
  function PostKey(p: Post): int { p.id }
  function CommentKey(c: Comment): int { c.id }
  function ReviewKey(r: Review): int { r.id }
  function ConversationKey(c: Conversation): int { c.id }
  function MessageKey(m: Message): int { m.id }

  /** The (user, shop) pair a conversation is between. */
  function ConversationPair(c: Conversation): (int, int) { (c.userId, c.shopId) }

  // Sort keys of the `OrderBy` clauses.

  function MessageCreatedAt(m: Message): Option<int> { Some(m.createdAt) }
  function ConversationLastUpdatedAt(c: Conversation): Option<int> { Some(c.lastUpdatedAt) }
  function ShopTrust(s: Shop): Option<int> { s.trust }
  function ShopReviews(s: Shop): Option<int> { Some(s.reviews) }
}

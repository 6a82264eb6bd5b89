/**
 * The database the controllers share (Data/AppDBcontext.cs): one table per
 * entity, each a sequence of rows that the handlers append to, update and
 * remove from.
 */
module Data {
  import opened Wrappers
  import opened Sequences
  import opened Models

  /**
   * The foreign keys of a message row: its user and shop exist, and so does
   * its conversation when it names one. The database refuses to store a
   * message that breaks them.
   */
  predicate MessageReferencesExist(users: seq<User>, shops: seq<Shop>, conversations: seq<Conversation>,
                                   userId: int, shopId: int, conversationId: Option<int>)
  {
    && HasKey(users, UserKey, userId)
    && HasKey(shops, ShopKey, shopId)
    && (conversationId.Some? ==> HasKey(conversations, ConversationKey, conversationId.value))
  }

  class AppDbContext {
    var users: seq<User>
    var shops: seq<Shop>
    var orders: seq<Order>
    var services: seq<Service>
    var posts: seq<Post>
    var comments: seq<Comment>
    var reviews: seq<Review>
    var conversations: seq<Conversation>
    var messages: seq<Message>

    /** Primary keys are unique in every table, and there is at most one conversation per (user, shop) pair. */
    ghost predicate Valid()
      reads this
    {
      && UniqueKeys(users, UserKey)
      && UniqueKeys(shops, ShopKey)
      && UniqueKeys(orders, OrderKey)
      && UniqueKeys(services, ServiceKey)
      && UniqueKeys(posts, PostKey)
      && UniqueKeys(comments, CommentKey)
      && UniqueKeys(reviews, ReviewKey)
      && UniqueKeys(conversations, ConversationKey)
      && UniqueKeys(messages, MessageKey)
      && UniqueKeys(conversations, ConversationPair)
    }

    /** A database holding the given rows. */
    constructor (users: seq<User>, shops: seq<Shop>, orders: seq<Order>, services: seq<Service>,
                 posts: seq<Post>, comments: seq<Comment>, reviews: seq<Review>,
                 conversations: seq<Conversation>, messages: seq<Message>)
      requires UniqueKeys(users, UserKey) && UniqueKeys(shops, ShopKey)
      requires UniqueKeys(orders, OrderKey) && UniqueKeys(services, ServiceKey)
      requires UniqueKeys(posts, PostKey) && UniqueKeys(comments, CommentKey)
      requires UniqueKeys(reviews, ReviewKey) && UniqueKeys(conversations, ConversationKey)
      requires UniqueKeys(messages, MessageKey) && UniqueKeys(conversations, ConversationPair)
      ensures Valid()
      ensures this.users == users && this.shops == shops && this.orders == orders
      ensures this.services == services && this.posts == posts && this.comments == comments
      ensures this.reviews == reviews && this.conversations == conversations
      ensures this.messages == messages
    {
      this.users, this.shops, this.orders := users, shops, orders;
      this.services, this.posts, this.comments := services, posts, comments;
      this.reviews, this.conversations, this.messages := reviews, conversations, messages;
    }
  }
}

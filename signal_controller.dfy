/**
 * The presence-aware message endpoints (Controllers/SignalController.cs):
 * a send stores the message, pushes it live when the recipient is online,
 * and records that recipient-online answer in the conversation's IsSeen.
 */
module SignalController {
  import opened Wrappers
  import opened Sequences
  import opened Text
  import opened Models
  import opened Data
  import opened Hubs

  /** The test of `Where(m => m.ConversationID == conversationId)`. */
  function InConversation(conversationId: int): Message -> bool {
    (m: Message) => m.conversationId == Some(conversationId)
  }

  /** `Where(p).OrderBy(m => m.CreatedAt)`, or OrderByDescending when `d` says so. */
  function MessagesWhere(messages: seq<Message>, p: Message -> bool, d: Direction): (r: seq<Message>)
    ensures forall m :: multiset(r)[m] == if p(m) then multiset(messages)[m] else 0
    ensures d == Ascending ==> forall i, j | 0 <= i < j < |r| :: r[i].createdAt <= r[j].createdAt
    ensures d == Descending ==> forall i, j | 0 <= i < j < |r| :: r[i].createdAt >= r[j].createdAt
    ensures r == [] <==> !Exists(messages, p)
  {
    var r := Select(messages, p, MessageCreatedAt, d);
    CreatedAtSorted(r, d);
    r
  }

  /** Sorted on `Some(CreatedAt)` is sorted on CreatedAt. */
  lemma CreatedAtSorted(r: seq<Message>, d: Direction)
    requires SortedBy(r, MessageCreatedAt, d)
    ensures d == Ascending ==> forall i, j | 0 <= i < j < |r| :: r[i].createdAt <= r[j].createdAt
    ensures d == Descending ==> forall i, j | 0 <= i < j < |r| :: r[i].createdAt >= r[j].createdAt
  {
    forall i, j | 0 <= i < j < |r| ensures InOrder(Some(r[i].createdAt), Some(r[j].createdAt), d) {
      assert InOrder(MessageCreatedAt(r[i]), MessageCreatedAt(r[j]), d);
    }
  }

  /**
   * The messages of one conversation, oldest first; NotFound when it has
   * none. MessageController's endpoint of the same name returns the same
   * rows.
   */
  function GetMessagesByConversation(messages: seq<Message>, conversationId: int): (r: Reply<seq<Message>>)
    ensures r.Ok? || r == NotFound(NoRows)
    ensures r.NotFound? <==> forall i | 0 <= i < |messages| :: messages[i].conversationId != Some(conversationId)
    ensures r.Ok? ==> forall m :: multiset(r.value)[m] ==
                        if m.conversationId == Some(conversationId) then multiset(messages)[m] else 0
    ensures r.Ok? ==> forall i, j | 0 <= i < j < |r.value| :: r.value[i].createdAt <= r.value[j].createdAt
  {
    var found := MessagesWhere(messages, InConversation(conversationId), Ascending);
    if found == [] then NotFound(NoRows) else Ok(found)
  }

  /** The row a successful send stores: the body with its new ID, author flag and time. */
  function Stored(body: Message, id: int, isUser: bool, now: Time): (m: Message)
    ensures m.id == id && m.isUser == isUser && m.createdAt == now
    ensures m.userId == body.userId && m.shopId == body.shopId
    ensures m.content == body.content && m.conversationId == body.conversationId
  {
    body.(id := id, isUser := isUser, createdAt := now)
  }

  /** The conversation after a live-delivery send: IsSeen is the recipient-online answer. */
  function SeenBySend(c: Conversation, recipientOnline: bool, now: Time): (c': Conversation)
    ensures c'.isSeen == recipientOnline && c'.lastUpdatedAt == now
    ensures c'.isAdminSeen == c.isAdminSeen
    ensures c'.id == c.id && c'.userId == c.userId && c'.shopId == c.shopId && c'.createdAt == c.createdAt
  {
    c.(isSeen := recipientOnline, lastUpdatedAt := now)
  }

  /** Changing only flags and times of a conversation keeps the database valid. */
  lemma UpdateConversationValid(cs: seq<Conversation>, i: nat, c: Conversation)
    requires UniqueKeys(cs, ConversationKey) && UniqueKeys(cs, ConversationPair)
    requires i < |cs| && c.id == cs[i].id && c.userId == cs[i].userId && c.shopId == cs[i].shopId
    ensures UniqueKeys(cs[i := c], ConversationKey) && UniqueKeys(cs[i := c], ConversationPair)
  {
    UpdateUnique(cs, ConversationKey, i, c);
    UpdateUnique(cs, ConversationPair, i, c);
  }

  /** Which side of the conversation a send comes from. */
  datatype Sender = FromUser | FromShop

  /**
   * The refusal a send gets before anything is stored: BadRequest for an
   * absent body or empty content, then NotFound for the sender's row, the
   * recipient's row and the given conversation, in that order (a user send
   * checks the user first, a shop send the shop). None when every check
   * passes, which is exactly when the row's foreign keys hold.
   */
  function SendRejection(users: seq<User>, shops: seq<Shop>, conversations: seq<Conversation>,
                         message: Option<Message>, sender: Sender): (r: Option<Reply<Message>>)
    ensures r.None? <==>
      message.Some? && message.value.content != "" &&
      MessageReferencesExist(users, shops, conversations, message.value.userId, message.value.shopId, message.value.conversationId)
    ensures message.None? || message.value.content == "" ==> r == Some(BadRequest(InputRequired))
    ensures message.Some? && message.value.content != "" ==>
      var m := message.value;
      var userKnown, shopKnown := HasKey(users, UserKey, m.userId), HasKey(shops, ShopKey, m.shopId);
      && (sender == FromUser && !userKnown ==> r == Some(NotFound(Missing(Users))))
      && (sender == FromUser && userKnown && !shopKnown ==> r == Some(NotFound(Missing(Shops))))
      && (sender == FromShop && !shopKnown ==> r == Some(NotFound(Missing(Shops))))
      && (sender == FromShop && shopKnown && !userKnown ==> r == Some(NotFound(Missing(Users))))
      && (userKnown && shopKnown && r.Some? ==> r == Some(NotFound(Missing(Conversations))))
  {
    if message.None? || message.value.content == "" then Some(BadRequest(InputRequired))
    else
      var m := message.value;
      var userKnown, shopKnown := HasKey(users, UserKey, m.userId), HasKey(shops, ShopKey, m.shopId);
      if sender == FromUser && !userKnown then Some(NotFound(Missing(Users)))
      else if !shopKnown then Some(NotFound(Missing(Shops)))
      else if !userKnown then Some(NotFound(Missing(Users)))
      else if m.conversationId.Some? && !HasKey(conversations, ConversationKey, m.conversationId.value)
      then Some(NotFound(Missing(Conversations)))
      else None
  }

  /**
   * POST add-from-user. Refused as SendRejection says, with nothing
   * stored, pushed or updated. Otherwise it marks the message as the
   * user's, pushes it to the shop when the shop is online, stores it, and
   * sets the conversation's IsSeen to whether the shop was online and its
   * LastUpdatedAt to now.
   */
  method AddMessageFromUser(db: AppDbContext, hubContext: Transport, messageHub: MessageHub,
                            message: Option<Message>, now: Time) returns (r: Reply<Message>)
    requires db.Valid()
    modifies db`messages, db`conversations, hubContext`pushes
    ensures db.Valid()
    ensures var rejected := SendRejection(db.users, db.shops, old(db.conversations), message, FromUser);
      rejected.Some? ==>
        && r == rejected.value
        && db.messages == old(db.messages) && db.conversations == old(db.conversations)
        && hubContext.pushes == old(hubContext.pushes)
    ensures var rejected := SendRejection(db.users, db.shops, old(db.conversations), message, FromUser);
      rejected.None? ==>
        var m := Stored(message.value, FreshKey(old(db.messages), MessageKey), true, now);
        var shopOnline := messageHub.IsUserOnline(IdToString(m.shopId));
        && r == Created(m)
        && db.messages == old(db.messages) + [m]
        && hubContext.pushes == old(hubContext.pushes) +
             Delivery(messageHub.onlineUsers, IdToString(m.shopId), MessageFields(m.content, true, now))
        && (m.conversationId.None? ==> db.conversations == old(db.conversations))
        && (m.conversationId.Some? ==>
              var i := IndexOfKey(old(db.conversations), ConversationKey, m.conversationId.value).value;
              db.conversations == old(db.conversations)[i := SeenBySend(old(db.conversations)[i], shopOnline, now)])
  {
    var rejected := SendRejection(db.users, db.shops, db.conversations, message, FromUser);
    if rejected.Some? {
      return rejected.value;
    }
    var stored := Stored(message.value, FreshKey(db.messages, MessageKey), true, now);

    var isShopOnline := messageHub.IsUserOnline(IdToString(stored.shopId));
    if isShopOnline {
      hubContext.SendAsync(IdToString(stored.shopId), ReceiveMessage, MessageFields(stored.content, stored.isUser, stored.createdAt));
    }

    AppendUnique(db.messages, MessageKey, stored);
    db.messages := db.messages + [stored];

    if stored.conversationId.Some? {
      var found := IndexOfKey(db.conversations, ConversationKey, stored.conversationId.value);
      if found.Some? {
        var i := found.value;
        var updated := SeenBySend(db.conversations[i], isShopOnline, now);
        UpdateConversationValid(db.conversations, i, updated);
        db.conversations := db.conversations[i := updated];
      }
    }
    r := Created(stored);
  }

  /**
   * POST add-from-shop: the mirror image of AddMessageFromUser. The shop
   * is checked before the user, the message is marked as the shop's and
   * pushed to the user when the user is online, and IsSeen records whether
   * the user was online.
   */
  method AddMessageFromShop(db: AppDbContext, hubContext: Transport, messageHub: MessageHub,
                            message: Option<Message>, now: Time) returns (r: Reply<Message>)
    requires db.Valid()
    modifies db`messages, db`conversations, hubContext`pushes
    ensures db.Valid()
    ensures var rejected := SendRejection(db.users, db.shops, old(db.conversations), message, FromShop);
      rejected.Some? ==>
        && r == rejected.value
        && db.messages == old(db.messages) && db.conversations == old(db.conversations)
        && hubContext.pushes == old(hubContext.pushes)
    ensures var rejected := SendRejection(db.users, db.shops, old(db.conversations), message, FromShop);
      rejected.None? ==>
        var m := Stored(message.value, FreshKey(old(db.messages), MessageKey), false, now);
        var userOnline := messageHub.IsUserOnline(IdToString(m.userId));
        && r == Created(m)
        && db.messages == old(db.messages) + [m]
        && hubContext.pushes == old(hubContext.pushes) +
             Delivery(messageHub.onlineUsers, IdToString(m.userId), MessageFields(m.content, false, now))
        && (m.conversationId.None? ==> db.conversations == old(db.conversations))
        && (m.conversationId.Some? ==>
              var i := IndexOfKey(old(db.conversations), ConversationKey, m.conversationId.value).value;
              db.conversations == old(db.conversations)[i := SeenBySend(old(db.conversations)[i], userOnline, now)])
  {
    var rejected := SendRejection(db.users, db.shops, db.conversations, message, FromShop);
    if rejected.Some? {
      return rejected.value;
    }
    var stored := Stored(message.value, FreshKey(db.messages, MessageKey), false, now);

    var isUserOnline := messageHub.IsUserOnline(IdToString(stored.userId));
    if isUserOnline {
      hubContext.SendAsync(IdToString(stored.userId), ReceiveMessage, MessageFields(stored.content, stored.isUser, stored.createdAt));
    }

    AppendUnique(db.messages, MessageKey, stored);
    db.messages := db.messages + [stored];

    if stored.conversationId.Some? {
      var found := IndexOfKey(db.conversations, ConversationKey, stored.conversationId.value);
      if found.Some? {
        var i := found.value;
        var updated := SeenBySend(db.conversations[i], isUserOnline, now);
        UpdateConversationValid(db.conversations, i, updated);
        db.conversations := db.conversations[i := updated];
      }
    }
    r := Created(stored);
  }
}

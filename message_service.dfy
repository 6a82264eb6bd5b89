/**
 * The unvalidated send path (Services/MessageService.cs): a message is
 * stored as given, the conversation's IsSeen becomes the recipient-online
 * answer, and the bare text is pushed when the recipient is online.
 */
module MessageService {
  import opened Wrappers
  import opened Sequences
  import opened Text
  import opened Models
  import opened Data
  import opened Hubs
  import SignalController

  /** The one user id whose messages the service records as written by the user. */
  const SpecialUserId: int := 12

  /** The row the service stores: `IsUser` is decided by the sender id alone. */
  function NewMessage(id: int, userId: int, shopId: int, content: string, conversationId: Option<int>, now: Time): (m: Message)
    ensures m.isUser <==> userId == SpecialUserId
    ensures m.id == id && m.userId == userId && m.shopId == shopId
    ensures m.content == content && m.conversationId == conversationId && m.createdAt == now
  {
    Message(id, userId, shopId, content, userId == SpecialUserId, now, conversationId)
  }

  /**
   * `MessageShop`: stores the message, sets the conversation's IsSeen to
   * whether the shop is online, and pushes the bare text to the shop when it
   * is. There is no validation; only the database's foreign keys can refuse
   * the row, and then the call throws and nothing changes.
   */
  method MessageShop(db: AppDbContext, hubContext: Transport, messageHub: MessageHub,
                     userId: int, shopId: int, content: string, conversationId: Option<int>, now: Time)
    returns (r: Outcome)
    requires db.Valid()
    modifies db`messages, db`conversations, hubContext`pushes
    ensures db.Valid()
    ensures r == Threw <==>
      !MessageReferencesExist(old(db.users), old(db.shops), old(db.conversations), userId, shopId, conversationId)
    ensures r == Threw ==>
      db.messages == old(db.messages) && db.conversations == old(db.conversations) &&
      hubContext.pushes == old(hubContext.pushes)
    ensures r == Completed ==>
      var online := messageHub.IsUserOnline(IdToString(shopId));
      && db.messages == old(db.messages) +
           [NewMessage(FreshKey(old(db.messages), MessageKey), userId, shopId, content, conversationId, now)]
      && (conversationId.None? ==> db.conversations == old(db.conversations))
      && (conversationId.Some? ==>
            var i := IndexOfKey(old(db.conversations), ConversationKey, conversationId.value).value;
            db.conversations == old(db.conversations)[i := old(db.conversations)[i].(isSeen := online)])
      && hubContext.pushes == old(hubContext.pushes) +
           Delivery(messageHub.onlineUsers, IdToString(shopId), PlainText(content))
  {
    // SaveChangesAsync refuses a row whose foreign keys dangle.
    if !MessageReferencesExist(db.users, db.shops, db.conversations, userId, shopId, conversationId) {
      return Threw;
    }
    var message := NewMessage(FreshKey(db.messages, MessageKey), userId, shopId, content, conversationId, now);
    AppendUnique(db.messages, MessageKey, message);
    db.messages := db.messages + [message];

    // FindAsync with a null key finds nothing.
    if conversationId.Some? {
      var found := IndexOfKey(db.conversations, ConversationKey, conversationId.value);
      if found.Some? {
        var i := found.value;
        var seen := messageHub.IsUserOnline(IdToString(shopId));
        var updated := db.conversations[i].(isSeen := seen);
        SignalController.UpdateConversationValid(db.conversations, i, updated);
        db.conversations := db.conversations[i := updated];
      }
    }

    if messageHub.IsUserOnline(IdToString(shopId)) {
      hubContext.SendAsync(IdToString(shopId), ReceiveMessage, PlainText(content));
    }
    r := Completed;
  }

  /** `MessageUser`: the same as MessageShop with the user as the recipient. */
  method MessageUser(db: AppDbContext, hubContext: Transport, messageHub: MessageHub,
                     userId: int, shopId: int, content: string, conversationId: Option<int>, now: Time)
    returns (r: Outcome)
    requires db.Valid()
    modifies db`messages, db`conversations, hubContext`pushes
    ensures db.Valid()
    ensures r == Threw <==>
      !MessageReferencesExist(old(db.users), old(db.shops), old(db.conversations), userId, shopId, conversationId)
    ensures r == Threw ==>
      db.messages == old(db.messages) && db.conversations == old(db.conversations) &&
      hubContext.pushes == old(hubContext.pushes)
    ensures r == Completed ==>
      var online := messageHub.IsUserOnline(IdToString(userId));
      && db.messages == old(db.messages) +
           [NewMessage(FreshKey(old(db.messages), MessageKey), userId, shopId, content, conversationId, now)]
      && (conversationId.None? ==> db.conversations == old(db.conversations))
      && (conversationId.Some? ==>
            var i := IndexOfKey(old(db.conversations), ConversationKey, conversationId.value).value;
            db.conversations == old(db.conversations)[i := old(db.conversations)[i].(isSeen := online)])
      && hubContext.pushes == old(hubContext.pushes) +
           Delivery(messageHub.onlineUsers, IdToString(userId), PlainText(content))
  {
    // SaveChangesAsync refuses a row whose foreign keys dangle.
    if !MessageReferencesExist(db.users, db.shops, db.conversations, userId, shopId, conversationId) {
      return Threw;
    }
    var message := NewMessage(FreshKey(db.messages, MessageKey), userId, shopId, content, conversationId, now);
    AppendUnique(db.messages, MessageKey, message);
    db.messages := db.messages + [message];

    // FindAsync with a null key finds nothing.
    if conversationId.Some? {
      var found := IndexOfKey(db.conversations, ConversationKey, conversationId.value);
      if found.Some? {
        var i := found.value;
        var seen := messageHub.IsUserOnline(IdToString(userId));
        var updated := db.conversations[i].(isSeen := seen);
        SignalController.UpdateConversationValid(db.conversations, i, updated);
        db.conversations := db.conversations[i := updated];
      }
    }

    if messageHub.IsUserOnline(IdToString(userId)) {
      hubContext.SendAsync(IdToString(userId), ReceiveMessage, PlainText(content));
    }
    r := Completed;
  }
}

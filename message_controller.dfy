/**
 * The plain message endpoints (Controllers/MessageController.cs): sends
 * without live delivery, which clear the other side's seen flag, and the
 * message queries, edit and delete.
 */
module MessageController {
  import opened Wrappers
  import opened Sequences
  import opened Text
  import opened Models
  import opened Data
  import opened SignalController

  /** The conversation after a user's send: the admin side has not seen it yet. */
  function AfterUserSend(c: Conversation, now: Time): (c': Conversation)
    ensures !c'.isAdminSeen && c'.lastUpdatedAt == now
    ensures c'.isSeen == c.isSeen
    ensures c'.id == c.id && c'.userId == c.userId && c'.shopId == c.shopId && c'.createdAt == c.createdAt
  {
    c.(isAdminSeen := false, lastUpdatedAt := now)
  }

  /** The conversation after a shop's send: the user side has not seen it yet. */
  function AfterShopSend(c: Conversation, now: Time): (c': Conversation)
    ensures !c'.isSeen && c'.lastUpdatedAt == now
    ensures c'.isAdminSeen == c.isAdminSeen
    ensures c'.id == c.id && c'.userId == c.userId && c'.shopId == c.shopId && c'.createdAt == c.createdAt
  {
    c.(isSeen := false, lastUpdatedAt := now)
  }

  /**
   * POST add-from-user. Refused as the presence-aware send is (user, shop,
   * then the given conversation), with nothing changed. Otherwise the
   * message is stored as the user's and the conversation's IsAdminSeen is
   * cleared and LastUpdatedAt set, whoever is online.
   */
  method AddMessageFromUser(db: AppDbContext, message: Option<Message>, now: Time) returns (r: Reply<Message>)
    requires db.Valid()
    modifies db`messages, db`conversations
    ensures db.Valid()
    ensures var rejected := SendRejection(db.users, db.shops, old(db.conversations), message, FromUser);
      rejected.Some? ==>
        r == rejected.value && db.messages == old(db.messages) && db.conversations == old(db.conversations)
    ensures var rejected := SendRejection(db.users, db.shops, old(db.conversations), message, FromUser);
      rejected.None? ==>
        var m := Stored(message.value, FreshKey(old(db.messages), MessageKey), true, now);
        && r == Created(m)
        && db.messages == old(db.messages) + [m]
        && (m.conversationId.None? ==> db.conversations == old(db.conversations))
        && (m.conversationId.Some? ==>
              var i := IndexOfKey(old(db.conversations), ConversationKey, m.conversationId.value).value;
              db.conversations == old(db.conversations)[i := AfterUserSend(old(db.conversations)[i], now)])
  {
    var rejected := SendRejection(db.users, db.shops, db.conversations, message, FromUser);
    if rejected.Some? {
      return rejected.value;
    }
    var stored := Stored(message.value, FreshKey(db.messages, MessageKey), true, now);
    AppendUnique(db.messages, MessageKey, stored);
    db.messages := db.messages + [stored];

    if stored.conversationId.Some? {
      var found := IndexOfKey(db.conversations, ConversationKey, stored.conversationId.value);
      if found.Some? {
        var i := found.value;
        var updated := AfterUserSend(db.conversations[i], now);
        UpdateConversationValid(db.conversations, i, updated);
        db.conversations := db.conversations[i := updated];
      }
    }
    r := Created(stored);
  }

  /**
   * POST add-from-shop: checks the shop before the user; on success the
   * message is stored as the shop's and the conversation's IsSeen is
   * cleared and LastUpdatedAt set.
   */
  method AddMessageFromShop(db: AppDbContext, message: Option<Message>, now: Time) returns (r: Reply<Message>)
    requires db.Valid()
    modifies db`messages, db`conversations
    ensures db.Valid()
    ensures var rejected := SendRejection(db.users, db.shops, old(db.conversations), message, FromShop);
      rejected.Some? ==>
        r == rejected.value && db.messages == old(db.messages) && db.conversations == old(db.conversations)
    ensures var rejected := SendRejection(db.users, db.shops, old(db.conversations), message, FromShop);
      rejected.None? ==>
        var m := Stored(message.value, FreshKey(old(db.messages), MessageKey), false, now);
        && r == Created(m)
        && db.messages == old(db.messages) + [m]
        && (m.conversationId.None? ==> db.conversations == old(db.conversations))
        && (m.conversationId.Some? ==>
              var i := IndexOfKey(old(db.conversations), ConversationKey, m.conversationId.value).value;
              db.conversations == old(db.conversations)[i := AfterShopSend(old(db.conversations)[i], now)])
  {
    var rejected := SendRejection(db.users, db.shops, db.conversations, message, FromShop);
    if rejected.Some? {
      return rejected.value;
    }
    var stored := Stored(message.value, FreshKey(db.messages, MessageKey), false, now);
    AppendUnique(db.messages, MessageKey, stored);
    db.messages := db.messages + [stored];

    if stored.conversationId.Some? {
      var found := IndexOfKey(db.conversations, ConversationKey, stored.conversationId.value);
      if found.Some? {
        var i := found.value;
        var updated := AfterShopSend(db.conversations[i], now);
        UpdateConversationValid(db.conversations, i, updated);
        db.conversations := db.conversations[i := updated];
      }
    }
    r := Created(stored);
  }

  /** The test of `GetNewMessages`: in the conversation and strictly after `lastCheck`. */
  function NewInConversation(conversationId: int, lastCheck: Time): Message -> bool {
    (m: Message) => m.conversationId == Some(conversationId) && m.createdAt > lastCheck
  }

  /**
   * GET conversation/{id}/new: the conversation's messages created after
   * `lastCheck`, oldest first; NoContent when there are none.
   */
  function GetNewMessages(messages: seq<Message>, conversationId: int, lastCheck: Time): (r: Reply<seq<Message>>)
    ensures r.Ok? || r == NoContent
    ensures r == NoContent <==>
      forall i | 0 <= i < |messages| :: !(messages[i].conversationId == Some(conversationId) && messages[i].createdAt > lastCheck)
    ensures r.Ok? ==>
      forall m :: multiset(r.value)[m] ==
        if m.conversationId == Some(conversationId) && m.createdAt > lastCheck then multiset(messages)[m] else 0
    ensures r.Ok? ==> forall i, j | 0 <= i < j < |r.value| :: r.value[i].createdAt <= r.value[j].createdAt
  {
    var found := MessagesWhere(messages, NewInConversation(conversationId, lastCheck), Ascending);
    if found == [] then NoContent else Ok(found)
  }

  /** Every message `GetNewMessages` returns is one `GetMessagesByConversation` returns. */
  lemma NewMessagesAreConversationMessages(messages: seq<Message>, conversationId: int, lastCheck: Time, m: Message)
    requires GetNewMessages(messages, conversationId, lastCheck).Ok?
    requires m in GetNewMessages(messages, conversationId, lastCheck).value
    ensures GetMessagesByConversation(messages, conversationId).Ok?
    ensures m in GetMessagesByConversation(messages, conversationId).value
    ensures m.createdAt > lastCheck
  {
    var news := GetNewMessages(messages, conversationId, lastCheck).value;
    assert multiset(news)[m] > 0;
    assert m.conversationId == Some(conversationId) && m in messages;
    var all := GetMessagesByConversation(messages, conversationId);
    var i :| 0 <= i < |messages| && messages[i] == m;
    assert all.Ok?;
    assert multiset(all.value)[m] == multiset(messages)[m] > 0;
  }

  /**
   * PUT update/{id}: refuses null or empty content, then a missing message;
   * otherwise the message's content is replaced and nothing else changes.
   */
  method UpdateMessage(db: AppDbContext, id: int, newContent: Option<string>) returns (r: Reply<Message>)
    requires db.Valid()
    modifies db`messages
    ensures db.Valid()
    ensures IsNullOrEmpty(newContent) ==> r == BadRequest(InputRequired)
    ensures !IsNullOrEmpty(newContent) && !HasKey(old(db.messages), MessageKey, id) ==> r == NotFound(Missing(Messages))
    ensures !r.Ok? ==> db.messages == old(db.messages)
    ensures r.Ok? <==> !IsNullOrEmpty(newContent) && HasKey(old(db.messages), MessageKey, id)
    ensures r.Ok? ==>
      var i := IndexOfKey(old(db.messages), MessageKey, id).value;
      && r.value == old(db.messages)[i].(content := newContent.value)
      && db.messages == old(db.messages)[i := r.value]
  {
    if IsNullOrEmpty(newContent) {
      return BadRequest(InputRequired);
    }
    var found := IndexOfKey(db.messages, MessageKey, id);
    if found.None? {
      return NotFound(Missing(Messages));
    }
    var i := found.value;
    var updated := db.messages[i].(content := newContent.value);
    UpdateUnique(db.messages, MessageKey, i, updated);
    db.messages := db.messages[i := updated];
    r := Ok(updated);
  }

  /** DELETE delete/{id}: removes exactly the message with that id, or NotFound. */
  method DeleteMessage(db: AppDbContext, id: int) returns (r: Reply<()>)
    requires db.Valid()
    modifies db`messages
    ensures db.Valid()
    ensures r == Ok(()) <==> HasKey(old(db.messages), MessageKey, id)
    ensures r != Ok(()) ==> r == NotFound(Missing(Messages)) && db.messages == old(db.messages)
    ensures r == Ok(()) ==> db.messages == Filter(old(db.messages), KeyIsNot(MessageKey, id))
  {
    var found := IndexOfKey(db.messages, MessageKey, id);
    if found.None? {
      return NotFound(Missing(Messages));
    }
    var remove := KeyIsNot(MessageKey, id);
    FilterUnique(db.messages, MessageKey, remove);
    db.messages := Filter(db.messages, remove);
    r := Ok(());
  }

  /** The test of `GetMessagesByUserAndShop`. */
  function BetweenUserAndShop(userId: int, shopId: int): Message -> bool {
    (m: Message) => m.userId == userId && m.shopId == shopId
  }

  /**
   * GET user/{userId}/shop/{shopId}: every message between the two, newest
   * first; NotFound when there are none.
   */
  function GetMessagesByUserAndShop(messages: seq<Message>, userId: int, shopId: int): (r: Reply<seq<Message>>)
    ensures r.Ok? || r == NotFound(NoRows)
    ensures r.NotFound? <==> forall i | 0 <= i < |messages| :: !(messages[i].userId == userId && messages[i].shopId == shopId)
    ensures r.Ok? ==>
      forall m :: multiset(r.value)[m] ==
        if m.userId == userId && m.shopId == shopId then multiset(messages)[m] else 0
    ensures r.Ok? ==> forall i, j | 0 <= i < j < |r.value| :: r.value[i].createdAt >= r.value[j].createdAt
  {
    var found := MessagesWhere(messages, BetweenUserAndShop(userId, shopId), Descending);
    if found == [] then NotFound(NoRows) else Ok(found)
  }
}

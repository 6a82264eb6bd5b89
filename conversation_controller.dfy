/**
 * The conversation endpoints (Controllers/ConversationController.cs):
 * opening a conversation between a user and a shop, the list queries
 * ordered by last activity, the two seen-flag setters and the delete that
 * takes the conversation's messages with it.
 */
module ConversationController {
  import opened Wrappers
  import opened Sequences
  import opened Models
  import opened Data
  import SignalController

  // ---------------------------------------------------------------- create

  /**
   * POST add. Refuses an absent body (BadRequest), then an unknown user or
   * shop (NotFound), then a pair that already has a conversation
   * (Conflict); otherwise stores the body with a new ID and CreatedAt set.
   */
  method AddConversation(db: AppDbContext, conversation: Option<Conversation>, now: Time) returns (r: Reply<Conversation>)
    requires db.Valid()
    modifies db`conversations
    ensures db.Valid()
    ensures conversation.None? ==> r == BadRequest(InputRequired)
    ensures conversation.Some? ==>
      var c := conversation.value;
      && (!HasKey(old(db.users), UserKey, c.userId) ==> r == NotFound(Missing(Users)))
      && (HasKey(old(db.users), UserKey, c.userId) && !HasKey(old(db.shops), ShopKey, c.shopId) ==>
            r == NotFound(Missing(Shops)))
      && (HasKey(old(db.users), UserKey, c.userId) && HasKey(old(db.shops), ShopKey, c.shopId) ==>
            r == if HasKey(old(db.conversations), ConversationPair, (c.userId, c.shopId)) then Conflict
                 else Created(c.(id := FreshKey(old(db.conversations), ConversationKey), createdAt := now)))
    ensures !r.Created? ==> db.conversations == old(db.conversations)
    ensures r.Created? ==>
      && db.conversations == old(db.conversations) + [r.value]
      && HasKey(db.conversations, ConversationPair, (r.value.userId, r.value.shopId))
  {
    if conversation.None? {
      return BadRequest(InputRequired);
    }
    var body := conversation.value;
    if !HasKey(db.users, UserKey, body.userId) {
      return NotFound(Missing(Users));
    }
    if !HasKey(db.shops, ShopKey, body.shopId) {
      return NotFound(Missing(Shops));
    }
    if HasKey(db.conversations, ConversationPair, (body.userId, body.shopId)) {
      return Conflict;
    }
    var stored := body.(id := FreshKey(db.conversations, ConversationKey), createdAt := now);
    AppendUnique(db.conversations, ConversationKey, stored);
    AppendUnique(db.conversations, ConversationPair, stored);
    db.conversations := db.conversations + [stored];
    assert db.conversations[|db.conversations| - 1] == stored;
    r := Created(stored);
  }

  // --------------------------------------------------------------- queries

  function OfUser(userId: int): Conversation -> bool {
    (c: Conversation) => c.userId == userId
  }

  function OfShop(shopId: int): Conversation -> bool {
    (c: Conversation) => c.shopId == shopId
  }

  /** The test of the unseen-by-admin list. */
  function IsAdminUnseen(c: Conversation): bool {
    !c.isAdminSeen
  }

  /** `Where(p).OrderByDescending(c => c.LastUpdatedAt)`. */
  function MostRecentFirst(cs: seq<Conversation>, p: Conversation -> bool): (r: seq<Conversation>)
    ensures forall c :: multiset(r)[c] == if p(c) then multiset(cs)[c] else 0
    ensures forall i, j | 0 <= i < j < |r| :: r[i].lastUpdatedAt >= r[j].lastUpdatedAt
    ensures r == [] <==> !Exists(cs, p)
  {
    Select(cs, p, ConversationLastUpdatedAt, Descending)
  }

  /** `c.Shop?.Name`: the name of the conversation's shop, null when there is none. */
  function ShopName(shops: seq<Shop>, shopId: int): Option<string> {
    match FindByKey(shops, ShopKey, shopId)
    case None => None
    case Some(s) => s.name
  }

  /**
   * One row of the per-user list: the conversation's ID goes in
   * ConversationId, ID stays 0, the name is the shop's, IsAdminSeen stays
   * false.
   */
  function UserListEntry(shops: seq<Shop>, c: Conversation): (d: ConversationDto)
    ensures d.id == 0 && d.conversationId == c.id && !d.isAdminSeen
    ensures HasKey(shops, ShopKey, c.shopId) ==> d.name == FindByKey(shops, ShopKey, c.shopId).value.name
    ensures d.shopId == c.shopId && d.userId == c.userId && d.isSeen == c.isSeen
    ensures d.createdAt == c.createdAt && d.lastUpdatedAt == c.lastUpdatedAt
  {
    ConversationDto(0, c.id, ShopName(shops, c.shopId), c.shopId, c.userId, c.isSeen, c.createdAt, c.lastUpdatedAt, false)
  }

  /** One row of the per-shop list: the conversation's ID goes in ID, ConversationId stays 0, Name null. */
  function ShopListEntry(c: Conversation): (d: ConversationDto)
    ensures d.id == c.id && d.conversationId == 0 && d.name.None? && !d.isAdminSeen
    ensures d.shopId == c.shopId && d.userId == c.userId && d.isSeen == c.isSeen
    ensures d.createdAt == c.createdAt && d.lastUpdatedAt == c.lastUpdatedAt
  {
    ConversationDto(c.id, 0, None, c.shopId, c.userId, c.isSeen, c.createdAt, c.lastUpdatedAt, false)
  }

  /**
   * GET user/{userId}: NotFound for an unknown user; otherwise the user's
   * conversations, most recently active first, as list rows. The
   * ServerError branch covers a conversation whose shop row is missing, a
   * state the foreign key to Shops rules out.
   */
  function GetConversationsByUser(users: seq<User>, shops: seq<Shop>, conversations: seq<Conversation>, userId: int)
    : (r: Reply<seq<ConversationDto>>)
    ensures r == NotFound(Missing(Users)) <==> !HasKey(users, UserKey, userId)
    ensures r == ServerError <==>
      HasKey(users, UserKey, userId) &&
      exists i | 0 <= i < |conversations| :: conversations[i].userId == userId && !HasKey(shops, ShopKey, conversations[i].shopId)
    ensures r.Ok? || r == NotFound(Missing(Users)) || r == ServerError
    ensures r.Ok? ==>
      var cs := MostRecentFirst(conversations, OfUser(userId));
      |r.value| == |cs| &&
      forall i | 0 <= i < |cs| ::
        r.value[i] == UserListEntry(shops, cs[i]) && cs[i].userId == userId && HasKey(shops, ShopKey, cs[i].shopId)
  {
    if !HasKey(users, UserKey, userId) then NotFound(Missing(Users))
    else if exists i | 0 <= i < |conversations| ::
              conversations[i].userId == userId && !HasKey(shops, ShopKey, conversations[i].shopId)
    then ServerError
    else
      var cs := MostRecentFirst(conversations, OfUser(userId));
      ListedShopsExist(shops, conversations, userId);
      Ok(Map(cs, (c: Conversation) => UserListEntry(shops, c)))
  }

  /** When every conversation of the user has its shop, so does every listed one. */
  lemma ListedShopsExist(shops: seq<Shop>, conversations: seq<Conversation>, userId: int)
    requires forall i | 0 <= i < |conversations| :: conversations[i].userId == userId ==> HasKey(shops, ShopKey, conversations[i].shopId)
    ensures var cs := MostRecentFirst(conversations, OfUser(userId));
      forall i | 0 <= i < |cs| :: HasKey(shops, ShopKey, cs[i].shopId) && cs[i].userId == userId
  {
    var cs := MostRecentFirst(conversations, OfUser(userId));
    forall i | 0 <= i < |cs| ensures HasKey(shops, ShopKey, cs[i].shopId) && cs[i].userId == userId {
      var c := cs[i];
      assert multiset(cs)[c] > 0;
      assert c in conversations;
    }
  }

  /** GET all: every conversation, most recently active first. */
  function GetAllConversations(conversations: seq<Conversation>): (r: Reply<seq<Conversation>>)
    ensures r.Ok?
    ensures multiset(r.value) == multiset(conversations)
    ensures forall i, j | 0 <= i < j < |r.value| :: r.value[i].lastUpdatedAt >= r.value[j].lastUpdatedAt
  {
    Ok(SortBy(conversations, ConversationLastUpdatedAt, Descending))
  }

  /**
   * GET shop/{shopId}: NotFound for an unknown shop; otherwise the shop's
   * conversations, most recently active first, as list rows.
   */
  function GetConversationsByShop(shops: seq<Shop>, conversations: seq<Conversation>, shopId: int)
    : (r: Reply<seq<ConversationDto>>)
    ensures r.Ok? || r == NotFound(Missing(Shops))
    ensures r.NotFound? <==> !HasKey(shops, ShopKey, shopId)
    ensures r.Ok? ==>
      var cs := MostRecentFirst(conversations, OfShop(shopId));
      |r.value| == |cs| && forall i | 0 <= i < |cs| :: r.value[i] == ShopListEntry(cs[i]) && cs[i].shopId == shopId
  {
    if !HasKey(shops, ShopKey, shopId) then NotFound(Missing(Shops))
    else
      var cs := MostRecentFirst(conversations, OfShop(shopId));
      AllSatisfy(conversations, OfShop(shopId));
      Ok(Map(cs, ShopListEntry))
  }

  /** Every conversation `MostRecentFirst` lists passes its test. */
  lemma AllSatisfy(conversations: seq<Conversation>, p: Conversation -> bool)
    ensures var cs := MostRecentFirst(conversations, p); forall i | 0 <= i < |cs| :: p(cs[i])
  {
    var cs := MostRecentFirst(conversations, p);
    forall i | 0 <= i < |cs| ensures p(cs[i]) {
      assert multiset(cs)[cs[i]] > 0;
    }
  }

  /**
   * GET {id}/last-message: NotFound for an unknown conversation or one
   * without messages; otherwise a message of the conversation no other
   * message of it is newer than.
   */
  function GetLastMessageInConversation(conversations: seq<Conversation>, messages: seq<Message>, conversationId: int)
    : (r: Reply<Message>)
    ensures r.Ok? || r == NotFound(Missing(Conversations)) || r == NotFound(NoRows)
    ensures r == NotFound(Missing(Conversations)) <==> !HasKey(conversations, ConversationKey, conversationId)
    ensures r == NotFound(NoRows) <==>
      HasKey(conversations, ConversationKey, conversationId) &&
      forall i | 0 <= i < |messages| :: messages[i].conversationId != Some(conversationId)
    ensures r.Ok? ==>
      && r.value in messages && r.value.conversationId == Some(conversationId)
      && forall i | 0 <= i < |messages| && messages[i].conversationId == Some(conversationId) ::
           messages[i].createdAt <= r.value.createdAt
  {
    if !HasKey(conversations, ConversationKey, conversationId) then NotFound(Missing(Conversations))
    else
      var newest := SignalController.MessagesWhere(messages, SignalController.InConversation(conversationId), Descending);
      if newest == [] then NotFound(NoRows)
      else
        NewestIsLatest(messages, conversationId);
        Ok(newest[0])
  }

  /** The head of the newest-first list is in the conversation and no message of it is newer. */
  lemma NewestIsLatest(messages: seq<Message>, conversationId: int)
    requires SignalController.MessagesWhere(messages, SignalController.InConversation(conversationId), Descending) != []
    ensures var newest := SignalController.MessagesWhere(messages, SignalController.InConversation(conversationId), Descending);
      && newest[0] in messages && newest[0].conversationId == Some(conversationId)
      && forall i | 0 <= i < |messages| && messages[i].conversationId == Some(conversationId) ::
           messages[i].createdAt <= newest[0].createdAt
  {
    var p := SignalController.InConversation(conversationId);
    var newest := SignalController.MessagesWhere(messages, p, Descending);
    assert multiset(newest)[newest[0]] > 0;
    forall i | 0 <= i < |messages| && messages[i].conversationId == Some(conversationId)
      ensures messages[i].createdAt <= newest[0].createdAt
    {
      var m := messages[i];
      assert multiset(newest)[m] == multiset(messages)[m] > 0;
      var j :| 0 <= j < |newest| && newest[j] == m;
      if j > 0 {
        assert InOrder(MessageCreatedAt(newest[0]), MessageCreatedAt(newest[j]), Descending);
      }
    }
  }

  /**
   * GET {id}/messages: NotFound for an unknown conversation; otherwise its
   * messages newest first, which may be none.
   */
  function GetMessagesForConversation(conversations: seq<Conversation>, messages: seq<Message>, conversationId: int)
    : (r: Reply<seq<Message>>)
    ensures r.Ok? || r == NotFound(Missing(Conversations))
    ensures r.NotFound? <==> !HasKey(conversations, ConversationKey, conversationId)
    ensures r.Ok? ==>
      forall m :: multiset(r.value)[m] ==
        if m.conversationId == Some(conversationId) then multiset(messages)[m] else 0
    ensures r.Ok? ==> forall i, j | 0 <= i < j < |r.value| :: r.value[i].createdAt >= r.value[j].createdAt
  {
    if !HasKey(conversations, ConversationKey, conversationId) then NotFound(Missing(Conversations))
    else Ok(SignalController.MessagesWhere(messages, SignalController.InConversation(conversationId), Descending))
  }

  /** GET unseen-admin: the conversations the admin side has not seen, most recently active first. */
  function GetUnseenConversationsForAdmin(conversations: seq<Conversation>): (r: Reply<seq<Conversation>>)
    ensures r.Ok?
    ensures forall c :: multiset(r.value)[c] == if !c.isAdminSeen then multiset(conversations)[c] else 0
    ensures forall i, j | 0 <= i < j < |r.value| :: r.value[i].lastUpdatedAt >= r.value[j].lastUpdatedAt
  {
    Ok(MostRecentFirst(conversations, IsAdminUnseen))
  }

  // ---------------------------------------------------------- seen flags

  /** The conversations after the user side's flag of conversation `id` is set. */
  function WithIsSeen(cs: seq<Conversation>, id: int): (r: seq<Conversation>)
    ensures |r| == |cs|
    ensures forall i | 0 <= i < |cs| :: r[i].isSeen == (cs[i].isSeen || cs[i].id == id)
    ensures forall i | 0 <= i < |cs| :: r[i].(isSeen := cs[i].isSeen) == cs[i]
  {
    Map(cs, (c: Conversation) => if c.id == id then c.(isSeen := true) else c)
  }

  /** The conversations after the admin side's flag of conversation `id` is set. */
  function WithIsAdminSeen(cs: seq<Conversation>, id: int): (r: seq<Conversation>)
    ensures |r| == |cs|
    ensures forall i | 0 <= i < |cs| :: r[i].isAdminSeen == (cs[i].isAdminSeen || cs[i].id == id)
    ensures forall i | 0 <= i < |cs| :: r[i].(isAdminSeen := cs[i].isAdminSeen) == cs[i]
  {
    Map(cs, (c: Conversation) => if c.id == id then c.(isAdminSeen := true) else c)
  }

  /** Setting the user side's flag twice is the same as setting it once. */
  lemma WithIsSeenIdempotent(cs: seq<Conversation>, id: int)
    ensures WithIsSeen(WithIsSeen(cs, id), id) == WithIsSeen(cs, id)
  {
    var once := WithIsSeen(cs, id);
    var twice := WithIsSeen(once, id);
    forall i | 0 <= i < |cs| ensures twice[i] == once[i] {
      assert twice[i] == twice[i].(isSeen := once[i].isSeen);
    }
  }

  /** Setting the admin side's flag twice is the same as setting it once. */
  lemma WithIsAdminSeenIdempotent(cs: seq<Conversation>, id: int)
    ensures WithIsAdminSeen(WithIsAdminSeen(cs, id), id) == WithIsAdminSeen(cs, id)
  {
    var once := WithIsAdminSeen(cs, id);
    var twice := WithIsAdminSeen(once, id);
    forall i | 0 <= i < |cs| ensures twice[i] == once[i] {
      assert twice[i] == twice[i].(isAdminSeen := once[i].isAdminSeen);
    }
  }

  /** Changing the row at the one position holding key `id` is the same as changing every row with that key. */
  lemma OnlyRowWithKey(cs: seq<Conversation>, id: int, i: nat)
    requires UniqueKeys(cs, ConversationKey)
    requires i < |cs| && cs[i].id == id
    ensures forall j | 0 <= j < |cs| && j != i :: cs[j].id != id
  {
  }

  /**
   * PUT {id}/set-is-seen. Despite the name it sets IsSeen to true; an
   * unknown conversation gives NotFound and changes nothing.
   */
  method SetIsSeenToFalse(db: AppDbContext, conversationId: int) returns (r: Reply<()>)
    requires db.Valid()
    modifies db`conversations
    ensures db.Valid()
    ensures r == Ok(()) <==> HasKey(old(db.conversations), ConversationKey, conversationId)
    ensures r != Ok(()) ==> r == NotFound(Missing(Conversations))
    ensures db.conversations == WithIsSeen(old(db.conversations), conversationId)
  {
    var target := WithIsSeen(db.conversations, conversationId);
    var found := IndexOfKey(db.conversations, ConversationKey, conversationId);
    if found.None? {
      assert db.conversations == target;
      return NotFound(Missing(Conversations));
    }
    var i := found.value;
    OnlyRowWithKey(db.conversations, conversationId, i);
    var updated := db.conversations[i].(isSeen := true);
    SignalController.UpdateConversationValid(db.conversations, i, updated);
    db.conversations := db.conversations[i := updated];
    assert db.conversations == target;
    r := Ok(());
  }

  /**
   * PUT {id}/set-is-adminseen. Despite the name it sets IsAdminSeen to
   * true; an unknown conversation gives NotFound and changes nothing.
   */
  method SetIsAdminSeenFalse(db: AppDbContext, conversationId: int) returns (r: Reply<()>)
    requires db.Valid()
    modifies db`conversations
    ensures db.Valid()
    ensures r == Ok(()) <==> HasKey(old(db.conversations), ConversationKey, conversationId)
    ensures r != Ok(()) ==> r == NotFound(Missing(Conversations))
    ensures db.conversations == WithIsAdminSeen(old(db.conversations), conversationId)
  {
    var target := WithIsAdminSeen(db.conversations, conversationId);
    var found := IndexOfKey(db.conversations, ConversationKey, conversationId);
    if found.None? {
      assert db.conversations == target;
      return NotFound(Missing(Conversations));
    }
    var i := found.value;
    OnlyRowWithKey(db.conversations, conversationId, i);
    var updated := db.conversations[i].(isAdminSeen := true);
    SignalController.UpdateConversationValid(db.conversations, i, updated);
    db.conversations := db.conversations[i := updated];
    assert db.conversations == target;
    r := Ok(());
  }

  // ---------------------------------------------------------------- delete

  /** The test `RemoveRange` keeps the complement of: not in conversation `id`. */
  function NotInConversation(conversationId: int): Message -> bool {
    (m: Message) => m.conversationId != Some(conversationId)
  }

  /**
   * DELETE delete/{id}: NotFound for an unknown conversation; otherwise
   * the conversation and every message that names it are removed, and
   * every other row stays, in order.
   */
  method DeleteConversation(db: AppDbContext, id: int) returns (r: Reply<()>)
    requires db.Valid()
    modifies db`messages, db`conversations
    ensures db.Valid()
    ensures r == Ok(()) <==> HasKey(old(db.conversations), ConversationKey, id)
    ensures r != Ok(()) ==>
      r == NotFound(Missing(Conversations)) &&
      db.messages == old(db.messages) && db.conversations == old(db.conversations)
    ensures r == Ok(()) ==>
      && db.messages == Filter(old(db.messages), NotInConversation(id))
      && db.conversations == Filter(old(db.conversations), KeyIsNot(ConversationKey, id))
  {
    var found := IndexOfKey(db.conversations, ConversationKey, id);
    if found.None? {
      return NotFound(Missing(Conversations));
    }
    var related := NotInConversation(id);
    FilterUnique(db.messages, MessageKey, related);
    var remove := KeyIsNot(ConversationKey, id);
    FilterUnique(db.conversations, ConversationKey, remove);
    FilterUnique(db.conversations, ConversationPair, remove);
    db.messages, db.conversations := Filter(db.messages, related), Filter(db.conversations, remove);
    r := Ok(());
  }
}

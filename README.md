# OMbackend marketplace core in Dafny

This project models the core of the OMbackend marketplace server as verified Dafny. OMbackend is an ASP.NET Core application. In it, users talk to shops in conversations, the messages reach an online recipient in real time through a SignalR hub, and shops, orders, reviews, forum comments and services are served over REST controllers.

The model has two parts:

- **The presence registry and its push channel** (`Hubs`).
  - The hub's static `OnlineUsers` dictionary is a `map<string, string>` field of the `MessageHub` class. The connect and disconnect handlers update it in place.
  - The hub's client proxies are a `Transport` object with an append-only `pushes` outbox.
  - A pure `Apply`/`Replay` view of the same registry carries the lemmas about sequences of connects and disconnects.
- **The database and the handlers.**
  - `Data.AppDbContext` holds one `seq` of rows per table.
  - `Valid()` states that every primary key is unique and that each (user, shop) pair has at most one conversation.
  - Every handler that writes is a method with field-granular `modifies` clauses. Its `ensures` states the whole new state of the tables it touches and the reply it gives, including each error reply in the order the controller checks it.
  - Every read-only endpoint is a pure function. Its contract states which rows the reply contains (as a multiset relation to the table), in which order where the query orders them, and when the reply is an error.

For each send endpoint the model states the following:

- the rejection order: body, then sender, then recipient, then conversation;
- whether a push happens, and to whom: exactly when `IsUserOnline` holds for the recipient's `ToString()` key;
- the stored row: a fresh identity key, the author flag and the timestamp;
- the conversation flags it changes.

The unvalidated `MessageService` send path is modelled with its only refusal: the database's foreign keys.

Throughout the model:

- Times are integers, and every "now" (`DateTime.Now`, `DateTime.UtcNow`) is a parameter.
- A new row's identity value is `FreshKey`: one more than the largest key in the table, so it differs from every existing key.
- Replies are the `Reply` datatype: `Ok`, `Created`, `NoContent`, `BadRequest`, `NotFound`, `Conflict` and `ServerError`. Each carries a `Detail` naming what was missing or wrong, instead of the message text.

## Modules

| file | module | models |
|---|---|---|
| wrappers.dfy | Wrappers | Option, the HTTP replies |
| sequences.dfy | Sequences | Where (Filter), OrderBy/OrderByDescending (SortBy, stable), Select (Map), keyed lookup, identity keys, key uniqueness |
| text.dfy | Text | `string.IsNullOrEmpty`, `string.IsNullOrWhiteSpace`, `int.ToString()` |
| models.dfy | Models | the entity rows and DTOs of Models/ |
| app_db_context.dfy | Data | the database context and its key invariants |
| message_hub.dfy | Hubs | Hubs/MessageHub.cs and the hub's client proxies |
| signal_controller.dfy | SignalController | Controllers/SignalController.cs |
| message_service.dfy | MessageService | Services/MessageService.cs |
| message_controller.dfy | MessageController | Controllers/MessageController.cs |
| conversation_controller.dfy | ConversationController | Controllers/ConversationController.cs |
| service_controller.dfy | ServiceController | Controllers/ServiceController.cs |
| review_controller.dfy | ReviewController | Controllers/ReviewController.cs |
| comment_controller.dfy | CommentController | Controllers/CommentController.cs |
| order_controller.dfy | OrderController | Controllers/OrderController.cs |
| shop_controller.dfy | ShopController | Controllers/ShopController.cs |

## Model

| member | source | states |
|---|---|---|
| Hubs.MessageHub.OnConnectedAsync | Hubs/MessageHub.cs:18-26 | A missing or empty identifier claim throws and leaves the registry unchanged. Otherwise the registry maps the identifier to the connection id and replaces any earlier entry. |
| Hubs.MessageHub.OnDisconnectedAsync | Hubs/MessageHub.cs:42-50 | With a non-empty claim, the identifier is no longer in the registry. Without one, nothing changes. The call always completes. |
| Hubs.MessageHub.IsUserOnline | Hubs/MessageHub.cs:59-62 | True exactly when the registry holds a connection for the identifier. |
| Hubs.MessageHub.BroadcastMessage | Hubs/MessageHub.cs:64-78 | When the shop is online, exactly one ReceiveMessage push of the text is sent to it. When it is offline, no push is sent and nothing is stored. |
| Hubs.Transport.SendAsync | Hubs/MessageHub.cs:71 | Appends exactly one push (user, client method, payload) to the outbox. |
| Hubs.Delivery | Hubs/MessageHub.cs:68-73 | At most one push. There is one exactly when the recipient is in the registry, and it is a ReceiveMessage push to that recipient carrying the payload. |
| Hubs.Apply | Hubs/MessageHub.cs:18-26 | After a connect with a non-empty claim, the identifier maps to the connection id. After a disconnect with one, the identifier is absent. An event without a claim changes nothing. Every other identifier keeps its entry. |
| Hubs.LastWriterWins | Hubs/MessageHub.cs:26 | After any sequence of events, the last event naming an identifier decides its entry: the connection id of the last connect, or absent after the last disconnect. |
| Hubs.Untouched | Hubs/MessageHub.cs:11 | An identifier that no event names keeps its entry through any sequence of events. |
| Hubs.NeverConnectedGetsNothing | Hubs/MessageHub.cs:59-62 | A participant that never connected receives no push. |
| Hubs.NoStaleDelivery | Hubs/MessageHub.cs:46 | Right after a participant disconnects, a delivery to it pushes nothing. |
| Text.IdToStringInjective | Controllers/SignalController.cs:46 | Two integer ids give the same `ToString()` presence key exactly when they are equal, so a user and a shop collide in the registry only when their ids are equal. |
| Text.EmptyIsWhiteSpace | Controllers/OrderController.cs:115-118 | Every null or empty string is also null-or-whitespace. UpdatePaymentReference uses it to promise that a null or empty reference is refused with nothing changed. |
| Sequences.FreshKey | Migrations/20241225180327_addDB.cs:237 | The identity value of a new row is at least 1 (the column's seed) and greater than every key in the table. |
| Sequences.RemoveAtIsFilter | Controllers/MessageController.cs:159-163 | With unique keys, removing the one row found by its key is the same as keeping every row whose key differs, in order. The deletes are stated in that filtered form. |
| SignalController.MessagesWhere | Controllers/SignalController.cs:129-132 | The result holds exactly the rows passing the test, each as often as in the table. It is ordered by CreatedAt, ascending or descending as asked. It is empty exactly when no row passes. |
| SignalController.GetMessagesByConversation | Controllers/SignalController.cs:127-137 | NotFound exactly when no message names the conversation. Otherwise the result holds exactly the conversation's messages, oldest first. |
| SignalController.Stored | Controllers/SignalController.cs:42-43 | The stored row is the body with the new id, the author flag and the creation time. Every other field is the body's. |
| SignalController.SeenBySend | Controllers/SignalController.cs:62-71 | After a send, the conversation's IsSeen is the recipient-online answer and LastUpdatedAt is now. Its keys and IsAdminSeen are unchanged. |
| SignalController.UpdateConversationValid | Controllers/SignalController.cs:62-71 | Changing only a conversation's flags and times keeps its key and its (user, shop) pair unique. |
| SignalController.SendRejection | Controllers/SignalController.cs:31-40 | An absent body or empty content gives BadRequest. Then: a user send checks the user before the shop, a shop send checks the shop before the user, and a missing row gives NotFound. A missing given conversation gives NotFound. A send is accepted exactly when its foreign keys hold. |
| SignalController.AddMessageFromUser | Controllers/SignalController.cs:28-75 | A refused send stores, pushes and updates nothing. An accepted one is Created with the stored row, marked as the user's. That row is appended. One push goes to the shop exactly when the shop is online. The conversation, when the message names one, gets IsSeen set to the shop-online answer. No other row changes. |
| SignalController.AddMessageFromShop | Controllers/SignalController.cs:77-124 | The mirror of the user send. The shop is checked first, and the row is marked as the shop's. The push goes to the user exactly when the user is online, and IsSeen records that answer. |
| MessageService.NewMessage | Services/MessageService.cs:27-35 | The service's row is marked as the user's exactly when the sender id is 12. Every other field is the argument. |
| MessageService.MessageShop | Services/MessageService.cs:24-63 | The call throws exactly when a foreign key dangles, and then nothing changes. Otherwise the row is appended and the conversation's IsSeen becomes the shop-online answer. A bare-text push goes to the shop exactly when it is online. |
| MessageService.MessageUser | Services/MessageService.cs:68-107 | The same as MessageShop, with the user as the recipient. |
| MessageController.AfterUserSend | Controllers/MessageController.cs:52-60 | After a user's send, IsAdminSeen is false and LastUpdatedAt is now. IsSeen and the keys are unchanged. |
| MessageController.AfterShopSend | Controllers/MessageController.cs:95-103 | After a shop's send, IsSeen is false and LastUpdatedAt is now. IsAdminSeen and the keys are unchanged. |
| MessageController.AddMessageFromUser | Controllers/MessageController.cs:30-67 | The same refusals as the presence-aware user send, with nothing changed. An accepted send appends the row marked as the user's and applies AfterUserSend to the named conversation. Nothing is pushed. |
| MessageController.AddMessageFromShop | Controllers/MessageController.cs:73-115 | The same refusals as the presence-aware shop send. An accepted send appends the row marked as the shop's and applies AfterShopSend to the named conversation. |
| MessageController.GetNewMessages | Controllers/MessageController.cs:120-131 | NoContent exactly when no message of the conversation is newer than lastCheck. Otherwise the result holds exactly those messages, oldest first. |
| MessageController.NewMessagesAreConversationMessages | Controllers/MessageController.cs:122-125 | Every new message is among the conversation's messages, and it is strictly newer than lastCheck. |
| MessageController.UpdateMessage | Controllers/MessageController.cs:138-151 | Null or empty content gives BadRequest, then an unknown id gives NotFound, and neither changes anything. Otherwise only that message's content is replaced, and the updated row is returned. |
| MessageController.DeleteMessage | Controllers/MessageController.cs:157-166 | Ok exactly when the id exists, and then exactly the row with that id is removed. Otherwise NotFound and nothing changes. |
| MessageController.GetMessagesByUserAndShop | Controllers/MessageController.cs:172-183 | NotFound exactly when no message is between the user and the shop. Otherwise the result holds exactly those messages, newest first. |
| ConversationController.AddConversation | Controllers/ConversationController.cs:31-55 | In order: a null body gives BadRequest, an unknown user NotFound, an unknown shop NotFound, and a pair that already has a conversation Conflict. Otherwise the body is stored with a new id and CreatedAt now. The pair then has a conversation, and the table stays unique per pair. |
| ConversationController.MostRecentFirst | Controllers/ConversationController.cs:66-70 | The result holds exactly the conversations passing the test, most recently active first. |
| ConversationController.UserListEntry | Controllers/ConversationController.cs:79-88 | The per-user list row: ConversationId is the conversation's id, ID is 0, the name is the shop's and IsAdminSeen is false. The other fields are copied. |
| ConversationController.ShopListEntry | Controllers/ConversationController.cs:125-133 | The per-shop list row: ID is the conversation's id, ConversationId is 0, Name is null and IsAdminSeen is false. The other fields are copied. |
| ConversationController.GetConversationsByUser | Controllers/ConversationController.cs:60-91 | NotFound exactly when the user is unknown. A server error exactly when one of the user's conversations has no shop row, a state the foreign keys rule out (see "## Left out"). Otherwise one list row per conversation of the user, most recently active first. |
| ConversationController.ListedShopsExist | Controllers/ConversationController.cs:79-82 | When every conversation of the user has its shop, so does every listed one. |
| ConversationController.GetAllConversations | Controllers/ConversationController.cs:95-105 | Always Ok. The result holds every conversation, most recently active first. |
| ConversationController.GetConversationsByShop | Controllers/ConversationController.cs:112-135 | NotFound exactly when the shop is unknown. Otherwise one list row per conversation of the shop, most recently active first. |
| ConversationController.AllSatisfy | Controllers/ConversationController.cs:118-121 | Every conversation a filtered, ordered list shows passes the filter. |
| ConversationController.GetLastMessageInConversation | Controllers/ConversationController.cs:140-159 | NotFound for an unknown conversation. NotFound when it has no messages. Otherwise a message of that conversation that no other message of it is newer than. |
| ConversationController.NewestIsLatest | Controllers/ConversationController.cs:148-151 | The head of the newest-first list belongs to the conversation and is at least as new as each of its messages. |
| ConversationController.GetMessagesForConversation | Controllers/ConversationController.cs:166-177 | NotFound exactly when the conversation is unknown. Otherwise exactly its messages, newest first, possibly none. |
| ConversationController.GetUnseenConversationsForAdmin | Controllers/ConversationController.cs:247-258 | Exactly the conversations with IsAdminSeen false, most recently active first. |
| ConversationController.WithIsSeen | Controllers/ConversationController.cs:186-193 | IsSeen becomes true on the rows with that id. Every other field and row is unchanged. |
| ConversationController.WithIsAdminSeen | Controllers/ConversationController.cs:209-218 | IsAdminSeen becomes true on the rows with that id. Every other field and row is unchanged. |
| ConversationController.WithIsSeenIdempotent | Controllers/ConversationController.cs:183-198 | Calling set-is-seen twice leaves the same table as calling it once. |
| ConversationController.WithIsAdminSeenIdempotent | Controllers/ConversationController.cs:203-223 | Calling set-is-adminseen twice leaves the same table as calling it once. |
| ConversationController.OnlyRowWithKey | Controllers/ConversationController.cs:186-187 | With unique keys, the row found by id is the only row with that id. |
| ConversationController.SetIsSeenToFalse | Controllers/ConversationController.cs:183-198 | Despite its name, it sets IsSeen to true on that conversation only. An unknown id gives NotFound and changes nothing. |
| ConversationController.SetIsAdminSeenFalse | Controllers/ConversationController.cs:203-223 | Sets IsAdminSeen to true on that conversation only. An unknown id gives NotFound and changes nothing. |
| ConversationController.DeleteConversation | Controllers/ConversationController.cs:229-242 | Ok exactly when the conversation exists. Then it and every message naming it are removed, and every other message and conversation stays, in order. Otherwise NotFound and nothing changes. |
| ServiceController.ServiceGroup | Controllers/ServiceController.cs:28-57 | Service types 1 to 25 have an id group. Every other value has none. |
| ServiceController.Wrap | Controllers/ServiceController.cs:30-54 | Counting round the 25 service ids always lands on an id from 1 to 25. |
| ServiceController.GroupIsRun | Controllers/ServiceController.cs:30-54 | Group g is the run of seven ids that starts where group g-1 ended, wrapping from 25 to 1. Group 18 is instead the five ids 1 to 5. |
| ServiceController.RunShape | Controllers/ServiceController.cs:30-54 | In such a run, consecutive entries are consecutive ids, and no id repeats. |
| ServiceController.WrapStep | Controllers/ServiceController.cs:30-54 | One more step round the cycle gives the next id, and 25 is followed by 1. |
| ServiceController.WrapDistinct | Controllers/ServiceController.cs:30-54 | Fewer than 25 steps apart never land on the same id. |
| ServiceController.GroupShape | Controllers/ServiceController.cs:30-54 | Every id of every group is in 1 to 25. Every group has seven ids, except group 18, which has five. Consecutive entries are consecutive ids, wrapping from 25 to 1, and none repeats. |
| ServiceController.EveryIdInSomeGroup | Controllers/ServiceController.cs:30-54 | Every service id from 1 to 25 belongs to some group. |
| ServiceController.GetServices | Controllers/ServiceController.cs:25-74 | BadRequest exactly for a type outside 1 to 25. NotFound exactly when no service id is in the type's group. Otherwise exactly those services. |
| ReviewController.ReviewRejection | Controllers/ReviewController.cs:26-59 | A null body gives BadRequest. A top-level review with an unknown shop gives BadRequest. A reply with an unknown parent gives BadRequest. A reply whose shop is unknown gives a server error, because the foreign key fails at save. A review is accepted exactly when its shop exists and, for a reply, its parent exists. |
| ReviewController.Inserted | Controllers/ReviewController.cs:52-53 | The stored review is the body under a new id that no existing review has. |
| ReviewController.CreateReview | Controllers/ReviewController.cs:24-61 | A refused review leaves the table unchanged. An accepted one is Created, and exactly that row is appended. |
| ReviewController.CreateKeepsParentsPrecede | Controllers/ReviewController.cs:42-53 | When every reply's parent has a smaller id than the reply, an accepted review keeps that so. Following parent links always ends at a top-level review. |
| ReviewController.MapToDto | Controllers/ReviewController.cs:100-112 | The DTO mirrors the review tree node for node. Each node's fields are copied. A null reply collection stays null, and a loaded one is mapped in order. |
| ReviewController.MirrorsSameSize | Controllers/ReviewController.cs:110 | A DTO that mirrors a review tree has exactly as many nodes as the tree. |
| ReviewController.MirrorsSameSizeAll | Controllers/ReviewController.cs:110 | The same, for the list of replies. |
| ReviewController.Thread | Controllers/ReviewController.cs:67-70 | A review's loaded tree: its replies are the rows replying to it, in table order, loaded to the given depth. |
| ReviewController.ThreadDto | Controllers/ReviewController.cs:67-76 | The DTO of a review copies the row. Its direct replies are the rows replying to it, in table order, each copied. |
| ReviewController.GetReview | Controllers/ReviewController.cs:65-78 | NotFound exactly when the id is unknown. Otherwise the review's DTO with its direct replies, each a row replying to it. |
| ReviewController.GetReviewsByShopId | Controllers/ReviewController.cs:82-96 | NotFound exactly when the shop has no top-level review. Otherwise one DTO per top-level review of the shop, in table order. Each DTO copies its review, and its direct replies are exactly the rows replying to that review, in table order, each copied. |
| CommentController.CommentRejection | Controllers/CommentController.cs:25-58 | A null body gives BadRequest. A top-level comment with an unknown post gives BadRequest. A reply with an unknown parent gives BadRequest. A reply whose post is unknown gives a server error, because the foreign key fails at save. A comment is accepted exactly when its post exists and, for a reply, its parent exists. |
| CommentController.CreateComment | Controllers/CommentController.cs:23-60 | A refused comment leaves the table unchanged. An accepted one is Created, and exactly that row, under a new id, is appended. |
| CommentController.GetComment | Controllers/CommentController.cs:64-75 | Ok exactly when the id exists, and then the row with that id. Otherwise NotFound. |
| CommentController.GetCommentsByPostId | Controllers/CommentController.cs:80-93 | NotFound exactly when the post has no top-level comment. Otherwise exactly its top-level comments, each as often as in the table. The query does not order them. |
| CommentController.ListedCommentIsFound | Controllers/CommentController.cs:64-93 | Each comment listed for a post is the one GetComment finds under its id. |
| OrderController.UserOrderOf | Controllers/OrderController.cs:35-62 | A listing entry copies the order's fields. ShopDetails is null exactly when the order's shop does not exist, and otherwise is that shop's details. |
| OrderController.GetOrdersByUserId | Controllers/OrderController.cs:23-68 | NotFound exactly for an unknown user. NotFound exactly when a known user has no orders. Otherwise one entry per order of the user, in table order, each being UserOrderOf that order: its fields copied and its shop's details present exactly when the shop exists. |
| OrderController.OrderRejection | Controllers/OrderController.cs:76-95 | In order, a null body, an unknown user and an unknown shop each give BadRequest. An order is accepted exactly when its user and shop exist. |
| OrderController.CreateOrder | Controllers/OrderController.cs:74-109 | A refused order leaves the table unchanged. An accepted one is Created, and exactly that row, under a new id with CreatedAt now, is appended. |
| OrderController.UpdatePaymentReference | Controllers/OrderController.cs:113-140 | A null, empty or all-whitespace reference gives BadRequest, then an unknown order gives NotFound, and neither changes anything. In particular a null or empty reference is refused. Otherwise only that order's PaymentReference is replaced. |
| OrderController.UpdateIsPaid | Controllers/OrderController.cs:145-167 | An unknown order gives NotFound and changes nothing. Otherwise only that order's isPaid becomes the given value, and the updated order is returned. |
| OrderController.DeleteOrder | Controllers/OrderController.cs:171-192 | NoContent exactly when the order exists, and then exactly that row is removed. Otherwise NotFound and nothing changes. |
| OrderController.ToOrderDto | Controllers/OrderController.cs:202-214 | Field2 is the order's Field1, as the projection is written. Username is the user's name, or "Unknown" when the user does not exist. The other fields are copied. |
| OrderController.GetAllOrders | Controllers/OrderController.cs:196-222 | NotFound exactly when there are no orders. Otherwise one OrderDto per order, in table order. |
| OrderController.UserOrdersAmongAll | Controllers/OrderController.cs:23-222 | Every order a user's listing shows also appears, by id, in the listing of all orders. |
| ShopController.GetShopTypes | Controllers/ShopController.cs:28-60 | NotFound exactly when no shop has that Services value. Otherwise exactly those shops, shop 26 included. |
| ShopController.GetAllShops | Controllers/ShopController.cs:64-96 | NotFound exactly when every shop is shop 26. Otherwise every shop except shop 26. |
| ShopController.Ranked | Controllers/ShopController.cs:103-105 | Every shop except shop 26, sorted highest first on the key. |
| ShopController.GetShopsByHighestTrust | Controllers/ShopController.cs:101-134 | NotFound exactly when every shop is shop 26. Otherwise every other shop, highest Trust first, with shops that have no Trust last. |
| ShopController.GetShopsByHighestReviews | Controllers/ShopController.cs:137-170 | NotFound exactly when every shop is shop 26. Otherwise every other shop, most reviews first. |
| ShopController.ListingsAgree | Controllers/ShopController.cs:64-170 | The three general listings succeed together and hold the same shops, each as often. Only the order differs. |
| ShopController.GetStorebyName | Controllers/ShopController.cs:175-207 | NotFound exactly when no shop has that name. Otherwise exactly those shops. |
| ShopController.GetShop | Controllers/ShopController.cs:211-220 | Ok exactly when the id exists, and then the shop with that id. Otherwise NotFound. |
| ShopController.PostShop | Controllers/ShopController.cs:225-230 | The shop is stored under a new id and returned as Created. |
| ShopController.DeleteShop | Controllers/ShopController.cs:235-246 | Ok exactly when the shop exists, and then exactly that row is removed. Otherwise NotFound and nothing changes. |
| ShopController.Overwrite | Controllers/ShopController.cs:264-280 | The field-by-field copy keeps the stored id and takes every other column from the body. |
| ShopController.UpdateShop | Controllers/ShopController.cs:251-286 | A URL id that differs from the body's gives BadRequest. An unknown shop gives NotFound. Neither changes anything. Otherwise only that shop is replaced by the body. |

## Left out

- Concurrency: the `ConcurrentDictionary` registry is shared by concurrent hub calls. The model treats every call as atomic.
- The SignalR transport itself is left out: connection handling, `Clients.User` routing by the authenticated user identifier, and delivery failures. A push is a record in the outbox.
- Console logging and the hub's rethrow of exceptions it logs are left out. They have no effect on state.
- Authentication and authorisation attributes, the cookie policy and Program.cs configuration are not part of this model.
- AutoMapper is left out. Replies that map to `MessageDto` or `ConversationDto` through AutoMapper return the row itself in the model.
- Entity Framework specifics are left out: change tracking, transactions, and navigation properties loaded by `Include`. JSON serialisation of navigation properties is also left out. `GetComment` returns the row, not its loaded post and replies.
- Database cascade rules are left out. `DeleteShop` and `DeleteOrder` remove only their own row.
- ReviewController.Thread: lazy loading is modelled to a depth of the table's size. That is enough for any thread in which replies come after their parents (see CreateKeepsParentsPrecede). A reply cycle, which such a table cannot hold, is not followed further.
- Data-annotation validation is left out: `[Required]`, `[MaxLength]`, `[Range]` and the framework's automatic 400 reply.
- Sequences.FreshKey: a SQL Server identity column never reuses a value, even after the row holding the largest one is deleted. The model only promises a value above every current key, which is all the handlers need for the keys to stay unique.
- The model treats every posted body as carrying id 0, and the stored row gets the next identity value (`FreshKey`). A non-zero client id, which SQL Server refuses on an identity column so that the save throws, is not modelled.
- `DateTime.Now` and `DateTime.UtcNow` are both the one `now` parameter. Time zones are not modelled.
- ConversationController.GetConversationsByUser, OrderController.UserOrderOf, OrderController.ToOrderDto: their ServerError, null ShopDetails and "Unknown" username branches model a row whose required parent row (shop or user) is missing. The foreign keys forbid that state, and Entity Framework's inner join on a required navigation would leave such a row out of the listing instead. The model reaches the state only because DeleteShop does not cascade.
- ShopController.GetShopTypes, ShopController.GetStorebyName: the Services and Name tests are exact string equality. The database collation that decides the SQL `=` comparison (case sensitivity, trailing blanks) is not modelled.
- `float` and `double` columns (Price, Ratings, Multiplier, Stars) are opaque values that are only copied.
- The generic `catch` blocks that answer 500 are modelled only for the foreign-key failures named in the Model table. Other database errors are left out.
- SignalController.AddMessageFromUser: the push is made before the row is saved. The model keeps that order, but a failure between the two steps is not modelled.
- MessageController's `GetMessagesByConversation` (Controllers/MessageController.cs:188-201) runs the same query, with the same reply, as SignalController's endpoint of that name. It is modelled once, as SignalController.GetMessagesByConversation.
- The Message `Content` column is a non-null string. `IsNullOrEmpty` is applied to the optional request body and to the update text.
- PostController, UserController and the controllers outside the core are not part of this model.

/**
 * Orders (Controllers/OrderController.cs): placing one, setting its payment
 * reference and paid flag, deleting it, and the two listings, one per user
 * with the shop's details and one of all orders as OrderDto.
 */
module OrderController {
  import opened Wrappers
  import opened Sequences
  import opened Text
  import opened Models
  import opened Data

  // --------------------------------------------------------- by user

  /** The `ShopDetails` part of a user's order listing. */
  datatype ShopDetails = ShopDetails(
    id: int,
    name: Option<string>,
    heading: Option<string>,
    description: Option<string>,
    trust: Option<int>,
    reviews: int,
    iconsIndex: Option<int>,
    services: Option<string>,
    image: Option<int>,
    ratings: Option<Float>,
    multiplier: Option<Float>,
    isAvailable: Option<bool>)

  /** One entry of a user's order listing. */
  datatype UserOrder = UserOrder(
    id: int,
    shopId: int,
    title: Option<string>,
    price: Option<Float>,
    createdAt: Time,
    status: Option<int>,
    shopDetails: Option<ShopDetails>)

  function DetailsOf(s: Shop): ShopDetails {
    ShopDetails(s.id, s.name, s.heading, s.description, s.trust, s.reviews,
                s.iconsIndex, s.services, s.image, s.ratings, s.multiplier, s.isAvailable)
  }

  /** The projection of one order; ShopDetails is null when the order's shop cannot be loaded. */
  function UserOrderOf(shops: seq<Shop>, o: Order): (e: UserOrder)
    ensures e.id == o.id && e.shopId == o.shopId && e.title == o.title
    ensures e.price == o.price && e.createdAt == o.createdAt && e.status == o.status
    ensures e.shopDetails.None? <==> !HasKey(shops, ShopKey, o.shopId)
    ensures e.shopDetails.Some? ==>
      exists j | 0 <= j < |shops| :: shops[j].id == o.shopId && e.shopDetails.value == DetailsOf(shops[j])
  {
    var details := match FindByKey(shops, ShopKey, o.shopId)
      case None => None
      case Some(s) => Some(DetailsOf(s));
    UserOrder(o.id, o.shopId, o.title, o.price, o.createdAt, o.status, details)
  }

  function PlacedBy(userId: int): Order -> bool {
    (o: Order) => o.userId == userId
  }

  /**
   * GET UsersOrder/{userId}: NotFound for an unknown user, NotFound when
   * the user has no orders; otherwise one entry per order of that user, in
   * table order.
   */
  function GetOrdersByUserId(users: seq<User>, shops: seq<Shop>, orders: seq<Order>, userId: int): (r: Reply<seq<UserOrder>>)
    ensures r.Ok? || r == NotFound(Missing(Users)) || r == NotFound(NoRows)
    ensures r == NotFound(Missing(Users)) <==> !HasKey(users, UserKey, userId)
    ensures r == NotFound(NoRows) <==>
      HasKey(users, UserKey, userId) && forall j | 0 <= j < |orders| :: orders[j].userId != userId
    ensures r.Ok? ==>
      var mine := Filter(orders, PlacedBy(userId));
      && |r.value| == |mine|
      && forall i | 0 <= i < |mine| ::
           mine[i] in orders && mine[i].userId == userId && r.value[i] == UserOrderOf(shops, mine[i])
  {
    if !HasKey(users, UserKey, userId) then NotFound(Missing(Users))
    else
      var mine := Filter(orders, PlacedBy(userId));
      FilterEmpty(orders, PlacedBy(userId));
      if mine == [] then NotFound(NoRows)
      else Ok(Map(mine, (o: Order) => UserOrderOf(shops, o)))
  }

  // ------------------------------------------------------------ create

  /**
   * The refusal CreateOrder gives before storing: BadRequest for a null
   * body, then for an unknown user, then for an unknown shop (BadRequest,
   * not NotFound). None when the order can be stored.
   */
  function OrderRejection(users: seq<User>, shops: seq<Shop>, order: Option<Order>): (r: Option<Reply<Order>>)
    ensures r.None? <==>
      order.Some? && HasKey(users, UserKey, order.value.userId) && HasKey(shops, ShopKey, order.value.shopId)
    ensures order.None? ==> r == Some(BadRequest(InputRequired))
    ensures order.Some? && !HasKey(users, UserKey, order.value.userId) ==> r == Some(BadRequest(Missing(Users)))
    ensures order.Some? && HasKey(users, UserKey, order.value.userId) && !HasKey(shops, ShopKey, order.value.shopId) ==>
      r == Some(BadRequest(Missing(Shops)))
  {
    if order.None? then Some(BadRequest(InputRequired))
    else if !HasKey(users, UserKey, order.value.userId) then Some(BadRequest(Missing(Users)))
    else if !HasKey(shops, ShopKey, order.value.shopId) then Some(BadRequest(Missing(Shops)))
    else None
  }

  /**
   * POST create: refused as OrderRejection says, with the table unchanged;
   * otherwise exactly one order, the body with a new ID and CreatedAt set
   * to now, is appended.
   */
  method CreateOrder(db: AppDbContext, order: Option<Order>, now: Time) returns (r: Reply<Order>)
    requires db.Valid()
    modifies db`orders
    ensures db.Valid()
    ensures var rejected := OrderRejection(db.users, db.shops, order);
      rejected.Some? ==> r == rejected.value && db.orders == old(db.orders)
    ensures var rejected := OrderRejection(db.users, db.shops, order);
      rejected.None? ==>
        var stored := order.value.(id := FreshKey(old(db.orders), OrderKey), createdAt := now);
        r == Created(stored) && db.orders == old(db.orders) + [stored]
  {
    var rejected := OrderRejection(db.users, db.shops, order);
    if rejected.Some? {
      return rejected.value;
    }
    var stored := order.value.(id := FreshKey(db.orders, OrderKey), createdAt := now);
    AppendUnique(db.orders, OrderKey, stored);
    db.orders := db.orders + [stored];
    r := Created(stored);
  }

  // ----------------------------------------------------------- updates

  /**
   * PUT UpdatePaymentReference/{orderId}: BadRequest for a null, empty or
   * all-whitespace reference, then NotFound for an unknown order;
   * otherwise that order's PaymentReference is replaced and nothing else
   * changes.
   */
  method UpdatePaymentReference(db: AppDbContext, orderId: int, newPaymentReference: Option<string>) returns (r: Reply<()>)
    requires db.Valid()
    modifies db`orders
    ensures db.Valid()
    ensures IsNullOrWhiteSpace(newPaymentReference) ==> r == BadRequest(InputRequired)
    ensures IsNullOrEmpty(newPaymentReference) ==> r == BadRequest(InputRequired) && db.orders == old(db.orders)
    ensures !IsNullOrWhiteSpace(newPaymentReference) && !HasKey(old(db.orders), OrderKey, orderId) ==>
      r == NotFound(Missing(Orders))
    ensures r.Ok? <==> !IsNullOrWhiteSpace(newPaymentReference) && HasKey(old(db.orders), OrderKey, orderId)
    ensures !r.Ok? ==> db.orders == old(db.orders)
    ensures r.Ok? ==>
      var i := IndexOfKey(old(db.orders), OrderKey, orderId).value;
      db.orders == old(db.orders)[i := old(db.orders)[i].(paymentReference := newPaymentReference)]
  {
    if IsNullOrEmpty(newPaymentReference) {
      EmptyIsWhiteSpace(newPaymentReference);
    }
    if IsNullOrWhiteSpace(newPaymentReference) {
      return BadRequest(InputRequired);
    }
    var found := IndexOfKey(db.orders, OrderKey, orderId);
    if found.None? {
      return NotFound(Missing(Orders));
    }
    var i := found.value;
    var updated := db.orders[i].(paymentReference := newPaymentReference);
    UpdateUnique(db.orders, OrderKey, i, updated);
    db.orders := db.orders[i := updated];
    r := Ok(());
  }

  /**
   * PUT updateIsPaid/{orderId}: NotFound for an unknown order; otherwise
   * that order's isPaid becomes the given value, nothing else changes, and
   * the updated order is returned.
   */
  method UpdateIsPaid(db: AppDbContext, orderId: int, isPaid: bool) returns (r: Reply<Order>)
    requires db.Valid()
    modifies db`orders
    ensures db.Valid()
    ensures r.Ok? <==> HasKey(old(db.orders), OrderKey, orderId)
    ensures !r.Ok? ==> r == NotFound(Missing(Orders)) && db.orders == old(db.orders)
    ensures r.Ok? ==>
      var i := IndexOfKey(old(db.orders), OrderKey, orderId).value;
      && r.value == old(db.orders)[i].(isPaid := Some(isPaid))
      && db.orders == old(db.orders)[i := r.value]
  {
    var found := IndexOfKey(db.orders, OrderKey, orderId);
    if found.None? {
      return NotFound(Missing(Orders));
    }
    var i := found.value;
    var updated := db.orders[i].(isPaid := Some(isPaid));
    UpdateUnique(db.orders, OrderKey, i, updated);
    db.orders := db.orders[i := updated];
    r := Ok(updated);
  }

  /** DELETE delete/{orderId}: removes exactly that order and answers NoContent, or NotFound. */
  method DeleteOrder(db: AppDbContext, orderId: int) returns (r: Reply<()>)
    requires db.Valid()
    modifies db`orders
    ensures db.Valid()
    ensures r == NoContent <==> HasKey(old(db.orders), OrderKey, orderId)
    ensures r != NoContent ==> r == NotFound(Missing(Orders)) && db.orders == old(db.orders)
    ensures r == NoContent ==> db.orders == Filter(old(db.orders), KeyIsNot(OrderKey, orderId))
  {
    var found := IndexOfKey(db.orders, OrderKey, orderId);
    if found.None? {
      return NotFound(Missing(Orders));
    }
    var remove := KeyIsNot(OrderKey, orderId);
    FilterUnique(db.orders, OrderKey, remove);
    db.orders := Filter(db.orders, remove);
    r := NoContent;
  }

  // --------------------------------------------------------- all orders

  /** What `Username` shows for an order whose user cannot be loaded. */
  const UnknownUser: string := "Unknown"

  /**
   * The OrderDto of one order. Field2 is filled from the order's Field1,
   * as the projection is written; Username is the user's name, or
   * "Unknown" when the user cannot be loaded.
   */
  function ToOrderDto(users: seq<User>, o: Order): (d: OrderDto)
    ensures d.id == o.id && d.title == o.title && d.price == o.price && d.createdAt == o.createdAt
    ensures d.field1 == o.field1 && d.field2 == o.field1
    ensures d.field3 == o.field3 && d.field4 == o.field4 && d.field5 == o.field5
    ensures !HasKey(users, UserKey, o.userId) ==> d.username == Some(UnknownUser)
    ensures HasKey(users, UserKey, o.userId) ==>
      exists j | 0 <= j < |users| :: users[j].id == o.userId && d.username == users[j].username
  {
    var username := match FindByKey(users, UserKey, o.userId)
      case None => Some(UnknownUser)
      case Some(u) => u.username;
    OrderDto(o.id, o.title, o.field1, o.field1, o.field3, o.field4, o.field5, o.price, o.createdAt, username)
  }

  /** GET all-orders: one OrderDto per order, in table order; NotFound when there are none. */
  function GetAllOrders(users: seq<User>, orders: seq<Order>): (r: Reply<seq<OrderDto>>)
    ensures r.Ok? || r == NotFound(NoRows)
    ensures r.NotFound? <==> orders == []
    ensures r.Ok? ==> |r.value| == |orders| && forall i | 0 <= i < |orders| :: r.value[i] == ToOrderDto(users, orders[i])
  {
    if orders == [] then NotFound(NoRows) else Ok(Map(orders, (o: Order) => ToOrderDto(users, o)))
  }

  /** Every order a user's listing shows also appears, by ID, among all orders. */
  lemma UserOrdersAmongAll(users: seq<User>, shops: seq<Shop>, orders: seq<Order>, userId: int, i: nat)
    requires GetOrdersByUserId(users, shops, orders, userId).Ok?
    requires i < |GetOrdersByUserId(users, shops, orders, userId).value|
    ensures GetAllOrders(users, orders).Ok?
    ensures exists j | 0 <= j < |orders| ::
      GetAllOrders(users, orders).value[j].id == GetOrdersByUserId(users, shops, orders, userId).value[i].id
  {
    var mine := Filter(orders, PlacedBy(userId));
    assert mine[i] in orders;
    var j :| 0 <= j < |orders| && orders[j] == mine[i];
    assert GetAllOrders(users, orders).value[j] == ToOrderDto(users, orders[j]);
  }
}

/**
 * Shops (Controllers/ShopController.cs): the listings (by service, all,
 * by trust, by review count, by name), one shop's details, and creating,
 * deleting and updating a shop. The listings' projections name every
 * column of the row, so a listed entry is the row itself.
 */
module ShopController {
  import opened Wrappers
  import opened Sequences
  import opened Models
  import opened Data

  /** The shop the general listings leave out. */
  const HiddenShopId: int := 26

  function OffersService(service: string): Shop -> bool {
    (s: Shop) => s.services == Some(service)
  }

  function Listed(): Shop -> bool {
    (s: Shop) => s.id != HiddenShopId
  }

  function Named(storeName: string): Shop -> bool {
    (s: Shop) => s.name == Some(storeName)
  }

  // ---------------------------------------------------------- listings

  /**
   * GET ShopByServices/{service}: exactly the shops whose Services column
   * equals `service` (shop 26 included), in no promised order; NotFound when
   * there are none.
   */
  function GetShopTypes(shops: seq<Shop>, service: string): (r: Reply<seq<Shop>>)
    ensures r.Ok? || r == NotFound(NoRows)
    ensures r.NotFound? <==> forall j | 0 <= j < |shops| :: shops[j].services != Some(service)
    ensures r.Ok? ==> forall s :: multiset(r.value)[s] == if s.services == Some(service) then multiset(shops)[s] else 0
  {
    var found := Filter(shops, OffersService(service));
    FilterEmpty(shops, OffersService(service));
    if found == [] then NotFound(NoRows) else Ok(found)
  }

  /** GET all: every shop but shop 26, in no promised order; NotFound when there is none. */
  function GetAllShops(shops: seq<Shop>): (r: Reply<seq<Shop>>)
    ensures r.Ok? || r == NotFound(NoRows)
    ensures r.NotFound? <==> forall j | 0 <= j < |shops| :: shops[j].id == HiddenShopId
    ensures r.Ok? ==> forall s :: multiset(r.value)[s] == if s.id != HiddenShopId then multiset(shops)[s] else 0
    ensures r.Ok? ==> forall i | 0 <= i < |r.value| :: r.value[i].id != HiddenShopId
  {
    var found := Filter(shops, Listed());
    FilterEmpty(shops, Listed());
    if found == [] then NotFound(NoRows) else Ok(found)
  }

  /** The shops the general listings show, sorted on `key`, highest first. */
  function Ranked(shops: seq<Shop>, key: Shop -> Option<int>): (r: seq<Shop>)
    ensures forall s :: multiset(r)[s] == if s.id != HiddenShopId then multiset(shops)[s] else 0
    ensures forall i | 0 <= i < |r| :: r[i].id != HiddenShopId
    ensures SortedBy(r, key, Descending)
    ensures r == [] <==> forall j | 0 <= j < |shops| :: shops[j].id == HiddenShopId
  {
    var found := Select(shops, Listed(), key, Descending);
    assert forall i | 0 <= i < |found| :: found[i].id != HiddenShopId by {
      forall i | 0 <= i < |found| ensures found[i].id != HiddenShopId {
        assert multiset(found)[found[i]] > 0;
      }
    }
    found
  }

  /**
   * GET by-trust: every shop but shop 26, highest Trust first, shops
   * without a Trust last; NotFound when there is none.
   */
  function GetShopsByHighestTrust(shops: seq<Shop>): (r: Reply<seq<Shop>>)
    ensures r.Ok? || r == NotFound(NoRows)
    ensures r.NotFound? <==> forall j | 0 <= j < |shops| :: shops[j].id == HiddenShopId
    ensures r.Ok? ==> forall s :: multiset(r.value)[s] == if s.id != HiddenShopId then multiset(shops)[s] else 0
    ensures r.Ok? ==> forall i | 0 <= i < |r.value| :: r.value[i].id != HiddenShopId
    ensures r.Ok? ==> forall i, j | 0 <= i < j < |r.value| ::
      r.value[j].trust.Some? ==> r.value[i].trust.Some? && r.value[i].trust.value >= r.value[j].trust.value
  {
    var found := Ranked(shops, ShopTrust);
    if found == [] then NotFound(NoRows) else Ok(found)
  }

  /** GET by-reviews: every shop but shop 26, most reviews first; NotFound when there is none. */
  function GetShopsByHighestReviews(shops: seq<Shop>): (r: Reply<seq<Shop>>)
    ensures r.Ok? || r == NotFound(NoRows)
    ensures r.NotFound? <==> forall j | 0 <= j < |shops| :: shops[j].id == HiddenShopId
    ensures r.Ok? ==> forall s :: multiset(r.value)[s] == if s.id != HiddenShopId then multiset(shops)[s] else 0
    ensures r.Ok? ==> forall i | 0 <= i < |r.value| :: r.value[i].id != HiddenShopId
    ensures r.Ok? ==> forall i, j | 0 <= i < j < |r.value| :: r.value[i].reviews >= r.value[j].reviews
  {
    var found := Ranked(shops, ShopReviews);
    if found == [] then NotFound(NoRows) else Ok(found)
  }

  /** The three general listings hold the same shops, each as often; only the order differs. */
  lemma ListingsAgree(shops: seq<Shop>)
    ensures GetAllShops(shops).Ok? <==> GetShopsByHighestTrust(shops).Ok?
    ensures GetAllShops(shops).Ok? <==> GetShopsByHighestReviews(shops).Ok?
    ensures GetAllShops(shops).Ok? ==>
      && multiset(GetShopsByHighestTrust(shops).value) == multiset(GetAllShops(shops).value)
      && multiset(GetShopsByHighestReviews(shops).value) == multiset(GetAllShops(shops).value)
  {
    if GetAllShops(shops).Ok? {
      var all := GetAllShops(shops).value;
      assert multiset(GetShopsByHighestTrust(shops).value) == multiset(all) by {
        forall s ensures multiset(GetShopsByHighestTrust(shops).value)[s] == multiset(all)[s] { }
      }
      assert multiset(GetShopsByHighestReviews(shops).value) == multiset(all) by {
        forall s ensures multiset(GetShopsByHighestReviews(shops).value)[s] == multiset(all)[s] { }
      }
    }
  }

  /**
   * GET Store/{storeName}: exactly the shops whose Name equals `storeName`
   * (shop 26 included), in no promised order; NotFound when there are none.
   */
  function GetStorebyName(shops: seq<Shop>, storeName: string): (r: Reply<seq<Shop>>)
    ensures r.Ok? || r == NotFound(NoRows)
    ensures r.NotFound? <==> forall j | 0 <= j < |shops| :: shops[j].name != Some(storeName)
    ensures r.Ok? ==> forall s :: multiset(r.value)[s] == if s.name == Some(storeName) then multiset(shops)[s] else 0
  {
    var found := Filter(shops, Named(storeName));
    FilterEmpty(shops, Named(storeName));
    if found == [] then NotFound(NoRows) else Ok(found)
  }

  /** GET Details/{id}: the shop with that ID, or NotFound. */
  function GetShop(shops: seq<Shop>, id: int): (r: Reply<Shop>)
    ensures r.Ok? || r == NotFound(Missing(Shops))
    ensures r.Ok? <==> HasKey(shops, ShopKey, id)
    ensures r.Ok? ==> r.value in shops && r.value.id == id
  {
    match FindByKey(shops, ShopKey, id)
    case None => NotFound(Missing(Shops))
    case Some(s) => Ok(s)
  }

  // ----------------------------------------------------------- changes

  /** POST: the shop is stored under a new ID and returned. */
  method PostShop(db: AppDbContext, shop: Shop) returns (r: Reply<Shop>)
    requires db.Valid()
    modifies db`shops
    ensures db.Valid()
    ensures var stored := shop.(id := FreshKey(old(db.shops), ShopKey));
      r == Created(stored) && db.shops == old(db.shops) + [stored]
  {
    var stored := shop.(id := FreshKey(db.shops, ShopKey));
    AppendUnique(db.shops, ShopKey, stored);
    db.shops := db.shops + [stored];
    r := Created(stored);
  }

  /** DELETE {id}: removes exactly that shop, or NotFound. */
  method DeleteShop(db: AppDbContext, id: int) returns (r: Reply<()>)
    requires db.Valid()
    modifies db`shops
    ensures db.Valid()
    ensures r == Ok(()) <==> HasKey(old(db.shops), ShopKey, id)
    ensures r != Ok(()) ==> r == NotFound(Missing(Shops)) && db.shops == old(db.shops)
    ensures r == Ok(()) ==> db.shops == Filter(old(db.shops), KeyIsNot(ShopKey, id))
  {
    var found := IndexOfKey(db.shops, ShopKey, id);
    if found.None? {
      return NotFound(Missing(Shops));
    }
    var remove := KeyIsNot(ShopKey, id);
    FilterUnique(db.shops, ShopKey, remove);
    db.shops := Filter(db.shops, remove);
    r := Ok(());
  }

  /** The shop after UpdateShop's field-by-field copy: every column from the body, the ID kept. */
  function Overwrite(shop: Shop, body: Shop): (s: Shop)
    ensures s.id == shop.id
    ensures s.(id := body.id) == body
  {
    Shop(shop.id, body.name, body.heading, body.description, body.reviews, body.trust,
         body.iconsIndex, body.services, body.multiplier, body.ratings, body.isAvailable,
         body.paymentMethods, body.users, body.color01, body.color02, body.color03,
         body.image, body.contact)
  }

  /**
   * PUT {id}: BadRequest when the URL's ID differs from the body's, then
   * NotFound for an unknown shop; otherwise that shop's columns are
   * overwritten from the body and no other shop changes. Because the IDs
   * agree, the stored row is the body itself.
   */
  method UpdateShop(db: AppDbContext, id: int, updatedShop: Shop) returns (r: Reply<()>)
    requires db.Valid()
    modifies db`shops
    ensures db.Valid()
    ensures id != updatedShop.id ==> r == BadRequest(IdMismatch)
    ensures id == updatedShop.id && !HasKey(old(db.shops), ShopKey, id) ==> r == NotFound(Missing(Shops))
    ensures r.Ok? <==> id == updatedShop.id && HasKey(old(db.shops), ShopKey, id)
    ensures !r.Ok? ==> db.shops == old(db.shops)
    ensures r.Ok? ==>
      var i := IndexOfKey(old(db.shops), ShopKey, id).value;
      db.shops == old(db.shops)[i := updatedShop]
  {
    if id != updatedShop.id {
      return BadRequest(IdMismatch);
    }
    var found := IndexOfKey(db.shops, ShopKey, id);
    if found.None? {
      return NotFound(Missing(Shops));
    }
    var i := found.value;
    var updated := Overwrite(db.shops[i], updatedShop);
    UpdateUnique(db.shops, ShopKey, i, updated);
    db.shops := db.shops[i := updated];
    r := Ok(());
  }
}

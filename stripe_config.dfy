/** The product catalogue behind the paywall: a constant table of three
    plans and two lookups, by product id and by price id, each returning
    the first match or nothing. */
module Catalogue {
  import opened Options

  datatype Mode = Payment | Subscription

  datatype StripeProduct = StripeProduct(
    id: string,
    priceId: string,
    name: string,
    description: string,
    price: real,
    mode: Mode,
    features: seq<string>,
    popular: bool)

  /** `stripeProducts`. An absent `popular` flag is `false`. */
  const StripeProducts: seq<StripeProduct> := [
    StripeProduct("prod_basic", "price_basic_2", "Basic", "Perfect for occasional screamers",
      2.00, Subscription,
      ["Save up to 10 screams", "Basic analytics", "Download your screams", "Cancel anytime"],
      false),
    StripeProduct("prod_premium", "price_premium_5", "Premium", "For regular stress relief",
      5.00, Subscription,
      ["Save up to 50 screams", "Advanced analytics", "Download your screams", "Priority support",
       "Cancel anytime"],
      true),
    StripeProduct("prod_unlimited", "price_unlimited_10", "Unlimited", "For the ultimate screamer",
      10.00, Subscription,
      ["Unlimited screams", "Advanced analytics", "Download your screams", "Priority support",
       "Early access to features", "Cancel anytime"],
      false)
  ]

  /** What a lookup compares: the product id or the price id. */
  datatype Key = ById(id: string) | ByPriceId(priceId: string)

  predicate Matches(p: StripeProduct, key: Key) {
    match key
    case ById(id) => p.id == id
    case ByPriceId(priceId) => p.priceId == priceId
  }

  /** `Array.prototype.find`, as an index: the first matching position, or
      nothing exactly when no product matches. */
  function FindFirst(products: seq<StripeProduct>, key: Key): (r: Option<nat>)
    ensures r.Some? ==> r.value < |products| && Matches(products[r.value], key)
    ensures r.Some? ==> forall j :: 0 <= j < r.value ==> !Matches(products[j], key)
    ensures r.None? <==> forall j :: 0 <= j < |products| ==> !Matches(products[j], key)
  {
    if |products| == 0 then None
    else if Matches(products[0], key) then Some(0)
    else
      match FindFirst(products[1..], key)
      case None => None
      case Some(i) => Some(i + 1)
  }

  function Lookup(key: Key): (r: Option<StripeProduct>)
    ensures r.Some? ==> Matches(r.value, key)
    ensures r.None? <==> forall j :: 0 <= j < |StripeProducts| ==> !Matches(StripeProducts[j], key)
  {
    match FindFirst(StripeProducts, key)
    case None => None
    case Some(i) => Some(StripeProducts[i])
  }

  /** `getProductById`: the first product with this id, or nothing exactly
      when no product has it. */
  function GetProductById(id: string): (r: Option<StripeProduct>)
    ensures r.Some? ==> r.value.id == id && r.value in StripeProducts
    ensures r.None? <==> forall p :: p in StripeProducts ==> p.id != id
  {
    Lookup(ById(id))
  }

  /** `getProductByPriceId`: the first product with this price id, or
      nothing exactly when no product has it. */
  function GetProductByPriceId(priceId: string): (r: Option<StripeProduct>)
    ensures r.Some? ==> r.value.priceId == priceId && r.value in StripeProducts
    ensures r.None? <==> forall p :: p in StripeProducts ==> p.priceId != priceId
  {
    Lookup(ByPriceId(priceId))
  }

  /** No two products share an id or a price id, so each lookup has at most
      one candidate. */
  lemma KeysDistinct()
    ensures forall i, j :: 0 <= i < j < |StripeProducts| ==> StripeProducts[i].id != StripeProducts[j].id
    ensures forall i, j :: 0 <= i < j < |StripeProducts| ==>
      StripeProducts[i].priceId != StripeProducts[j].priceId
  {
  }

  /** Looking a product up by its own id or price id finds that product. */
  lemma LookupFindsOwnEntry(i: nat)
    requires i < |StripeProducts|
    ensures GetProductById(StripeProducts[i].id) == Some(StripeProducts[i])
    ensures GetProductByPriceId(StripeProducts[i].priceId) == Some(StripeProducts[i])
  {
    KeysDistinct();
    var p := StripeProducts[i];
    var a := FindFirst(StripeProducts, ById(p.id));
    var b := FindFirst(StripeProducts, ByPriceId(p.priceId));
    assert a.Some? && b.Some?;
    assert a.value == i && b.value == i;
  }

  /** The paywall's initial selection (`stripeProducts[1].id`). */
  const DefaultPlan: string := StripeProducts[1].id

  /** Exactly one product is marked popular: Premium, the default plan. */
  lemma PopularIsDefault()
    ensures forall i :: 0 <= i < |StripeProducts| ==> (StripeProducts[i].popular <==> i == 1)
    ensures GetProductById(DefaultPlan) == Some(StripeProducts[1])
    ensures StripeProducts[1].name == "Premium"
  {
    LookupFindsOwnEntry(1);
  }

  /** Every plan is a subscription, and prices strictly rise through the
      table. */
  lemma SubscriptionsInPriceOrder()
    ensures forall p :: p in StripeProducts ==> p.mode == Subscription
    ensures forall i, j :: 0 <= i < j < |StripeProducts| ==> StripeProducts[i].price < StripeProducts[j].price
  {
  }
}

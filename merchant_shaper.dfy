/** The merchant-status shaper of the React front end: it turns one region's backend response
    into flat card records (frontend/src/script.js). Every operation is an expression built from
    `find`, `map`, optional chaining and `||` defaults; a `TypeError` thrown anywhere inside
    `updateMerchantDisplay` is caught there and turned into an empty card list. */
module MerchantShaper {
  import opened Json
  import opened JsOps

  /** The counts `extractMerchantStats` reads from the Shopping destination. */
  datatype Stats = Stats(active: int, disapproved: int, pending: int, total: int)

  /** The flat record `createMerchantCard` builds. `name`, `country` and `itemLevelIssues` are
      whatever value the response holds there, or the default; the card has no pending count. */
  datatype Card = Card(
    name: Value,
    country: Value,
    status: string,
    active: int,
    disapproved: int,
    total: int,
    itemLevelIssues: Value)

  /** `merchant?.data?.products` */
  function ProductsOf(merchant: Value): Value {
    Field(Field(merchant, "data"), "products")
  }

  /** `extractMerchantStats(merchantData)`: `None` is the function's `null`. It looks only at the
      first product whose destination is Shopping; every count is its parsed value or 0, and the
      total is the sum of the three when all of them parse and 0 otherwise. */
  function ExtractMerchantStats(merchantData: Value): (r: Result<Option<Stats>>)
    ensures !Truthy(ProductsOf(merchantData)) ==> r == Ok(None)
    ensures Truthy(ProductsOf(merchantData)) ==>
      (r.Err? <==> FindShopping(ProductsOf(merchantData)).Err?)
    ensures Truthy(ProductsOf(merchantData)) && FindShopping(ProductsOf(merchantData)).Ok? ==>
      var statistics := Field(FindShopping(ProductsOf(merchantData)).value, "statistics");
      && (r == Ok(None) <==> !Truthy(statistics))
      && (Truthy(statistics) ==> StatsFrom(statistics, r.value.value))
  {
    var products := ProductsOf(merchantData);
    if !Truthy(products) then Ok(None)
    else match FindShopping(products)
      case Err(e) => Err(e)
      case Ok(shopping) =>
        var statistics := Field(shopping, "statistics");
        if !Truthy(statistics) then Ok(None)
        else
          var active := ParseInt(Field(statistics, "active"));
          var disapproved := ParseInt(Field(statistics, "disapproved"));
          var pending := ParseInt(Field(statistics, "pending"));
          Ok(Some(Stats(
            OrZero(active),
            OrZero(disapproved),
            OrZero(pending),
            if active.Some? && disapproved.Some? && pending.Some?
            then active.value + disapproved.value + pending.value
            else 0)))
  }

  /** What `stats` holds when read from a `statistics` object: each count parsed or 0, and the
      total the sum of the three parsed counts, or 0 as soon as one of them is `NaN`. */
  ghost predicate StatsFrom(statistics: Value, stats: Stats) {
    var active := ParseInt(Field(statistics, "active"));
    var disapproved := ParseInt(Field(statistics, "disapproved"));
    var pending := ParseInt(Field(statistics, "pending"));
    && ParsedOrZero(Field(statistics, "active"), stats.active)
    && ParsedOrZero(Field(statistics, "disapproved"), stats.disapproved)
    && ParsedOrZero(Field(statistics, "pending"), stats.pending)
    && (active.Some? && disapproved.Some? && pending.Some? ==>
          stats.total == active.value + disapproved.value + pending.value)
    && (active.None? || disapproved.None? || pending.None? ==> stats.total == 0)
  }

  /** `createMerchantCard(merchant)`. Reading `merchant.data` throws for a null merchant, and
      `products?.find` throws when `products` is neither an array nor null/undefined. */
  function CreateMerchantCard(merchant: Value): (r: Result<Card>)
    ensures r.Err? <==>
      ExtractMerchantStats(merchant).Err? || Nullish(merchant) || FindShopping(ProductsOf(merchant)).Err?
    ensures r.Ok? ==>
      var name := Field(merchant, "name");
      var accountId := Field(Field(merchant, "data"), "accountId");
      var card := r.value;
      && (Truthy(name) ==> card.name == name)
      && (!Truthy(name) ==> card.name == Str("Unknown Merchant"))
      && (Truthy(accountId) ==> card.country == accountId)
      && (!Truthy(accountId) ==> card.country == Str("Unknown ID"))
      && (card.status == "Active" <==> Truthy(Field(Field(merchant, "data"), "websiteClaimed")))
      && (card.status == "Active" || card.status == "Inactive")
    ensures r.Ok? ==>
      match ExtractMerchantStats(merchant).value
      case None => r.value.active == 0 && r.value.disapproved == 0 && r.value.total == 0
      case Some(stats) =>
        r.value.active == stats.active && r.value.disapproved == stats.disapproved &&
        r.value.total == stats.total
    ensures r.Ok? ==>
      var issues := Field(FindShopping(ProductsOf(merchant)).value, "itemLevelIssues");
      && (Truthy(issues) ==> r.value.itemLevelIssues == issues)
      && (!Truthy(issues) ==> r.value.itemLevelIssues == Arr([]))
  {
    match ExtractMerchantStats(merchant)
    case Err(e) => Err(e)
    case Ok(stats) =>
      if Nullish(merchant) then Err(TypeError)
      else
        var data := Field(merchant, "data");
        match FindShopping(Field(data, "products"))
        case Err(e) => Err(e)
        case Ok(shoppingProduct) =>
          Ok(Card(
            Or(Field(merchant, "name"), Str("Unknown Merchant")),
            Or(Field(data, "accountId"), Str("Unknown ID")),
            if Truthy(Field(data, "websiteClaimed")) then "Active" else "Inactive",
            if stats.Some? then stats.value.active else 0,
            if stats.Some? then stats.value.disapproved else 0,
            if stats.Some? then stats.value.total else 0,
            Or(Field(shoppingProduct, "itemLevelIssues"), Arr([]))))
  }

  /** `merchants.map(createMerchantCard)`: one card per merchant in order, or the first throw. */
  function CardsFor(merchants: seq<Value>): (r: Result<seq<Card>>)
    ensures r.Ok? <==> forall i :: 0 <= i < |merchants| ==> CreateMerchantCard(merchants[i]).Ok?
    ensures r.Ok? ==>
      && |r.value| == |merchants|
      && forall i :: 0 <= i < |merchants| ==> r.value[i] == CreateMerchantCard(merchants[i]).value
  {
    if |merchants| == 0 then Ok([])
    else
      var first := CreateMerchantCard(merchants[0]);
      var rest := CardsFor(merchants[1..]);
      assert forall i :: 1 <= i < |merchants| ==> merchants[i] == merchants[1..][i - 1];
      if first.Err? then Err(first.message)
      else if rest.Err? then Err(rest.message)
      else Ok([first.value] + rest.value)
  }

  /** The envelope key the front end reads: `ECCO ${region.toUpperCase()}`. */
  function RegionKey(region: string): string {
    "ECCO " + ToUpper(region)
  }

  /** `response[RegionKey(region)]?.data || []` */
  function MerchantsOf(response: Value, region: string): Value {
    Or(Field(Field(response, RegionKey(region)), "data"), Arr([]))
  }

  /** The shaping part of `updateMerchantDisplay`, given what `fetchMerchantsByRegion` returned
      (`Null` when the fetch failed). A falsy response gives no cards; otherwise there is one card
      per element of the region's `data` array, in order, unless anything throws, in which case the
      catch block yields no cards either. */
  function UpdateMerchantDisplay(response: Value, region: string): (cards: seq<Card>)
    ensures !Truthy(response) ==> cards == []
    ensures Truthy(response) && MerchantsOf(response, region).Arr? &&
            CardsFor(MerchantsOf(response, region).items).Ok? ==>
      var merchants := MerchantsOf(response, region).items;
      |cards| == |merchants| &&
      forall i :: 0 <= i < |merchants| ==> cards[i] == CreateMerchantCard(merchants[i]).value
    ensures !MerchantsOf(response, region).Arr? ==> cards == []
    ensures MerchantsOf(response, region).Arr? && !CardsFor(MerchantsOf(response, region).items).Ok? ==>
      cards == []
  {
    if !Truthy(response) then []
    else
      match MerchantsOf(response, region)
      case Arr(merchants) => (match CardsFor(merchants) case Ok(cards) => cards case Err(_) => [])
      case _ => []  // `merchants.map` is not a function: the TypeError is caught
  }

  /** A null response (the fetch wrapper's failure value) and a response without the region's
      envelope both show no cards. */
  lemma NoEnvelopeNoCards(response: Value, region: string)
    requires Nullish(response) || (response.Obj? && RegionKey(region) !in response.fields)
    ensures UpdateMerchantDisplay(response, region) == []
  {
  }

  /** A merchant record shaped as the backend's JSON for one storefront, with the Shopping
      destination's counts given as numbers. */
  function SampleMerchant(): Value {
    Obj(map[
      "name" := Str("ECCO GB"),
      "data" := Obj(map[
        "accountId" := Str("X"),
        "websiteClaimed" := Bool(true),
        "products" := Arr([Obj(map[
          "destination" := Str("Shopping"),
          "channel" := Str("online"),
          "statistics" := Obj(map["active" := Num(10), "disapproved" := Num(2), "pending" := Num(1)]),
          "itemLevelIssues" := Arr([])])])])])
  }

  /** End to end on one merchant: counts 10, 2 and 1 give a claimed, active card with total 13. */
  lemma SampleMerchantCard()
    ensures CreateMerchantCard(SampleMerchant()) ==
      Ok(Card(Str("ECCO GB"), Str("X"), "Active", 10, 2, 13, Arr([])))
  {
    var products := ProductsOf(SampleMerchant());
    assert products.Arr? && |products.items| == 1 && IsShopping(products.items[0]);
    assert FindShopping(products) == Ok(products.items[0]);
    assert ExtractMerchantStats(SampleMerchant()) == Ok(Some(Stats(10, 2, 1, 13)));
  }
}

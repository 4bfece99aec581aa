/** The values the older, DOM-building dashboard script derives before it writes HTML
    (frontend/script.js): Shopping statistics, the issue tally and border of a merchant card,
    which configured merchants get a card, and the Europe navigation handler's counts. */
module LegacyDashboard {
  import opened Json
  import opened JsOps

  // ---------------------------------------------------------------------------------------
  // getProductStatistics

  datatype ProductStatistics = ProductStatistics(approved: int, disapproved: int)

  /** `getProductStatistics(merchant)`: the Shopping product's `active` count as `approved` and
      its `disapproved` count, each parsed or 0; both are 0 when there is no Shopping product or
      it carries no statistics. */
  function GetProductStatistics(merchant: Value): (r: Result<ProductStatistics>)
    ensures r.Err? <==> FindShopping(Field(merchant, "products")).Err?
    ensures FindShopping(Field(merchant, "products")) == Ok(Undefined) ==> r == Ok(ProductStatistics(0, 0))
    ensures r.Ok? ==>
      var statistics := Field(FindShopping(Field(merchant, "products")).value, "statistics");
      && (!Truthy(statistics) ==> r.value == ProductStatistics(0, 0))
      && (Truthy(statistics) ==>
            ParsedOrZero(Field(statistics, "active"), r.value.approved) &&
            ParsedOrZero(Field(statistics, "disapproved"), r.value.disapproved))
  {
    match FindShopping(Field(merchant, "products"))
    case Err(e) => Err(e)
    case Ok(product) =>
      var stats := Or(Field(product, "statistics"), Obj(map["active" := Num(0), "disapproved" := Num(0)]));
      Ok(ProductStatistics(OrZero(ParseInt(Field(stats, "active"))), OrZero(ParseInt(Field(stats, "disapproved")))))
  }

  // ---------------------------------------------------------------------------------------
  // renderMerchantCard

  /** `...v` in an argument list: an array spreads its elements, a string its characters;
      anything else is not iterable. */
  function SpreadItems(v: Value): Result<seq<Value>> {
    match v
    case Arr(xs) => Ok(xs)
    case Str(s) => Ok(seq(|s|, i requires 0 <= i < |s| => Str([s[i]])))
    case _ => Err(TypeError)
  }

  function Prepend(xs: seq<Value>, r: Result<seq<Value>>): Result<seq<Value>> {
    match r
    case Ok(ys) => Ok(xs + ys)
    case Err(e) => Err(e)
  }

  lemma PrependEmpty(r: Result<seq<Value>>)
    ensures Prepend([], r) == r
  {
    if r.Ok? {
      assert [] + r.value == r.value;
    }
  }

  lemma PrependPrepend(xs: seq<Value>, ys: seq<Value>, r: Result<seq<Value>>)
    ensures Prepend(xs, Prepend(ys, r)) == Prepend(xs + ys, r)
  {
    if r.Ok? {
      assert xs + (ys + r.value) == (xs + ys) + r.value;
    }
  }

  /** The issues one product contributes: its `itemLevelIssues` when that is truthy, else none. */
  function OwnIssues(product: Value): Result<seq<Value>>
    requires !Nullish(product)
  {
    var own := Field(product, "itemLevelIssues");
    if Truthy(own) then SpreadItems(own) else Ok([])
  }

  /** The issue list `renderMerchantCard` accumulates: every product's `itemLevelIssues`, in
      product order; reading a property of a null product throws. */
  function IssuesOf(products: seq<Value>): Result<seq<Value>> {
    if |products| == 0 then Ok([])
    else if Nullish(products[0]) then Err(TypeError)
    else match OwnIssues(products[0])
      case Err(e) => Err(e)
      case Ok(xs) => Prepend(xs, IssuesOf(products[1..]))
  }

  /** The `reduce` of `renderMerchantCard`, which pushes each product's issues onto one
      accumulator array. */
  method CollectIssues(products: seq<Value>) returns (r: Result<seq<Value>>)
    ensures r == IssuesOf(products)
  {
    var issues: seq<Value> := [];
    var i := 0;
    assert products[0..] == products;
    PrependEmpty(IssuesOf(products));
    while i < |products|
      invariant 0 <= i <= |products|
      invariant IssuesOf(products) == Prepend(issues, IssuesOf(products[i..]))
    {
      var product := products[i];
      assert products[i..][0] == product && products[i..][1..] == products[i + 1..];
      if Nullish(product) {
        return Err(TypeError);
      }
      var own := Field(product, "itemLevelIssues");
      if Truthy(own) {
        var spread := SpreadItems(own);
        if spread.Err? {
          return Err(spread.message);
        }
        PrependPrepend(issues, spread.value, IssuesOf(products[i + 1..]));
        issues := issues + spread.value;
      } else {
        PrependEmpty(IssuesOf(products[i + 1..]));
      }
      i := i + 1;
    }
    assert products[i..] == [];
    assert issues + [] == issues;
    r := Ok(issues);
  }

  /** The issues of a product list followed by another are the issues of the first list followed
      by those of the second: the accumulation keeps product order. */
  lemma {:induction false} IssuesOfAppend(front: seq<Value>, back: seq<Value>)
    ensures IssuesOf(front + back) ==
      match IssuesOf(front)
      case Err(e) => Err(e)
      case Ok(xs) => Prepend(xs, IssuesOf(back))
  {
    if |front| > 0 {
      assert (front + back)[0] == front[0];
      assert (front + back)[1..] == front[1..] + back;
      IssuesOfAppend(front[1..], back);
      if !Nullish(front[0]) && OwnIssues(front[0]).Ok? && IssuesOf(front[1..]).Ok? {
        PrependPrepend(OwnIssues(front[0]).value, IssuesOf(front[1..]).value, IssuesOf(back));
      }
    } else {
      assert front + back == back;
      PrependEmpty(IssuesOf(back));
    }
  }

  /** A single product contributes exactly its own issue list, unchanged, or nothing when it has
      none. */
  lemma IssuesOfOne(product: Value)
    requires !Nullish(product)
    ensures IssuesOf([product]) == OwnIssues(product)
    ensures Field(product, "itemLevelIssues").Arr? ==> IssuesOf([product]) == Ok(Field(product, "itemLevelIssues").items)
    ensures !Truthy(Field(product, "itemLevelIssues")) ==> IssuesOf([product]) == Ok([])
  {
    assert [product][1..] == [];
    match OwnIssues(product)
    case Err(e) =>
    case Ok(xs) => assert xs + [] == xs;
  }

  predicate IsDisapproved(issue: Value) {
    Field(issue, "servability") == Str("disapproved")
  }

  /** The number of issues whose servability is 'disapproved'. */
  function DisapprovedTally(issues: seq<Value>): nat {
    if |issues| == 0 then 0
    else (if IsDisapproved(issues[0]) then 1 else 0) + DisapprovedTally(issues[1..])
  }

  /** The tally of a list split in two is the sum of the tallies of its parts. */
  lemma {:induction false} DisapprovedTallyAppend(front: seq<Value>, back: seq<Value>)
    ensures DisapprovedTally(front + back) == DisapprovedTally(front) + DisapprovedTally(back)
  {
    if |front| > 0 {
      assert (front + back)[0] == front[0];
      assert (front + back)[1..] == front[1..] + back;
      DisapprovedTallyAppend(front[1..], back);
    } else {
      assert front + back == back;
    }
  }

  /** `issues.filter(issue => issue.servability === 'disapproved').length` */
  function CriticalCount(issues: seq<Value>): (r: Result<nat>)
    ensures r.Ok? ==> r.value == DisapprovedTally(issues)
    ensures r.Err? <==> exists i :: 0 <= i < |issues| && Nullish(issues[i])
    ensures r.Ok? ==> r.value <= |issues|
    ensures r.Ok? ==> (r.value == 0 <==> forall i :: 0 <= i < |issues| ==> !IsDisapproved(issues[i]))
    ensures r.Ok? ==> (r.value == |issues| <==> forall i :: 0 <= i < |issues| ==> IsDisapproved(issues[i]))
  {
    if |issues| == 0 then Ok(0)
    else
      var rest := CriticalCount(issues[1..]);
      assert forall i :: 1 <= i < |issues| ==> issues[i] == issues[1..][i - 1];
      if Nullish(issues[0]) then Err(TypeError)
      else match rest
        case Err(e) => Err(e)
        case Ok(n) => Ok(if IsDisapproved(issues[0]) then n + 1 else n)
  }

  /** A single issue counts 1 exactly when its servability is 'disapproved'. */
  lemma CriticalCountOne(issue: Value)
    requires !Nullish(issue)
    ensures CriticalCount([issue]) == Ok(if IsDisapproved(issue) then 1 else 0)
  {
    assert [issue][1..] == [];
  }

  const Red := "#f44336"
  const Green := "#4CAF50"

  /** The values a card of `renderMerchantCard` shows: the raw first-product counts, the number
      of critical issues, the heading's border colour and whether the attention banner appears. */
  datatype RenderedCard = RenderedCard(
    name: string,
    active: Value,
    disapproved: Value,
    criticalIssues: nat,
    borderColor: string,
    requiresAttention: bool)

  /** `renderMerchantCard(merchantName, merchantData)` with the HTML left out. The counts come
      from the first product's statistics; the critical count is the number of aggregated issues
      whose servability is 'disapproved', and both the red border and the "Requires immediate
      attention" banner appear exactly when it is positive. */
  function RenderMerchantCard(merchantName: string, merchantData: Value): (r: Result<RenderedCard>)
    ensures Nullish(merchantData) || !Field(merchantData, "products").Arr? ==> r.Err?
    ensures r.Ok? ==>
      var products := Field(merchantData, "products").items;
      var card := r.value;
      && |products| > 0
      && IssuesOf(products).Ok?
      && CriticalCount(IssuesOf(products).value) == Ok(card.criticalIssues)
      && card.criticalIssues <= |IssuesOf(products).value|
      && card.name == merchantName
      && card.active == Field(Field(products[0], "statistics"), "active")
      && card.disapproved == Field(Field(products[0], "statistics"), "disapproved")
      && (card.requiresAttention <==> card.criticalIssues > 0)
      && (card.borderColor == Red <==> card.criticalIssues > 0)
      && (card.borderColor == Red || card.borderColor == Green)
  {
    if Nullish(merchantData) || !Field(merchantData, "products").Arr? then
      Err(TypeError)  // `merchantData.products[0].statistics` or `products.reduce` throws
    else
      var products := Field(merchantData, "products").items;
      if |products| == 0 || Nullish(products[0]) then Err(TypeError)  // `.statistics` of undefined
      else
        var stats := Field(products[0], "statistics");
        match IssuesOf(products)
        case Err(e) => Err(e)
        case Ok(allIssues) =>
          match CriticalCount(allIssues)
          case Err(e) => Err(e)
          case Ok(critical) =>
            if Nullish(stats) then Err(TypeError)  // `${stats.active}`
            else Ok(RenderedCard(
              merchantName,
              Field(stats, "active"),
              Field(stats, "disapproved"),
              critical,
              if critical > 0 then Red else Green,
              critical > 0))
  }

  /** `renderMerchantCard` throws exactly when the data is null, its products are not an array
      or are empty, the first product or its statistics are null, or the issue tally throws. */
  lemma RenderMerchantCardThrows(merchantName: string, merchantData: Value)
    ensures RenderMerchantCard(merchantName, merchantData).Err? <==>
      || Nullish(merchantData)
      || !Field(merchantData, "products").Arr?
      || var products := Field(merchantData, "products").items;
         || |products| == 0
         || Nullish(products[0])
         || IssuesOf(products).Err?
         || CriticalCount(IssuesOf(products).value).Err?
         || Nullish(Field(products[0], "statistics"))
  {
  }

  // ---------------------------------------------------------------------------------------
  // setupMenuItem: which configured merchants get a card

  datatype ConfiguredMerchant = ConfiguredMerchant(accountId: string, merchantId: Option<string>, name: string)

  const GlobalConfig: seq<ConfiguredMerchant> := [
    ConfiguredMerchant("6000402", None, "ECCO US"),
    ConfiguredMerchant("126580264", None, "ECCO CA"),
    ConfiguredMerchant("124463984", None, "ECCO AU")
  ]

  const EuropeConfig: seq<ConfiguredMerchant> := [
    ConfiguredMerchant("117117533", Some("115079344"), "ECCO GB"),
    ConfiguredMerchant("117117533", Some("117076029"), "ECCO DE"),
    ConfiguredMerchant("117117533", Some("115432148"), "ECCO DK"),
    ConfiguredMerchant("117117533", Some("115975194"), "ECCO FR"),
    ConfiguredMerchant("117117533", Some("117088301"), "ECCO NL")
  ]

  /** `MERCHANT_CONFIG[region]`; `None` is `undefined`. */
  function MerchantConfig(region: string): Option<seq<ConfiguredMerchant>> {
    if region == "global" then Some(GlobalConfig)
    else if region == "europe" then Some(EuropeConfig)
    else None
  }

  /** The configured merchants whose entry in `data` is truthy, in configuration order. */
  function PresentMerchants(configs: seq<ConfiguredMerchant>, data: Value): (r: seq<ConfiguredMerchant>)
    ensures |r| <= |configs|
  {
    if |configs| == 0 then []
    else
      var rest := PresentMerchants(configs[1..], data);
      if Truthy(Field(data, configs[0].name)) then [configs[0]] + rest else rest
  }

  /** A configured merchant is present exactly when the data has a truthy entry under its name. */
  lemma {:induction false} PresentMerchantsMembers(configs: seq<ConfiguredMerchant>, data: Value)
    ensures forall c :: c in PresentMerchants(configs, data) <==> c in configs && Truthy(Field(data, c.name))
  {
    if |configs| > 0 {
      PresentMerchantsMembers(configs[1..], data);
      assert forall c :: c in configs <==> c == configs[0] || c in configs[1..];
    }
  }

  /** No configured merchant is present when no configured name has a truthy entry. */
  lemma {:induction false} NothingPresent(configs: seq<ConfiguredMerchant>, data: Value)
    requires forall c :: c in configs ==> !Truthy(Field(data, c.name))
    ensures PresentMerchants(configs, data) == []
  {
    if |configs| > 0 {
      assert forall c :: c in configs[1..] ==> c in configs;
      NothingPresent(configs[1..], data);
    }
  }

  /** Presence is decided merchant by merchant, so the present merchants of a configuration
      that is split in two are those of the first part followed by those of the second. */
  lemma {:induction false} PresentMerchantsAppend(front: seq<ConfiguredMerchant>, back: seq<ConfiguredMerchant>, data: Value)
    ensures PresentMerchants(front + back, data) == PresentMerchants(front, data) + PresentMerchants(back, data)
  {
    if |front| > 0 {
      assert (front + back)[0] == front[0];
      assert (front + back)[1..] == front[1..] + back;
      PresentMerchantsAppend(front[1..], back, data);
    } else {
      assert front + back == back;
    }
  }

  /** `configs.map(config => data[config.name] ? renderMerchantCard(...) : '').filter(html => html)`:
      every rendered card is non-empty HTML, so the filter keeps exactly the present merchants. */
  function RenderPresent(configs: seq<ConfiguredMerchant>, data: Value): (r: Result<seq<RenderedCard>>)
    ensures PresentMerchants(configs, data) == [] ==> r == Ok([])
    ensures r.Ok? ==>
      var present := PresentMerchants(configs, data);
      |r.value| == |present| &&
      forall i :: 0 <= i < |present| ==> r.value[i].name == present[i].name
  {
    if |configs| == 0 then Ok([])
    else
      var rest := RenderPresent(configs[1..], data);
      var merchantData := Field(data, configs[0].name);
      if rest.Err? then Err(rest.message)
      else if !Truthy(merchantData) then rest
      else
        var card := RenderMerchantCard(configs[0].name, merchantData);
        if card.Err? then Err(card.message)
        else
          assert PresentMerchants(configs, data) == [configs[0]] + PresentMerchants(configs[1..], data);
          Ok([card.value] + rest.value)
  }

  /** The card `renderMerchantCard` builds for a present merchant. */
  function CardFor(data: Value, merchant: ConfiguredMerchant): Result<RenderedCard> {
    RenderMerchantCard(merchant.name, Field(data, merchant.name))
  }

  /** Every merchant's card in the list renders without throwing. */
  ghost predicate AllCardsRender(data: Value, merchants: seq<ConfiguredMerchant>) {
    forall i :: 0 <= i < |merchants| ==> CardFor(data, merchants[i]).Ok?
  }

  /** Every card of a non-empty merchant list renders exactly when the first one's card and
      every later one's do. */
  lemma CardsOkCons(data: Value, merchants: seq<ConfiguredMerchant>, later: seq<ConfiguredMerchant>)
    requires |merchants| > 0 && merchants[1..] == later
    ensures AllCardsRender(data, merchants) <==> CardFor(data, merchants[0]).Ok? && AllCardsRender(data, later)
  {
    if AllCardsRender(data, later) {
      forall i | 0 < i < |merchants|
        ensures CardFor(data, merchants[i]).Ok?
      {
        assert merchants[i] == later[i - 1];
      }
    }
  }

  /** Rendering succeeds exactly when every present merchant's card does. */
  lemma {:induction false} RenderPresentSucceeds(configs: seq<ConfiguredMerchant>, data: Value)
    ensures RenderPresent(configs, data).Ok? <==> AllCardsRender(data, PresentMerchants(configs, data))
  {
    if |configs| > 0 {
      RenderPresentSucceeds(configs[1..], data);
      var rest := PresentMerchants(configs[1..], data);
      if Truthy(Field(data, configs[0].name)) {
        assert PresentMerchants(configs, data)[1..] == rest;
        CardsOkCons(data, PresentMerchants(configs, data), rest);
        assert RenderPresent(configs, data).Ok? <==> RenderPresent(configs[1..], data).Ok? && CardFor(data, configs[0]).Ok?;
      } else {
        assert PresentMerchants(configs, data) == rest;
        assert RenderPresent(configs, data).Ok? == RenderPresent(configs[1..], data).Ok?;
      }
    }
  }

  /** The rendered cards are the present merchants' cards, in configuration order. */
  lemma {:induction false} RenderPresentCards(configs: seq<ConfiguredMerchant>, data: Value)
    requires RenderPresent(configs, data).Ok?
    ensures var present := PresentMerchants(configs, data);
      forall i :: 0 <= i < |present| ==>
        CardFor(data, present[i]).Ok? && RenderPresent(configs, data).value[i] == CardFor(data, present[i]).value
  {
    if |configs| > 0 {
      var rest := PresentMerchants(configs[1..], data);
      var present := PresentMerchants(configs, data);
      var restCards := RenderPresent(configs[1..], data);
      assert restCards.Ok?;
      RenderPresentCards(configs[1..], data);
      if Truthy(Field(data, configs[0].name)) {
        var card := CardFor(data, configs[0]);
        assert present == [configs[0]] + rest;
        assert card.Ok?;
        var cards := [card.value] + restCards.value;
        assert RenderPresent(configs, data) == Ok(cards);
        forall i | 0 <= i < |present|
          ensures CardFor(data, present[i]).Ok? && cards[i] == CardFor(data, present[i]).value
        {
          if i > 0 {
            assert present[i] == rest[i - 1];
            assert cards[i] == restCards.value[i - 1];
          }
        }
      } else {
        assert present == rest;
      }
    }
  }

  datatype MenuContent = NoMerchantsFound | MerchantCards(cards: seq<RenderedCard>) | ErrorLoading

  /** What the region's click handler puts in the card container once `fetchRegionData` has
      settled (`fetched` is its outcome): cards for the configured merchants present in the data,
      in configuration order, or "No merchants found" exactly when none is present. */
  function MenuSelection(region: string, fetched: Result<Value>): (v: MenuContent)
    ensures fetched.Err? || MerchantConfig(region).None? ==> v == ErrorLoading
    ensures fetched.Ok? && MerchantConfig(region).Some? ==>
      v == MenuFor(MerchantConfig(region).value, fetched.value)
  {
    match fetched
    case Err(_) => ErrorLoading
    case Ok(data) =>
      match MerchantConfig(region)
      case None => ErrorLoading  // `MERCHANT_CONFIG[region].map` throws
      case Some(configs) => MenuFor(configs, data)
  }

  /** The container's content for one region's configuration and the fetched data. */
  function MenuFor(configs: seq<ConfiguredMerchant>, data: Value): (v: MenuContent)
    requires |configs| > 0
    ensures v == NoMerchantsFound <==> !Nullish(data) && PresentMerchants(configs, data) == []
    ensures v == ErrorLoading <==> Nullish(data) || RenderPresent(configs, data).Err?
    ensures v.MerchantCards? ==> v.cards == RenderPresent(configs, data).value
    ensures v.MerchantCards? ==>
      && var present := PresentMerchants(configs, data);
      && |v.cards| == |present| > 0
      && forall i :: 0 <= i < |present| ==> v.cards[i].name == present[i].name
  {
    if Nullish(data) then ErrorLoading  // `data[config.name]` throws
    else match RenderPresent(configs, data)
      case Err(_) => ErrorLoading
      case Ok(cards) => if cards == [] then NoMerchantsFound else MerchantCards(cards)
  }


  // ---------------------------------------------------------------------------------------
  // The Europe navigation handler

  /** The four figures a navigation card shows. */
  datatype NavStats = NavStats(approved: Value, disapproved: Value, pending: Value, expired: Value)

  /** A figure as the card shows it: the raw statistic when truthy, otherwise 0. */
  ghost predicate ShownOrZero(raw: Value, shown: Value) {
    && (Truthy(raw) ==> shown == raw)
    && (!Truthy(raw) ==> shown == Num(0))
  }

  /** The statistics of one navigation card: `merchantData.products[0]?.statistics` or all-zero
      defaults, each figure shown as `stats.x || 0`. Only the first product is looked at. */
  function NavStatsOf(merchantData: Value): (r: Result<NavStats>)
    ensures r.Err? <==> Nullish(merchantData) || Nullish(Field(merchantData, "products"))
    ensures r.Ok? ==>
      var statistics := Field(Index0(Field(merchantData, "products")), "statistics");
      && (Truthy(statistics) ==>
            && ShownOrZero(Field(statistics, "active"), r.value.approved)
            && ShownOrZero(Field(statistics, "disapproved"), r.value.disapproved)
            && ShownOrZero(Field(statistics, "pending"), r.value.pending)
            && ShownOrZero(Field(statistics, "expiring"), r.value.expired))
      && (!Truthy(statistics) ==> r.value == NavStats(Num(0), Num(0), Num(0), Num(0)))
    ensures r.Ok? ==>
      && (Truthy(r.value.approved) || r.value.approved == Num(0))
      && (Truthy(r.value.disapproved) || r.value.disapproved == Num(0))
      && (Truthy(r.value.pending) || r.value.pending == Num(0))
      && (Truthy(r.value.expired) || r.value.expired == Num(0))
  {
    if Nullish(merchantData) then Err(TypeError)
    else
      var products := Field(merchantData, "products");
      if Nullish(products) then Err(TypeError)  // `products[0]` of undefined
      else
        var stats := Or(Field(Index0(products), "statistics"),
          Obj(map["active" := Num(0), "disapproved" := Num(0), "expiring" := Num(0), "pending" := Num(0)]));
        Ok(NavStats(
          Or(Field(stats, "active"), Num(0)),
          Or(Field(stats, "disapproved"), Num(0)),
          Or(Field(stats, "pending"), Num(0)),
          Or(Field(stats, "expiring"), Num(0))))
  }

  datatype NavView = NavNoMerchants | NavCards(cards: map<string, NavStats>) | NavError

  /** What the Europe navigation handler shows for the response of
      `GET /api/merchants/europe` (`fetched`): one card per entry of `data["ECCO EU"]`, or
      "No merchants found for Europe" when that entry is missing or has no keys. */
  function NavEuropeView(fetched: Result<Value>): (v: NavView)
    ensures fetched.Err? ==> v == NavError
    ensures v == NavNoMerchants <==>
      fetched.Ok? && (!Truthy(fetched.value) || !Truthy(Field(fetched.value, "ECCO EU")) ||
                      KeyCount(Field(fetched.value, "ECCO EU")) == 0)
    ensures v == NavError <==>
      || fetched.Err?
      || (&& Truthy(fetched.value)
          && Truthy(Field(fetched.value, "ECCO EU"))
          && KeyCount(Field(fetched.value, "ECCO EU")) > 0
          && exists k :: k in Entries(Field(fetched.value, "ECCO EU")) &&
                         NavStatsOf(Entries(Field(fetched.value, "ECCO EU"))[k]).Err?)
    ensures v.NavCards? ==>
      var entries := Entries(Field(fetched.value, "ECCO EU"));
      && v.cards.Keys == entries.Keys
      && forall k :: k in entries ==> NavStatsOf(entries[k]) == Ok(v.cards[k])
  {
    match fetched
    case Err(_) => NavError
    case Ok(data) =>
      if !Truthy(data) then NavNoMerchants
      else
        var envelope := Field(data, "ECCO EU");
        if !Truthy(envelope) || KeyCount(envelope) == 0 then NavNoMerchants
        else
          var entries := Entries(envelope);
          if exists k | k in entries.Keys :: NavStatsOf(entries[k]).Err? then NavError
          else NavCards(map k | k in entries.Keys :: NavStatsOf(entries[k]).value)
  }
}

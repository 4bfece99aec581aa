/** The filtering helpers of the older dashboard script (frontend/script.js): the European
    merchant filter, the per-merchant product filter applied to a `/api/merchants/list`
    response, and the combination of the European summary results. */
module LegacyFilters {
  import opened Json
  import opened JsOps

  /** The multi-client account every European storefront belongs to (`ACCOUNT_ID`). */
  const AccountId := "117117533"

  const NoEuropeanData := "No European merchant data available"

  predicate HasMcaAccount(v: Value) {
    Field(v, "accountId") == Str(AccountId)
  }

  // ---------------------------------------------------------------------------------------
  // filterMerchantData

  /** The table `filterMerchantData` filters by: merchant name to merchant id. */
  const EuropeanMerchantIds: map<string, string> := map[
    "ECCO GB" := "115079344",
    "ECCO DE" := "117076029",
    "ECCO FR" := "115975194"
  ]

  /** The entries the European filter keeps: listed merchants of the multi-client account. */
  function EuropeanSelection(m: map<string, Value>): map<string, Value> {
    map k | k in m && k in EuropeanMerchantIds && HasMcaAccount(m[k]) :: m[k]
  }

  /** The filter keeps only listed European merchants of the multi-client account, and only
      keys the input has, with their values unchanged. */
  lemma EuropeanSelectionKeys(m: map<string, Value>)
    ensures EuropeanSelection(m).Keys <= m.Keys
    ensures EuropeanSelection(m).Keys <= {"ECCO GB", "ECCO DE", "ECCO FR"}
    ensures forall k :: k in EuropeanSelection(m) ==>
      EuropeanSelection(m)[k] == m[k] && HasMcaAccount(m[k])
    ensures forall k :: k in m && k in EuropeanMerchantIds && HasMcaAccount(m[k]) ==>
      k in EuropeanSelection(m)
  {
  }

  /** `filterMerchantData(region, data)`: outside 'europe' the data is returned untouched. For
      'europe' it keeps the listed merchants whose `accountId` is the multi-client account's,
      and falls back to the original data when none qualifies. `Object.keys(null)` and reading
      `accountId` of a listed merchant whose value is null both throw. Keys are checked against
      the table's own entries (see the as-written model below). */
  method FilterMerchantData(region: string, data: Value) returns (r: Result<Value>)
    ensures region != "europe" ==> r == Ok(data)
    ensures region == "europe" && Nullish(data) ==> r == Err(TypeError)
    ensures region == "europe" && !Nullish(data) && !data.Obj? ==> r == Ok(data)
    ensures region == "europe" && data.Obj? ==>
      if exists k :: k in data.fields && k in EuropeanMerchantIds && Nullish(data.fields[k])
      then r == Err(TypeError)
      else r == Ok(if EuropeanSelection(data.fields) == map[] then data else Obj(EuropeanSelection(data.fields)))
  {
    if region != "europe" {
      return Ok(data);
    }
    if Nullish(data) {
      return Err(TypeError);
    }
    if !data.Obj? {
      // the keys of an array, string, number or boolean are never merchant names
      return Ok(data);
    }
    var m := data.fields;
    var filtered: map<string, Value> := map[];
    var remaining := m.Keys;
    while remaining != {}
      invariant remaining <= m.Keys
      invariant forall k :: k in m.Keys - remaining && k in EuropeanMerchantIds ==> !Nullish(m[k])
      invariant filtered ==
        map k | k in m.Keys - remaining && k in EuropeanMerchantIds && HasMcaAccount(m[k]) :: m[k]
      decreases remaining
    {
      var key :| key in remaining;
      if key in EuropeanMerchantIds {
        if Nullish(m[key]) {
          return Err(TypeError);
        }
        if HasMcaAccount(m[key]) {
          filtered := filtered[key := m[key]];
        }
      }
      remaining := remaining - {key};
    }
    assert m.Keys - remaining == m.Keys;
    if filtered == map[] {
      return Ok(data);
    }
    return Ok(Obj(filtered));
  }

  /** The names every plain object inherits from `Object.prototype`; reading any of them from
      the table object yields a function or an object, which is truthy. */
  const ObjectPrototypeNames: set<string> := {
    "constructor", "hasOwnProperty", "isPrototypeOf", "propertyIsEnumerable", "toLocaleString",
    "toString", "valueOf", "__proto__", "__defineGetter__", "__defineSetter__",
    "__lookupGetter__", "__lookupSetter__"
  }

  /** `europeanMerchants[key]` is truthy. */
  predicate ListedAsWritten(key: string) {
    key in EuropeanMerchantIds || key in ObjectPrototypeNames
  }

  /** `filterMerchantData` as written: the filter tests `europeanMerchants[key]`, which is also
      truthy for inherited names. Assigning `obj['__proto__']` replaces the accumulator's
      prototype instead of adding a key, so that name never appears in the result. */
  function FilterMerchantDataAsWritten(region: string, data: Value): Result<Value> {
    if region != "europe" then Ok(data)
    else if Nullish(data) then Err(TypeError)
    else if !data.Obj? then Ok(data)
    else if exists k | k in data.fields.Keys :: ListedAsWritten(k) && Nullish(data.fields[k]) then Err(TypeError)
    else
      var selection := map k | k in data.fields && ListedAsWritten(k) && k != "__proto__" &&
                               HasMcaAccount(data.fields[k]) :: data.fields[k];
      if selection == map[] then Ok(data) else Ok(Obj(selection))
  }

  /** A response holding a real European merchant and an entry under the key "constructor",
      both in the multi-client account. */
  function PrototypeKeyInput(): Value {
    Obj(map[
      "ECCO GB" := Obj(map["accountId" := Str(AccountId)]),
      "constructor" := Obj(map["accountId" := Str(AccountId)])])
  }

  /** As written, the European filter keeps the "constructor" entry, which names no merchant;
      filtering by the table's own keys keeps only "ECCO GB". */
  lemma PrototypeKeyPassesFilter()
    ensures FilterMerchantDataAsWritten("europe", PrototypeKeyInput()) == Ok(PrototypeKeyInput())
    ensures "constructor" in PrototypeKeyInput().fields && "constructor" !in EuropeanMerchantIds
    ensures EuropeanSelection(PrototypeKeyInput().fields) ==
      map["ECCO GB" := Obj(map["accountId" := Str(AccountId)])]
  {
    var m := PrototypeKeyInput().fields;
    assert HasMcaAccount(m["ECCO GB"]) && HasMcaAccount(m["constructor"]);
    assert ListedAsWritten("constructor");
    var selection := map k | k in m && ListedAsWritten(k) && k != "__proto__" && HasMcaAccount(m[k]) :: m[k];
    assert selection == m;
    assert !exists k | k in m.Keys :: ListedAsWritten(k) && Nullish(m[k]);
    assert EuropeanSelection(m).Keys == {"ECCO GB"};
  }

  // ---------------------------------------------------------------------------------------
  // fetchMerchantStatus: the product filter

  /** A product of the requested country on the Shopping destination's online channel. */
  predicate IsListedProduct(product: Value, countryCode: string) {
    && Field(product, "country") == Str(countryCode)
    && Field(product, "destination") == Str("Shopping")
    && Field(product, "channel") == Str("online")
  }

  /** `products.filter(...)`: the listed products in order; reading a property of a null
      product throws. */
  function FilterProducts(products: seq<Value>, countryCode: string): (r: Result<seq<Value>>)
    ensures r.Err? <==> exists i :: 0 <= i < |products| && Nullish(products[i])
    ensures r.Ok? ==> |r.value| <= |products|
  {
    if |products| == 0 then Ok([])
    else
      var rest := FilterProducts(products[1..], countryCode);
      assert forall i :: 1 <= i < |products| ==> products[i] == products[1..][i - 1];
      if Nullish(products[0]) then Err(TypeError)
      else match rest
        case Err(e) => Err(e)
        case Ok(kept) => Ok(if IsListedProduct(products[0], countryCode) then [products[0]] + kept else kept)
  }

  /** The filter keeps exactly the listed products it is given. */
  lemma {:induction false} FilterProductsMembers(products: seq<Value>, countryCode: string)
    requires FilterProducts(products, countryCode).Ok?
    ensures forall p :: p in FilterProducts(products, countryCode).value <==> p in products && IsListedProduct(p, countryCode)
  {
    if |products| > 0 {
      FilterProductsMembers(products[1..], countryCode);
      assert forall p :: p in products <==> p == products[0] || p in products[1..];
    }
  }

  /** One filter step: a non-null first product is kept when it is listed, ahead of what the
      filter keeps from the rest. */
  lemma FilterProductsStep(products: seq<Value>, countryCode: string)
    requires |products| > 0 && !Nullish(products[0]) && FilterProducts(products[1..], countryCode).Ok?
    ensures FilterProducts(products, countryCode) ==
      Ok((if IsListedProduct(products[0], countryCode) then [products[0]] else []) +
         FilterProducts(products[1..], countryCode).value)
  {
    var kept := FilterProducts(products[1..], countryCode).value;
    if !IsListedProduct(products[0], countryCode) {
      assert [] + kept == kept;
    }
  }

  /** The filter keeps product order: filtering a list split in two gives the products kept
      from the first part followed by those kept from the second. */
  lemma {:induction false} FilterProductsAppend(front: seq<Value>, back: seq<Value>, countryCode: string)
    requires FilterProducts(front, countryCode).Ok? && FilterProducts(back, countryCode).Ok?
    ensures FilterProducts(front + back, countryCode) ==
      Ok(FilterProducts(front, countryCode).value + FilterProducts(back, countryCode).value)
  {
    if |front| > 0 {
      var whole := front + back;
      assert whole[0] == front[0];
      assert whole[1..] == front[1..] + back;
      var head: seq<Value> := if IsListedProduct(front[0], countryCode) then [front[0]] else [];
      var rest := FilterProducts(front[1..], countryCode);
      assert !Nullish(front[0]) && rest.Ok?;
      FilterProductsStep(front, countryCode);
      FilterProductsAppend(front[1..], back, countryCode);
      var kept := FilterProducts(back, countryCode).value;
      FilterProductsStep(whole, countryCode);
      assert head + (rest.value + kept) == (head + rest.value) + kept;
    } else {
      assert front + back == back;
      assert FilterProducts(front, countryCode).value == [];
      assert [] + FilterProducts(back, countryCode).value == FilterProducts(back, countryCode).value;
    }
  }

  /** The shaping part of `fetchMerchantStatus(merchantId, countryCode)`, given the response of
      `GET /api/merchants/list?merchantId=...` (`Err` when the request failed). `None` is the
      function's `null`: the merchant is missing or belongs to another account, or something
      threw and was caught. Otherwise every other field is kept and `products` keeps exactly
      the listed products, in order. */
  function ShapeMerchantStatus(response: Result<Value>, merchantId: string, countryCode: string): (r: Option<Value>)
    ensures r.Some? ==>
      && response.Ok? && !Nullish(response.value)
      && var merchantData := Field(response.value, merchantId);
      && merchantData.Obj? && HasMcaAccount(merchantData)
      && Field(merchantData, "products").Arr?
      && FilterProducts(Field(merchantData, "products").items, countryCode).Ok?
      && r.value.Obj?
      && r.value.fields.Keys == merchantData.fields.Keys + {"products"}
      && (forall k :: k in merchantData.fields && k != "products" ==> r.value.fields[k] == merchantData.fields[k])
      && r.value.fields["products"] == Arr(FilterProducts(Field(merchantData, "products").items, countryCode).value)
    ensures response.Err? || Nullish(response.value) || !HasMcaAccount(Field(response.value, merchantId)) ==>
      r.None?
    ensures response.Ok? && !Nullish(response.value) && HasMcaAccount(Field(response.value, merchantId)) ==>
      var products := Field(Field(response.value, merchantId), "products");
      (r.None? <==> !products.Arr? || FilterProducts(products.items, countryCode).Err?)
  {
    match response
    case Err(_) => None
    case Ok(data) =>
      if Nullish(data) then None  // `data[merchantId]` throws
      else
        var merchantData := Field(data, merchantId);
        if !Truthy(merchantData) || !HasMcaAccount(merchantData) then None
        else match Field(merchantData, "products")
          case Arr(products) =>
            (match FilterProducts(products, countryCode)
             case Ok(kept) => Some(Obj(merchantData.fields["products" := Arr(kept)]))
             case Err(_) => None)
          case _ => None  // `products.filter` is not a function, or `products` is undefined
  }

  // ---------------------------------------------------------------------------------------
  // renderSummaryData: the European summary

  datatype EuropeanMerchant = EuropeanMerchant(name: string, id: string, country: string)

  /** `EUROPEAN_MERCHANTS`, in the order `Object.entries` lists it. */
  const EuropeanMerchants: seq<EuropeanMerchant> := [
    EuropeanMerchant("ECCO GB", "115079344", "GB"),
    EuropeanMerchant("ECCO DE", "117076029", "DE"),
    EuropeanMerchant("ECCO FR", "115975194", "FR")
  ]

  /** `value.length` where only arrays and strings have one; `undefined > 0` is false. */
  function LengthOf(v: Value): nat {
    match v
    case Arr(xs) => |xs|
    case Str(s) => |s|
    case _ => 0
  }

  /** One merchant's promise result: `[name, data]` when the shaped data has products, else null. */
  function SummaryEntry(name: string, shaped: Option<Value>): (r: Option<(string, Value)>)
    ensures r.Some? <==> shaped.Some? && Truthy(shaped.value) && LengthOf(Field(shaped.value, "products")) > 0
    ensures r.Some? ==> r.value == (name, shaped.value)
  {
    match shaped
    case None => None
    case Some(data) =>
      var products := Field(data, "products");
      if Truthy(data) && Truthy(products) && LengthOf(products) > 0 then Some((name, data)) else None
  }

  /** The object the `reduce` builds: `acc[name] = data` for every non-null result, in order, so
      a later result for the same name overwrites an earlier one. */
  function Combined(results: seq<Option<(string, Value)>>): map<string, Value> {
    if |results| == 0 then map[]
    else
      var acc := Combined(results[..|results| - 1]);
      match results[|results| - 1]
      case None => acc
      case Some(entry) => acc[entry.0 := entry.1]
  }

  /** The combined object has exactly the names of the non-null results as keys. */
  lemma {:induction false} CombinedKeys(results: seq<Option<(string, Value)>>)
    ensures Combined(results).Keys == set i | 0 <= i < |results| && results[i].Some? :: results[i].value.0
  {
    if |results| > 0 {
      var front := results[..|results| - 1];
      CombinedKeys(front);
      assert forall i :: 0 <= i < |front| ==> front[i] == results[i];
    }
  }

  /** With distinct names, each non-null result is found in the combined object under its name. */
  lemma {:induction false} CombinedValues(results: seq<Option<(string, Value)>>, i: int)
    requires 0 <= i < |results| && results[i].Some?
    requires forall j :: 0 <= j < |results| && results[j].Some? && j != i ==>
      results[j].value.0 != results[i].value.0
    ensures results[i].value.0 in Combined(results)
    ensures Combined(results)[results[i].value.0] == results[i].value.1
  {
    var front := results[..|results| - 1];
    if i < |results| - 1 {
      assert forall j :: 0 <= j < |front| ==> front[j] == results[j];
      CombinedValues(front, i);
    }
  }

  /** The combining step of `renderSummaryData`: the `filter` and `reduce` over the promise
      results, and the error thrown when nothing is left. */
  method CombineSummary(results: seq<Option<(string, Value)>>) returns (r: Result<map<string, Value>>)
    ensures r == if Combined(results) == map[] then Err(NoEuropeanData) else Ok(Combined(results))
  {
    var acc: map<string, Value> := map[];
    for i := 0 to |results|
      invariant acc == Combined(results[..i])
    {
      assert results[..i + 1][..i] == results[..i];
      if results[i].Some? {
        var (name, data) := results[i].value;
        acc := acc[name := data];
      }
    }
    assert results[..|results|] == results;
    if acc == map[] {
      return Err(NoEuropeanData);
    }
    return Ok(acc);
  }

  /** The promise results for the three European merchants, given each merchant's response to
      `GET /api/merchants/list?merchantId=<id>`. */
  function SummaryResults(responses: string -> Result<Value>): (r: seq<Option<(string, Value)>>)
    ensures |r| == |EuropeanMerchants|
  {
    seq(|EuropeanMerchants|, i requires 0 <= i < |EuropeanMerchants| =>
      var merchant := EuropeanMerchants[i];
      SummaryEntry(merchant.name, ShapeMerchantStatus(responses(merchant.id), merchant.id, merchant.country)))
  }

  /** The data shown for a merchant: it belongs to the multi-client account and has at least
      one product, every one of them of the merchant's country on the Shopping destination's
      online channel. */
  ghost predicate ShowsListedProducts(data: Value, countryCode: string) {
    && HasMcaAccount(data)
    && Field(data, "products").Arr?
    && |Field(data, "products").items| > 0
    && forall p :: p in Field(data, "products").items ==> IsListedProduct(p, countryCode)
  }

  /** Whatever one merchant contributes to the summary shows only its listed products. */
  lemma SummaryEntryShowsListedProducts(response: Result<Value>, merchant: EuropeanMerchant)
    requires SummaryEntry(merchant.name, ShapeMerchantStatus(response, merchant.id, merchant.country)).Some?
    ensures ShowsListedProducts(
      SummaryEntry(merchant.name, ShapeMerchantStatus(response, merchant.id, merchant.country)).value.1,
      merchant.country)
  {
    var shaped := ShapeMerchantStatus(response, merchant.id, merchant.country);
    var merchantData := Field(response.value, merchant.id);
    assert shaped.value.fields["accountId"] == merchantData.fields["accountId"];
    FilterProductsMembers(Field(merchantData, "products").items, merchant.country);
  }

  /** Every merchant in the European summary is one of the three configured ones, and shows
      only the products of its own country on the Shopping destination's online channel. */
  lemma EuropeanSummaryShowsOnlyListedProducts(responses: string -> Result<Value>, name: string)
    requires name in Combined(SummaryResults(responses))
    ensures exists i :: (0 <= i < |EuropeanMerchants| && EuropeanMerchants[i].name == name &&
      ShowsListedProducts(Combined(SummaryResults(responses))[name], EuropeanMerchants[i].country))
  {
    var results := SummaryResults(responses);
    CombinedKeys(results);
    var i :| 0 <= i < |results| && results[i].Some? && results[i].value.0 == name;
    var merchant := EuropeanMerchants[i];
    assert results[i] == SummaryEntry(merchant.name, ShapeMerchantStatus(responses(merchant.id), merchant.id, merchant.country));
    assert name == merchant.name;
    forall j | 0 <= j < |results| && results[j].Some? && j != i
      ensures results[j].value.0 != results[i].value.0
    {
      var other := EuropeanMerchants[j];
      assert results[j] == SummaryEntry(other.name, ShapeMerchantStatus(responses(other.id), other.id, other.country));
      assert results[j].value.0 == other.name;
      assert other.name != merchant.name by {
        assert j == 0 || j == 1 || j == 2;
        assert i == 0 || i == 1 || i == 2;
      }
    }
    CombinedValues(results, i);
    SummaryEntryShowsListedProducts(responses(merchant.id), merchant);
  }
}

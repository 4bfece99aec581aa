/** The Flask backend's merchant endpoint (backend/app.py): it asks the Content API for account
    statuses and wraps them, per region, in an envelope keyed by the region's display name.
    The Content API is an input: a pair of functions giving, for an account id, either the
    parsed JSON response or the text of the exception the client library raised. */
module Backend {
  import opened Json

  datatype MerchantConfig = MerchantConfig(merchantId: string, name: string)

  const GlobalMerchants: seq<MerchantConfig> := [
    MerchantConfig("6000402", "ECCO US"),
    MerchantConfig("126580264", "ECCO CA"),
    MerchantConfig("124463984", "ECCO AU")
  ]

  const EuropeMerchants: seq<MerchantConfig> := [
    MerchantConfig("115079344", "ECCO GB"),
    MerchantConfig("115975194", "ECCO FR"),
    MerchantConfig("117076029", "ECCO DE")
  ]

  /** The multi-client account whose sub-accounts are the European storefronts. */
  const McaAccountId := "117117533"

  const StatusNotFound := "Status not found"

  /** Python exception classes raised by the code itself (the message is abstracted). */
  const AttributeError := "AttributeError"
  const TypeError := "TypeError"

  /** `request.execute()`: the parsed response, or the exception it raised. */
  datatype ApiResult = Success(body: Value) | Raised(message: string)

  /** `service.accountstatuses()`: `get(id)` asks for one account's status with merchantId and
      accountId both `id`; `list(id)` lists the statuses of a multi-client account's sub-accounts. */
  datatype ContentApi = ContentApi(get: string -> ApiResult, list: string -> ApiResult)

  /** One element of a region's `data` list: `data` or `error`, never both. */
  datatype Outcome = Data(status: Value) | Error(message: string)
  datatype Entry = Entry(name: string, outcome: Outcome)

  datatype HttpResponse = HttpResponse(status: int, body: Value)

  /** The dictionary the backend builds for an entry. */
  function EntryJson(e: Entry): (j: Value)
    ensures j.Obj? && "name" in j.fields && j.fields["name"] == Str(e.name)
    ensures ("data" in j.fields) != ("error" in j.fields)
    ensures |j.fields| == 2
  {
    match e.outcome
    case Data(status) => Obj(map["name" := Str(e.name), "data" := status])
    case Error(message) => Obj(map["name" := Str(e.name), "error" := Str(message)])
  }

  /** `{name: {"name": name, "data": [entries...]}}`, the 200 body for a region. */
  function RegionBody(name: string, entries: seq<Entry>): Value {
    Obj(map[name := Obj(map[
      "name" := Str(name),
      "data" := Arr(seq(|entries|, i requires 0 <= i < |entries| => EntryJson(entries[i])))])])
  }

  function ErrorBody(message: string): Value {
    Obj(map["error" := Str(message)])
  }

  /** `get_global_merchant_status`: the configured name, with the account status as `data` or
      the text of the exception as `error`. */
  function GetGlobalMerchantStatus(api: ContentApi, merchant: MerchantConfig): (e: Entry)
    ensures e.name == merchant.name
    ensures e.outcome.Data? <==> api.get(merchant.merchantId).Success?
    ensures e.outcome.Data? ==> e.outcome.status == api.get(merchant.merchantId).body
    ensures e.outcome.Error? ==> e.outcome.message == api.get(merchant.merchantId).message
  {
    match api.get(merchant.merchantId)
    case Success(status) => Entry(merchant.name, Data(status))
    case Raised(message) => Entry(merchant.name, Error(message))
  }

  /** The entries the global branch collects: one per configured merchant, in order. */
  function GlobalEntries(api: ContentApi): seq<Entry> {
    seq(|GlobalMerchants|, i requires 0 <= i < |GlobalMerchants| => GetGlobalMerchantStatus(api, GlobalMerchants[i]))
  }

  /** Python truthiness of a JSON value. */
  predicate PyTruthy(v: Value) {
    match v
    case Undefined => false
    case Null => false
    case Bool(b) => b
    case Num(n) => n != 0
    case Str(s) => s != ""
    case Arr(xs) => xs != []
    case Obj(m) => m != map[]
  }

  /** `status.get('accountId') == merchantId` for a dictionary. */
  predicate HasAccountId(status: Value, merchantId: string)
    requires status.Obj?
  {
    "accountId" in status.fields && status.fields["accountId"] == Str(merchantId)
  }

  /** Resource `i` is where the generator stops: a dictionary with the wanted `accountId`, after
      dictionaries that all carry another one. */
  ghost predicate FirstWithAccountId(resources: seq<Value>, merchantId: string, i: int) {
    && 0 <= i < |resources|
    && resources[i].Obj? && HasAccountId(resources[i], merchantId)
    && forall j :: 0 <= j < i ==> resources[j].Obj? && !HasAccountId(resources[j], merchantId)
  }

  /** Resource `i` is where the generator raises: it is not a dictionary, and every earlier
      resource is a dictionary carrying another `accountId`. */
  ghost predicate FirstNonDictAt(resources: seq<Value>, merchantId: string, i: int) {
    && 0 <= i < |resources|
    && !resources[i].Obj?
    && forall j :: 0 <= j < i ==> resources[j].Obj? && !HasAccountId(resources[j], merchantId)
  }

  /** `next((s for s in resources if s.get('accountId') == merchantId), None)`: the first
      resource whose `accountId` is `merchantId`. An element that is not a dictionary has no
      `get`; the generator raises when it reaches one before a match. */
  function FindStatus(resources: seq<Value>, merchantId: string): (r: Result<Option<Value>>)
    ensures r.Err? ==> r.message == AttributeError
    ensures r.Err? <==> exists i :: FirstNonDictAt(resources, merchantId, i)
    ensures r == Ok(None) <==>
      forall j :: 0 <= j < |resources| ==> resources[j].Obj? && !HasAccountId(resources[j], merchantId)
  {
    if |resources| == 0 then Ok(None)
    else if !resources[0].Obj? then
      assert FirstNonDictAt(resources, merchantId, 0);
      Err(AttributeError)
    else if HasAccountId(resources[0], merchantId) then Ok(Some(resources[0]))
    else
      var r := FindStatus(resources[1..], merchantId);
      assert forall j :: 1 <= j < |resources| ==> resources[j] == resources[1..][j - 1];
      assert forall i :: FirstNonDictAt(resources[1..], merchantId, i) ==> FirstNonDictAt(resources, merchantId, i + 1);
      assert forall i :: FirstNonDictAt(resources, merchantId, i) ==> FirstNonDictAt(resources[1..], merchantId, i - 1);
      r
  }

  /** Conversely, when resource `i` is the first with the merchant's id, the lookup returns it. */
  lemma {:induction false} FirstMatchIsFound(resources: seq<Value>, merchantId: string, i: int)
    requires FirstWithAccountId(resources, merchantId, i)
    ensures FindStatus(resources, merchantId) == Ok(Some(resources[i]))
  {
    if i > 0 {
      assert resources[0].Obj? && !HasAccountId(resources[0], merchantId);
      assert FirstWithAccountId(resources[1..], merchantId, i - 1) by {
        assert forall j :: 0 <= j < i - 1 ==> resources[1..][j] == resources[j + 1];
      }
      FirstMatchIsFound(resources[1..], merchantId, i - 1);
    }
  }

  /** A status `FindStatus` returns is the first resource with the merchant's id. */
  lemma {:induction false} FindStatusIsFirstMatch(resources: seq<Value>, merchantId: string)
    ensures FindStatus(resources, merchantId).Ok? && FindStatus(resources, merchantId).value.Some? ==>
      exists i :: FirstWithAccountId(resources, merchantId, i) &&
                  resources[i] == FindStatus(resources, merchantId).value.value
  {
    if |resources| > 0 && resources[0].Obj? && !HasAccountId(resources[0], merchantId) {
      FindStatusIsFirstMatch(resources[1..], merchantId);
      forall i | FirstWithAccountId(resources[1..], merchantId, i)
        ensures FirstWithAccountId(resources, merchantId, i + 1)
      {
        assert forall j :: 1 <= j < i + 1 ==> resources[j] == resources[1..][j - 1];
      }
    } else if |resources| > 0 && resources[0].Obj? {
      assert FirstWithAccountId(resources, merchantId, 0);
    }
  }

  /** A status found by `FindStatus` is a non-empty dictionary, so `if merchant_status:` holds. */
  lemma FoundStatusIsTruthy(resources: seq<Value>, merchantId: string)
    requires FindStatus(resources, merchantId).Ok? && FindStatus(resources, merchantId).value.Some?
    ensures PyTruthy(FindStatus(resources, merchantId).value.value)
  {
    FindStatusIsFirstMatch(resources, merchantId);
    var status := FindStatus(resources, merchantId).value.value;
    var i :| FirstWithAccountId(resources, merchantId, i) && resources[i] == status;
    assert "accountId" in status.fields;
  }

  /** `response.get('resources', [])`, taken as the sequence the generator iterates. A string or
      dictionary iterates as strings, which have no `get`; `None` and numbers are not iterable. */
  function ResourcesOf(response: Value): Result<seq<Value>> {
    if !response.Obj? then Err(AttributeError)
    else if "resources" !in response.fields then Ok([])
    else match response.fields["resources"]
      case Arr(xs) => Ok(xs)
      case Str(s) => if s == "" then Ok([]) else Err(AttributeError)
      case Obj(m) => if m == map[] then Ok([]) else Err(AttributeError)
      case _ => Err(TypeError)
  }

  /** The resources of the multi-client account's status listing, or what was raised. */
  function ListedResources(api: ContentApi): Result<seq<Value>> {
    match api.list(McaAccountId)
    case Raised(message) => Err(message)
    case Success(response) => ResourcesOf(response)
  }

  /** The entry the Europe loop appends for one configured merchant, given a successful lookup. */
  function EuropeEntry(merchant: MerchantConfig, found: Option<Value>): Entry {
    match found
    case Some(status) => Entry(merchant.name, Data(status))
    case None => Entry(merchant.name, Error(StatusNotFound))
  }

  /** Every configured European merchant's lookup in `resources` goes through without raising. */
  predicate LookupsSucceed(resources: seq<Value>) {
    forall j :: 0 <= j < |EuropeMerchants| ==> FindStatus(resources, EuropeMerchants[j].merchantId).Ok?
  }

  /** What `get_europe_merchant_statuses` returns or raises. */
  function EuropeStatuses(api: ContentApi): Result<seq<Entry>> {
    match ListedResources(api)
    case Err(message) => Err(message)
    case Ok(resources) =>
      if LookupsSucceed(resources) then
        Ok(seq(|EuropeMerchants|, j requires 0 <= j < |EuropeMerchants| =>
          EuropeEntry(EuropeMerchants[j], FindStatus(resources, EuropeMerchants[j].merchantId).value)))
      else Err(AttributeError)
  }

  /** `get_europe_merchant_statuses`: a loop appending one entry per configured merchant. */
  method GetEuropeMerchantStatuses(api: ContentApi) returns (r: Result<seq<Entry>>)
    ensures r == EuropeStatuses(api)
  {
    var listed := ListedResources(api);
    if listed.Err? {
      return Err(listed.message);
    }
    var resources := listed.value;
    var merchantData: seq<Entry> := [];
    for i := 0 to |EuropeMerchants|
      invariant |merchantData| == i
      invariant forall j :: 0 <= j < i ==> FindStatus(resources, EuropeMerchants[j].merchantId).Ok?
      invariant forall j :: 0 <= j < i ==>
        merchantData[j] == EuropeEntry(EuropeMerchants[j], FindStatus(resources, EuropeMerchants[j].merchantId).value)
    {
      var merchant := EuropeMerchants[i];
      var found := FindStatus(resources, merchant.merchantId);
      if found.Err? {
        assert !LookupsSucceed(resources);
        return Err(found.message);
      }
      var merchantStatus := found.value;
      if merchantStatus.Some? && PyTruthy(merchantStatus.value) {
        merchantData := merchantData + [Entry(merchant.name, Data(merchantStatus.value))];
      } else {
        if merchantStatus.Some? {
          FoundStatusIsTruthy(resources, merchant.merchantId);
        }
        merchantData := merchantData + [Entry(merchant.name, Error(StatusNotFound))];
      }
    }
    assert LookupsSucceed(resources);
    ghost var expected := seq(|EuropeMerchants|, j requires 0 <= j < |EuropeMerchants| =>
      EuropeEntry(EuropeMerchants[j], FindStatus(resources, EuropeMerchants[j].merchantId).value));
    assert merchantData == expected;
    r := Ok(merchantData);
  }

  /** The Europe entries follow the configuration: exactly one per configured merchant, in order,
      under its configured name; `data` is the first listed status carrying that merchant's id,
      and a merchant without one gets the error 'Status not found'. */
  lemma {:induction false} EuropeStatusesFollowConfiguration(api: ContentApi)
    requires EuropeStatuses(api).Ok?
    ensures ListedResources(api).Ok?
    ensures var entries := EuropeStatuses(api).value;
      var resources := ListedResources(api).value;
      && |entries| == |EuropeMerchants|
      && forall j :: 0 <= j < |EuropeMerchants| ==>
           && entries[j].name == EuropeMerchants[j].name
           && (FindStatus(resources, EuropeMerchants[j].merchantId) == Ok(None) ==>
                 entries[j].outcome == Error(StatusNotFound))
           && (entries[j].outcome.Data? ==>
                 exists i :: FirstWithAccountId(resources, EuropeMerchants[j].merchantId, i) &&
                             entries[j].outcome.status == resources[i])
           && (forall i :: FirstWithAccountId(resources, EuropeMerchants[j].merchantId, i) ==>
                 entries[j].outcome == Data(resources[i]))
  {
    var resources := ListedResources(api).value;
    forall j | 0 <= j < |EuropeMerchants|
      ensures EuropeStatuses(api).value[j].outcome.Data? ==>
        exists i :: FirstWithAccountId(resources, EuropeMerchants[j].merchantId, i) &&
                    EuropeStatuses(api).value[j].outcome.status == resources[i]
      ensures forall i :: FirstWithAccountId(resources, EuropeMerchants[j].merchantId, i) ==>
        EuropeStatuses(api).value[j].outcome == Data(resources[i])
    {
      FindStatusIsFirstMatch(resources, EuropeMerchants[j].merchantId);
      forall i | FirstWithAccountId(resources, EuropeMerchants[j].merchantId, i)
        ensures EuropeStatuses(api).value[j].outcome == Data(resources[i])
      {
        FirstMatchIsFound(resources, EuropeMerchants[j].merchantId, i);
      }
    }
  }

  /** `get_merchants(region)`, the `/api/merchants/<region>` route. `service` is what
      `initialize_content_api` produced or raised; it runs before the region is looked at. */
  method GetMerchants(region: string, service: Result<ContentApi>) returns (resp: HttpResponse)
    ensures service.Err? ==> resp == HttpResponse(500, ErrorBody("Server error: " + service.message))
    ensures service.Ok? && region == "global" ==>
      resp == HttpResponse(200, RegionBody("ECCO GLOBAL", GlobalEntries(service.value)))
    ensures service.Ok? && region == "europe" ==>
      resp == match EuropeStatuses(service.value)
              case Ok(entries) => HttpResponse(200, RegionBody("ECCO EUROPE", entries))
              case Err(message) => HttpResponse(500, ErrorBody("Server error: " + message))
    ensures service.Ok? && region != "global" && region != "europe" ==>
      resp == HttpResponse(400, ErrorBody("Invalid region"))
  {
    if service.Err? {
      return HttpResponse(500, ErrorBody("Server error: " + service.message));
    }
    var api := service.value;
    if region == "global" {
      var merchantData: seq<Entry> := [];
      for i := 0 to |GlobalMerchants|
        invariant merchantData == GlobalEntries(api)[..i]
      {
        var status := GetGlobalMerchantStatus(api, GlobalMerchants[i]);
        merchantData := merchantData + [status];
      }
      assert merchantData == GlobalEntries(api);
      resp := HttpResponse(200, RegionBody("ECCO GLOBAL", merchantData));
    } else if region == "europe" {
      var europe := GetEuropeMerchantStatuses(api);
      if europe.Err? {
        return HttpResponse(500, ErrorBody("Server error: " + europe.message));
      }
      resp := HttpResponse(200, RegionBody("ECCO EUROPE", europe.value));
    } else {
      resp := HttpResponse(400, ErrorBody("Invalid region"));
    }
  }

  /** The global branch lists every configured merchant under its configured name, in order,
      each with `data` exactly when the Content API answered for it. */
  lemma GlobalEntriesFollowConfiguration(api: ContentApi)
    ensures |GlobalEntries(api)| == |GlobalMerchants|
    ensures forall i :: 0 <= i < |GlobalMerchants| ==>
      && GlobalEntries(api)[i].name == GlobalMerchants[i].name
      && (GlobalEntries(api)[i].outcome.Data? <==> api.get(GlobalMerchants[i].merchantId).Success?)
  {
  }

  /** A listing without `resources` gives every European merchant the 'Status not found' error. */
  lemma NoResourcesAllErrors(api: ContentApi, merchantId: string)
    requires api.list(McaAccountId).Success?
    requires api.list(McaAccountId).body.Obj? && "resources" !in api.list(McaAccountId).body.fields
    ensures ListedResources(api) == Ok([])
    ensures FindStatus(ListedResources(api).value, merchantId) == Ok(None)
  {
  }
}

/** How the two front ends read what `get_merchants` answers (backend/app.py): the key each one
    looks up against the keys the backend writes. */
module EndToEnd {
  import opened Json
  import opened JsOps
  import Backend
  import MerchantShaper
  import LegacyDashboard

  /** The envelope key the backend writes for a region it serves. */
  function BackendRegionName(region: string): string
    requires region == "global" || region == "europe"
  {
    if region == "global" then "ECCO GLOBAL" else "ECCO EUROPE"
  }

  /** The React front end asks for exactly the envelope key the backend writes. */
  lemma RegionKeyMatchesBackend(region: string)
    requires region == "global" || region == "europe"
    ensures MerchantShaper.RegionKey(region) == BackendRegionName(region)
  {
    if region == "global" {
      assert ToUpper("global") == "GLOBAL";
    } else {
      assert ToUpper("europe") == "EUROPE";
    }
  }

  /** The card the React front end shows for a merchant the backend reports with an error. */
  function ErrorCard(name: string): MerchantShaper.Card {
    MerchantShaper.Card(Str(name), Str("Unknown ID"), "Inactive", 0, 0, 0, Arr([]))
  }

  /** A merchant reported with an error gets a card with its name and no account, counts or
      issues. */
  lemma ErrorEntryCard(name: string, message: string)
    requires name != ""
    ensures MerchantShaper.CreateMerchantCard(Backend.EntryJson(Backend.Entry(name, Backend.Error(message)))) ==
      Ok(ErrorCard(name))
  {
  }

  /** The merchant list of a backend region body, as the front end reads it. */
  function EntryItems(entries: seq<Backend.Entry>): (items: seq<Value>)
    ensures |items| == |entries|
  {
    seq(|entries|, i requires 0 <= i < |entries| => Backend.EntryJson(entries[i]))
  }

  /** The React front end finds the backend's merchant list under the region's envelope. */
  lemma BackendMerchantsFound(region: string, entries: seq<Backend.Entry>)
    requires region == "global" || region == "europe"
    ensures MerchantShaper.MerchantsOf(Backend.RegionBody(BackendRegionName(region), entries), region) ==
      Arr(EntryItems(entries))
  {
    RegionKeyMatchesBackend(region);
  }

  /** A reported merchant's card, when it builds, carries the reported name. */
  lemma EntryCardName(e: Backend.Entry)
    requires e.name != ""
    ensures MerchantShaper.CreateMerchantCard(Backend.EntryJson(e)).Ok? ==>
      MerchantShaper.CreateMerchantCard(Backend.EntryJson(e)).value.name == Str(e.name)
  {
    assert Field(Backend.EntryJson(e), "name") == Str(e.name);
  }

  /** On a 200 body of the backend, the React front end shows either no card at all (some
      merchant's status made a card throw) or one card per reported merchant, in order and under
      its name. */
  lemma DisplayOfBackendBody(region: string, entries: seq<Backend.Entry>)
    requires region == "global" || region == "europe"
    requires forall i :: 0 <= i < |entries| ==> entries[i].name != ""
    ensures var cards := MerchantShaper.UpdateMerchantDisplay(
              Backend.RegionBody(BackendRegionName(region), entries), region);
      cards == [] || (|cards| == |entries| &&
                      forall i :: 0 <= i < |entries| ==> cards[i].name == Str(entries[i].name))
  {
    BackendMerchantsFound(region, entries);
    var items := EntryItems(entries);
    var cards := MerchantShaper.UpdateMerchantDisplay(Backend.RegionBody(BackendRegionName(region), entries), region);
    if MerchantShaper.CardsFor(items).Ok? {
      assert |cards| == |entries|;
      forall i | 0 <= i < |entries|
        ensures cards[i].name == Str(entries[i].name)
      {
        assert cards[i] == MerchantShaper.CreateMerchantCard(items[i]).value;
        EntryCardName(entries[i]);
      }
    }
  }

  /** When the backend reports every merchant with an error (the Europe listing had no matching
      resource, say), the React front end shows exactly one error card per merchant, in order. */
  lemma DisplayOfErrorEntries(region: string, entries: seq<Backend.Entry>)
    requires region == "global" || region == "europe"
    requires forall i :: 0 <= i < |entries| ==> entries[i].name != "" && entries[i].outcome.Error?
    ensures var cards := MerchantShaper.UpdateMerchantDisplay(
              Backend.RegionBody(BackendRegionName(region), entries), region);
      |cards| == |entries| && forall i :: 0 <= i < |entries| ==> cards[i] == ErrorCard(entries[i].name)
  {
    BackendMerchantsFound(region, entries);
    var items := EntryItems(entries);
    forall i | 0 <= i < |entries|
      ensures MerchantShaper.CreateMerchantCard(items[i]) == Ok(ErrorCard(entries[i].name))
    {
      ErrorEntryCard(entries[i].name, entries[i].outcome.message);
    }
    var built := MerchantShaper.CardsFor(items);
    assert built.Ok?;
    assert MerchantShaper.UpdateMerchantDisplay(Backend.RegionBody(BackendRegionName(region), entries), region) ==
      built.value;
  }

  /** The older dashboard looks up its configured store names ("ECCO US", "ECCO GB", ...) at the
      top of the body, where the backend writes only the region's envelope, so a region it
      serves always shows "No merchants found". */
  lemma LegacyMenuFindsNoMerchants(region: string, entries: seq<Backend.Entry>)
    requires region == "global" || region == "europe"
    ensures LegacyDashboard.MenuSelection(region, Ok(Backend.RegionBody(BackendRegionName(region), entries))) ==
      LegacyDashboard.NoMerchantsFound
  {
    var body := Backend.RegionBody(BackendRegionName(region), entries);
    var configs := LegacyDashboard.MerchantConfig(region).value;
    forall c | c in configs
      ensures !Truthy(Field(body, c.name))
    {
      assert c.name != BackendRegionName(region);
    }
    LegacyDashboard.NothingPresent(configs, body);

  }

  /** The Europe navigation handler reads the "ECCO EU" entry, which the backend never writes,
      so it always shows "No merchants found for Europe". */
  lemma NavigationFindsNoMerchants(entries: seq<Backend.Entry>)
    ensures LegacyDashboard.NavEuropeView(Ok(Backend.RegionBody("ECCO EUROPE", entries))) ==
      LegacyDashboard.NavNoMerchants
  {
  }
}

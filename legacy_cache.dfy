/** The region cache of the older dashboard script (frontend/script.js): one entry per region
    and the time of the last update, emptied by the refresh button. */
module LegacyCache {
  import opened Json

  /** The regions the script caches. */
  datatype Region = Global | Europe

  /** A cached region: only its timestamp (milliseconds since the epoch) is ever read. */
  datatype CacheEntry = CacheEntry(timestamp: int)

  /** `marketCardsCache`; `None` is `null`. */
  class MarketCardsCache {
    var global: Option<CacheEntry>
    var europe: Option<CacheEntry>
    var lastUpdate: Option<int>

    /** The cache as the script declares it: everything null. */
    constructor ()
      ensures global == None && europe == None && lastUpdate == None
    {
      global := None;
      europe := None;
      lastUpdate := None;
    }

    /** `marketCardsCache[region]` */
    function EntryFor(region: Region): Option<CacheEntry>
      reads this
    {
      match region
      case Global => global
      case Europe => europe
    }

    /** `isCacheValid(region)` at time `now` (`Date.now()`), with `cacheDuration` standing for
        `CACHE_DURATION`: valid exactly when the region has an entry younger than the duration. */
    function IsCacheValid(region: Region, now: int, cacheDuration: int): (valid: bool)
      reads this
      ensures valid ==> EntryFor(region).Some?
      ensures valid <==> EntryFor(region).Some? && now < EntryFor(region).value.timestamp + cacheDuration
    {
      match EntryFor(region)
      case None => false
      case Some(entry) => now - entry.timestamp < cacheDuration
    }

    /** The refresh button's first step: both regions and the last-update time become null, so
        no region is valid any more, whatever the time and the duration. */
    method Clear()
      modifies this
      ensures global == None && europe == None && lastUpdate == None
      ensures forall region: Region, now: int, cacheDuration: int :: !IsCacheValid(region, now, cacheDuration)
    {
      global := None;
      europe := None;
      lastUpdate := None;
    }
  }

  /** An entry that is valid now was valid at every earlier moment, and stops being valid once
      the duration has passed. */
  lemma ValidityExpires(cache: MarketCardsCache, region: Region, now: int, later: int, cacheDuration: int)
    requires now <= later
    ensures cache.IsCacheValid(region, later, cacheDuration) ==> cache.IsCacheValid(region, now, cacheDuration)
    ensures cache.EntryFor(region).Some? && later >= cache.EntryFor(region).value.timestamp + cacheDuration ==>
      !cache.IsCacheValid(region, later, cacheDuration)
  {
  }
}

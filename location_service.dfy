/**
 * The location cache service: one object holding an optional cached fix and the handle of an
 * optional watch subscription. The platform (permission prompt, position provider, reverse
 * geocoder, watch registration) is replaced by the outcomes it would report, passed in as
 * parameters, and every platform call the service makes is recorded in `calls`.
 */
module Location {
  import opened Wrappers
  import Text

  /** A location record: coordinates, an optional reverse-geocoded address, an optional timestamp (ms). */
  datatype Fix = Fix(latitude: real, longitude: real, address: Option<string>, timestamp: Option<int>)

  /** One reverse-geocoding candidate; each part may be missing. */
  datatype Place = Place(street: Option<string>, city: Option<string>, region: Option<string>)

  /** What the one-shot position request reports. */
  datatype PositionOutcome = Position(latitude: real, longitude: real, timestamp: int) | PositionFailed

  /** What reverse geocoding reports: a list of candidates, or an error. */
  datatype GeocodeOutcome = Places(candidates: seq<Place>) | GeocodeFailed

  /** The platform calls the service can make. */
  datatype PlatformCall = RequestPermission | GetCurrentPosition | ReverseGeocode | WatchPosition | RemoveWatch

  /** How a fix is shown: its address, or else its coordinates (whose 6-digit rendering is not modelled). */
  datatype Display = AddressText(text: string) | Coordinates(latitude: real, longitude: real)

  /** A cached fix younger than this (in ms) is reused for a photo: five minutes. */
  const FreshnessMs: int := 5 * 60 * 1000

  /** `part || ''`: a missing part reads as the empty string. */
  function OrEmpty(part: Option<string>): string {
    part.GetOr("")
  }

  /** The address of a geocoding candidate: street, city and region joined by spaces, then trimmed. */
  function ComposeAddress(p: Place): string {
    Text.Trim(OrEmpty(p.street) + " " + OrEmpty(p.city) + " " + OrEmpty(p.region))
  }

  /** The address a geocoding outcome yields: that of the first candidate, if there is one. */
  function GeocodedAddress(geocode: GeocodeOutcome): (a: Option<string>)
    ensures a.Some? <==> geocode.Places? && |geocode.candidates| > 0
    ensures a.Some? ==> a.value == ComposeAddress(geocode.candidates[0])
  {
    if geocode.Places? && |geocode.candidates| > 0 then Some(ComposeAddress(geocode.candidates[0])) else None
  }

  /**
   * The result of a one-shot fetch: absent when permission is denied or the provider fails;
   * otherwise the provider's coordinates and timestamp, with the geocoded address if any.
   */
  function Fetch(permission: bool, position: PositionOutcome, geocode: GeocodeOutcome): (r: Option<Fix>)
    ensures r.None? <==> !permission || position.PositionFailed?
    ensures r.Some? ==> r.value.latitude == position.latitude && r.value.longitude == position.longitude
    ensures r.Some? ==> r.value.timestamp == Some(position.timestamp)
    ensures r.Some? ==> (r.value.address.Some? <==> geocode.Places? && |geocode.candidates| > 0)
    ensures r.Some? && r.value.address.Some? ==> r.value.address.value == ComposeAddress(geocode.candidates[0])
  {
    if !permission || position.PositionFailed? then None
    else Some(Fix(position.latitude, position.longitude, GeocodedAddress(geocode), Some(position.timestamp)))
  }

  /** The platform calls a one-shot fetch makes, in order. */
  function FetchCalls(permission: bool, position: PositionOutcome): (cs: seq<PlatformCall>)
    ensures |cs| >= 1 && cs[0] == RequestPermission
    ensures GetCurrentPosition in cs <==> permission
    ensures ReverseGeocode in cs <==> permission && position.Position?
    ensures !permission ==> cs == [RequestPermission]
    ensures permission && position.PositionFailed? ==> cs == [RequestPermission, GetCurrentPosition]
    ensures permission && position.Position? ==> cs == [RequestPermission, GetCurrentPosition, ReverseGeocode]
  {
    [RequestPermission]
    + (if permission then [GetCurrentPosition] else [])
    + (if permission && position.Position? then [ReverseGeocode] else [])
  }

  /** `now - (timestamp || 0)`. */
  function Age(fix: Fix, now: int): int {
    now - fix.timestamp.GetOr(0)
  }

  /** Whether a photo may reuse the cache: there is a fix and it is less than five minutes old. */
  predicate IsFresh(cache: Option<Fix>, now: int) {
    cache.Some? && Age(cache.value, now) < FreshnessMs
  }

  /** The location handed to a photo: the fresh cached fix, or else a one-shot fetch. */
  function PhotoLocation(cache: Option<Fix>, now: int, permission: bool, position: PositionOutcome,
                         geocode: GeocodeOutcome): (r: Option<Fix>)
    ensures IsFresh(cache, now) ==> r == cache
    ensures !IsFresh(cache, now) ==> r == Fetch(permission, position, geocode)
  {
    if IsFresh(cache, now) then cache else Fetch(permission, position, geocode)
  }

  /** The platform calls made while choosing a photo's location: none at all when the cache is fresh. */
  function PhotoCalls(cache: Option<Fix>, now: int, permission: bool, position: PositionOutcome): seq<PlatformCall> {
    if IsFresh(cache, now) then [] else FetchCalls(permission, position)
  }

  /** `formatLocationForDisplay`: a non-empty address is shown as it is, anything else as coordinates. */
  function FormatForDisplay(fix: Fix): (d: Display)
    ensures d.AddressText? <==> fix.address.Some? && fix.address.value != ""
    ensures d.AddressText? ==> d.text == fix.address.value
    ensures d.Coordinates? ==> d.latitude == fix.latitude && d.longitude == fix.longitude
  {
    if fix.address.Some? && fix.address.value != "" then AddressText(fix.address.value)
    else Coordinates(fix.latitude, fix.longitude)
  }

  /** `isLocationEnabled`: the platform's answer, with a failed query (None) read as false. */
  function LocationEnabled(query: Option<bool>): (enabled: bool)
    ensures enabled <==> query == Some(true)
  {
    query.GetOr(false)
  }

  class LocationService {
    /** The last known fix (`currentLocation`). */
    var cache: Option<Fix>
    /** Whether the service holds a watch handle (`watchSubscription` is set). */
    var watching: bool
    /** Watch subscriptions registered with the platform and not yet removed; each delivers updates. */
    var live: nat
    /** The platform calls made so far, in order. */
    var calls: seq<PlatformCall>

    /** A held handle is a live subscription. */
    ghost predicate Valid()
      reads this
    {
      watching ==> live >= 1
    }

    constructor ()
      ensures Valid()
      ensures cache == None && !watching && live == 0 && calls == []
    {
      cache := None;
      watching := false;
      live := 0;
      calls := [];
    }

    /** `getCurrentLocation`: a successful fetch replaces the cache; a failed one leaves it as it was. */
    method GetCurrentLocation(permission: bool, position: PositionOutcome, geocode: GeocodeOutcome)
      returns (r: Option<Fix>)
      modifies this`cache, this`calls
      ensures r == Fetch(permission, position, geocode)
      ensures cache == if r.Some? then r else old(cache)
      ensures calls == old(calls) + FetchCalls(permission, position)
    {
      calls := calls + [RequestPermission];
      if !permission {
        return None;
      }
      calls := calls + [GetCurrentPosition];
      if position.PositionFailed? {
        return None;
      }
      var fix := Fix(position.latitude, position.longitude, None, Some(position.timestamp));
      calls := calls + [ReverseGeocode];
      if geocode.Places? && |geocode.candidates| > 0 {
        fix := fix.(address := Some(ComposeAddress(geocode.candidates[0])));
      }
      cache := Some(fix);
      r := Some(fix);
    }

    /**
     * `startWatchingLocation`: on permission and a successful registration the handle is set.
     * A start while already watching overwrites the handle without removing the old
     * subscription, which stays live.
     */
    method StartWatchingLocation(permission: bool, registered: bool) returns (ok: bool)
      requires Valid()
      modifies this`watching, this`live, this`calls
      ensures Valid()
      ensures ok <==> permission && registered
      ensures watching == (old(watching) || ok)
      ensures live == old(live) + (if ok then 1 else 0)
      ensures calls == old(calls) + [RequestPermission] + (if permission then [WatchPosition] else [])
    {
      calls := calls + [RequestPermission];
      if !permission {
        return false;
      }
      calls := calls + [WatchPosition];
      if !registered {
        return false;
      }
      watching := true;
      live := live + 1;
      ok := true;
    }

    /** A watch update: the cache becomes exactly the reported coordinates and timestamp, with no address. */
    method OnWatchUpdate(latitude: real, longitude: real, timestamp: int)
      requires live > 0
      modifies this`cache
      ensures cache == Some(Fix(latitude, longitude, None, Some(timestamp)))
    {
      cache := Some(Fix(latitude, longitude, None, Some(timestamp)));
    }

    /** `stopWatchingLocation`: removes the held subscription, if any; otherwise changes nothing. */
    method StopWatchingLocation()
      requires Valid()
      modifies this`watching, this`live, this`calls
      ensures Valid()
      ensures !watching
      ensures live == old(live) - (if old(watching) then 1 else 0)
      ensures calls == old(calls) + (if old(watching) then [RemoveWatch] else [])
    {
      if watching {
        calls := calls + [RemoveWatch];
        live := live - 1;
        watching := false;
      }
    }

    /** `getLastKnownLocation`: a read of the cache. */
    method GetLastKnownLocation() returns (r: Option<Fix>)
      ensures r == cache
    {
      r := cache;
    }

    /** `getLocationForPhoto`: reuse a fresh cached fix without any platform call, otherwise fetch. */
    method GetLocationForPhoto(now: int, permission: bool, position: PositionOutcome, geocode: GeocodeOutcome)
      returns (r: Option<Fix>)
      modifies this`cache, this`calls
      ensures r == PhotoLocation(old(cache), now, permission, position, geocode)
      ensures cache == if r.Some? then r else old(cache)
      ensures calls == old(calls) + PhotoCalls(old(cache), now, permission, position)
    {
      if cache.Some? {
        var age := now - cache.value.timestamp.GetOr(0);
        if age < FreshnessMs {
          return cache;
        }
      }
      r := GetCurrentLocation(permission, position, geocode);
    }
  }

  /** A fresh cache decides a photo's location whatever the platform would have answered. */
  lemma FreshCacheIgnoresProvider(cache: Option<Fix>, now: int,
                                  p1: bool, pos1: PositionOutcome, g1: GeocodeOutcome,
                                  p2: bool, pos2: PositionOutcome, g2: GeocodeOutcome)
    requires IsFresh(cache, now)
    ensures PhotoLocation(cache, now, p1, pos1, g1) == PhotoLocation(cache, now, p2, pos2, g2) == cache
    ensures PhotoCalls(cache, now, p1, pos1) == []
  {
  }

  /** With no cache, or one at least five minutes old (a missing timestamp counting as 0), a photo gets a fresh fetch. */
  lemma StaleCacheFetches(cache: Option<Fix>, now: int, permission: bool, position: PositionOutcome,
                          geocode: GeocodeOutcome)
    requires cache.None? || Age(cache.value, now) >= FreshnessMs
    ensures PhotoLocation(cache, now, permission, position, geocode) == Fetch(permission, position, geocode)
    ensures PhotoCalls(cache, now, permission, position) == FetchCalls(permission, position)
  {
  }

  /** A denied permission ends a fetch after the permission request: no provider call, no result. */
  lemma DeniedPermissionCallsNoProvider(position: PositionOutcome, geocode: GeocodeOutcome)
    ensures Fetch(false, position, geocode) == None
    ensures FetchCalls(false, position) == [RequestPermission]
  {
  }

  /** A geocoding failure still yields the fix, with the provider's coordinates and no address. */
  lemma GeocodeFailureKeepsFix(lat: real, lon: real, ts: int)
    ensures Fetch(true, Position(lat, lon, ts), GeocodeFailed) == Some(Fix(lat, lon, None, Some(ts)))
  {
  }

  /** The address never starts or ends with white space. */
  lemma ComposeAddressIsTrimmed(p: Place)
    ensures Text.IsTrimmed(ComposeAddress(p))
  {
    Text.TrimIsTrimmedSlice(OrEmpty(p.street) + " " + OrEmpty(p.city) + " " + OrEmpty(p.region));
  }

  /** When all three parts are present, non-empty and unpadded, the address is them joined by single spaces. */
  lemma ComposeAddressOfCleanParts(street: string, city: string, region: string)
    requires street != [] && city != [] && region != []
    requires Text.IsTrimmed(street) && Text.IsTrimmed(region)
    ensures ComposeAddress(Place(Some(street), Some(city), Some(region))) == street + " " + city + " " + region
  {
    var joined := street + " " + city + " " + region;
    assert joined[0] == street[0];
    assert joined[|joined| - 1] == region[|region| - 1];
    Text.TrimOfTrimmed(joined);
  }

  /** A candidate with no street, city or region yields the empty address, which is then displayed as coordinates. */
  lemma EmptyPlaceShowsCoordinates(lat: real, lon: real, ts: int)
    ensures ComposeAddress(Place(None, None, None)) == ""
    ensures var fix := Fix(lat, lon, Some(ComposeAddress(Place(None, None, None))), Some(ts));
            FormatForDisplay(fix) == Coordinates(lat, lon)
  {
    var joined := OrEmpty(None) + " " + OrEmpty(None) + " " + OrEmpty(None);
    assert joined == [' ', ' '];
    assert Text.AllSpace(joined);
    Text.TrimEmptyIff(joined);
  }

  /** The scenario of a fix at (37.7749, -122.4194) whose first candidate has street "123 Main St," (with its comma), city "San Francisco" and no region. */
  lemma MainStreetScenario()
    ensures Fetch(true, Position(37.7749, -122.4194, 0),
                  Places([Place(Some("123 Main St,"), Some("San Francisco"), None)]))
            == Some(Fix(37.7749, -122.4194, Some("123 Main St, San Francisco"), Some(0)))
  {
    var address := "123 Main St, San Francisco";
    assert "123 Main St," + " " + "San Francisco" + " " + OrEmpty(None) == address + " ";
    Text.TrimDropsTrailingSpace(address);
  }
}

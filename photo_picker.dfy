/**
 * The photo picker that tags photos with a location: EXIF validity, the camera and gallery
 * precedence between the live fix and the EXIF coordinates, the `hasAutoLocation` flag, the add
 * button, and the `isCapturingPhoto` toggle. Permission prompts and the picker are replaced by
 * their outcomes; `onAddPhoto` is recorded as the sequence of photos handed to it.
 */
module PhotoPicker {
  import opened Wrappers
  import Text
  import Location

  /** An EXIF GPS field: a number, NaN, or absent / of another type. */
  datatype ExifValue = Number(value: real) | NaN | NotANumber

  datatype Exif = Exif(gpsLatitude: ExifValue, gpsLongitude: ExifValue)

  /** Where a photo came from. */
  datatype PhotoSource = CameraShot | GalleryPick

  /** The record handed to `onAddPhoto`. */
  datatype PhotoItem = PhotoItem(id: string, uri: string, source: PhotoSource,
                                 location: Option<Location.Fix>, hasAutoLocation: bool, timestamp: int)

  datatype Asset = Asset(uri: string, exif: Option<Exif>)

  /** What the camera or library picker reports: cancelled, a list of assets, or an exception. */
  datatype PickerResult = Canceled | Picked(assets: seq<Asset>) | PickerFailed

  /** What a camera or media-library permission request reports. */
  datatype PermissionOutcome = Granted | Denied | RequestFailed

  /** How a capture ends: a photo added, permission denied, nothing picked, or an error alert. */
  datatype CaptureOutcome = Added(photo: PhotoItem) | PermissionDenied | NothingPicked | Failed

  const DefaultMaxPhotos: int := 3

  /** `hasExifLocation`: EXIF is present and both GPS fields are numbers other than NaN. */
  predicate HasExifLocation(exif: Option<Exif>) {
    exif.Some? && exif.value.gpsLatitude.Number? && exif.value.gpsLongitude.Number?
  }

  /** `extractLocationFromExif`: the EXIF coordinates, stamped with the current time, with no address. */
  function ExtractLocationFromExif(exif: Option<Exif>, now: int): (r: Option<Location.Fix>)
    ensures r.None? <==> !HasExifLocation(exif)
    ensures r.Some? ==> (r.value.latitude == exif.value.gpsLatitude.value
                         && r.value.longitude == exif.value.gpsLongitude.value
                         && r.value.address.None? && r.value.timestamp == Some(now))
  {
    if !HasExifLocation(exif) then None
    else Some(Location.Fix(exif.value.gpsLatitude.value, exif.value.gpsLongitude.value, None, Some(now)))
  }

  /** Camera precedence: the live fix if one was obtained, else the EXIF coordinates. */
  function CameraLocation(live: Option<Location.Fix>, exif: Option<Exif>, now: int): (r: Option<Location.Fix>)
    ensures live.Some? ==> r == live
    ensures live.None? ==> r == ExtractLocationFromExif(exif, now)
  {
    if live.Some? then live else ExtractLocationFromExif(exif, now)
  }

  /** Gallery precedence: valid EXIF coordinates, else the live fix when auto-location is on, else none. */
  function GalleryLocation(live: Option<Location.Fix>, exif: Option<Exif>, autoLocation: bool, now: int)
    : (r: Option<Location.Fix>)
    ensures HasExifLocation(exif) ==> r == ExtractLocationFromExif(exif, now)
    ensures !HasExifLocation(exif) ==> r == (if autoLocation then live else None)
  {
    var fromExif := ExtractLocationFromExif(exif, now);
    if fromExif.None? && autoLocation then live else fromExif
  }

  /** The location a picked asset is tagged with, by the path it came from. */
  function TagLocation(source: PhotoSource, live: Option<Location.Fix>, exif: Option<Exif>, autoLocation: bool,
                       now: int): (r: Option<Location.Fix>)
    ensures r.Some? ==> r == live || r == ExtractLocationFromExif(exif, now)
    ensures r.None? <==> !HasExifLocation(exif) && (live.None? || (source.GalleryPick? && !autoLocation))
  {
    match source
    case CameraShot => CameraLocation(live, exif, now)
    case GalleryPick => GalleryLocation(live, exif, autoLocation, now)
  }

  /** The record for a picked asset; it is flagged exactly when it carries a location. */
  function MakePhoto(source: PhotoSource, uri: string, location: Option<Location.Fix>, now: int): (p: PhotoItem)
    ensures p.hasAutoLocation <==> p.location.Some?
    ensures p.location == location && p.uri == uri && p.source == source && p.timestamp == now
  {
    PhotoItem(Text.IntToDecimal(now), uri, source, location, location.Some?, now)
  }

  /** The end of a capture once permission is settled and the picker has answered. */
  function CaptureResult(permission: PermissionOutcome, result: PickerResult, source: PhotoSource,
                         live: Option<Location.Fix>, autoLocation: bool, now: int): (o: CaptureOutcome)
    ensures o.Added? <==> permission.Granted? && result.Picked? && |result.assets| > 0
    ensures o.Added? ==> o.photo == MakePhoto(source, result.assets[0].uri,
                                              TagLocation(source, live, result.assets[0].exif, autoLocation, now), now)
    ensures o.PermissionDenied? <==> permission.Denied?
    ensures o.NothingPicked? <==> permission.Granted? && (result.Canceled? || (result.Picked? && |result.assets| == 0))
    ensures o.Failed? <==> permission.RequestFailed? || (permission.Granted? && result.PickerFailed?)
  {
    match permission
    case Denied => PermissionDenied
    case RequestFailed => Failed
    case Granted =>
      match result
      case Canceled => NothingPicked
      case PickerFailed => Failed
      case Picked(assets) =>
        if |assets| == 0 then NothingPicked
        else Added(MakePhoto(source, assets[0].uri, TagLocation(source, live, assets[0].exif, autoLocation, now), now))
  }

  /** The photos a capture hands to `onAddPhoto`: the new one, or none. */
  function AddedPhotos(o: CaptureOutcome): seq<PhotoItem> {
    if o.Added? then [o.photo] else []
  }

  class AutoLocationPhotoPicker {
    const service: Location.LocationService
    const autoLocation: bool
    const maxPhotos: int
    /** `isCapturingPhoto`: the add button is disabled while it is set. */
    var capturing: bool
    /** The photos handed to `onAddPhoto`, in order. */
    var added: seq<PhotoItem>

    /** The props `maxPhotos` and `autoLocationEnabled` default to 3 and true. */
    constructor (service: Location.LocationService, maxPhotos: Option<int>, autoLocationEnabled: Option<bool>)
      ensures this.service == service
      ensures this.maxPhotos == maxPhotos.GetOr(DefaultMaxPhotos)
      ensures autoLocation == autoLocationEnabled.GetOr(true)
      ensures !capturing && added == []
      ensures maxPhotos.None? ==> ShowAddButton(DefaultMaxPhotos - 1) && !ShowAddButton(DefaultMaxPhotos)
    {
      this.service := service;
      this.maxPhotos := maxPhotos.GetOr(DefaultMaxPhotos);
      autoLocation := autoLocationEnabled.GetOr(true);
      capturing := false;
      added := [];
    }

    /** `showAddButton`: the add button is rendered while fewer photos than `maxPhotos` are held. */
    predicate ShowAddButton(photoCount: int)
      reads this
    {
      photoCount < maxPhotos
    }

    /** Whether pressing the add button starts a capture. */
    predicate AddButtonEnabled()
      reads this
    {
      !capturing
    }

    /** Mounting starts the watch, only when auto-location is enabled. */
    method Mount(permission: bool, registered: bool)
      requires service.Valid()
      modifies service`watching, service`live, service`calls
      ensures service.Valid()
      ensures !autoLocation ==> unchanged(service)
      ensures autoLocation ==> service.watching == (old(service.watching) || (permission && registered))
      ensures autoLocation ==> service.live == old(service.live) + (if permission && registered then 1 else 0)
      ensures autoLocation ==> service.calls == old(service.calls) + [Location.RequestPermission]
                                                + (if permission then [Location.WatchPosition] else [])
    {
      if autoLocation {
        var _ := service.StartWatchingLocation(permission, registered);
      }
    }

    /** Unmounting stops the watch, only when auto-location is enabled. */
    method Unmount()
      requires service.Valid()
      modifies service`watching, service`live, service`calls
      ensures service.Valid()
      ensures !autoLocation ==> unchanged(service)
      ensures autoLocation ==> !service.watching
      ensures autoLocation ==> service.live == old(service.live) - (if old(service.watching) then 1 else 0)
      ensures autoLocation ==> service.calls == old(service.calls)
                                                + (if old(service.watching) then [Location.RemoveWatch] else [])
    {
      if autoLocation {
        service.StopWatchingLocation();
      }
    }

    /**
     * `takePhotoWithCamera`: after the camera permission, the photo's location is requested
     * (only with auto-location on), the camera runs, and a picked photo is tagged with the live
     * fix or else its EXIF coordinates. `isCapturingPhoto` is cleared on every exit. The clock is
     * read twice: `fetchNow` when the cache's age is judged, before the camera opens, and `now`
     * once the photo is taken.
     */
    method TakePhotoWithCamera(camera: PermissionOutcome, fetchNow: int, permission: bool,
                               position: Location.PositionOutcome, geocode: Location.GeocodeOutcome,
                               result: PickerResult, now: int)
      returns (outcome: CaptureOutcome)
      modifies this`capturing, this`added, service`cache, service`calls
      ensures !capturing
      ensures var live := if camera.Granted? && autoLocation
                          then Location.PhotoLocation(old(service.cache), fetchNow, permission, position, geocode)
                          else None;
              outcome == CaptureResult(camera, result, CameraShot, live, autoLocation, now)
      ensures added == old(added) + AddedPhotos(outcome)
      ensures camera.Granted? && autoLocation ==>
                var live := Location.PhotoLocation(old(service.cache), fetchNow, permission, position, geocode);
                && service.cache == (if live.Some? then live else old(service.cache))
                && service.calls == old(service.calls)
                                    + Location.PhotoCalls(old(service.cache), fetchNow, permission, position)
      ensures !(camera.Granted? && autoLocation) ==> service.cache == old(service.cache)
                                                     && service.calls == old(service.calls)
    {
      capturing := true;
      if !camera.Granted? {
        outcome := if camera.Denied? then PermissionDenied else Failed;
        capturing := false;
        return;
      }
      var live: Option<Location.Fix> := None;
      if autoLocation {
        live := service.GetLocationForPhoto(fetchNow, permission, position, geocode);
      }
      outcome := PickedPhoto(result, CameraShot, live, now);
      capturing := false;
    }

    /**
     * `selectPhotoFromGallery`: like the camera path, but the picked photo prefers its EXIF
     * coordinates and falls back to the live fix only with auto-location on.
     */
    method SelectPhotoFromGallery(gallery: PermissionOutcome, fetchNow: int, permission: bool,
                                  position: Location.PositionOutcome, geocode: Location.GeocodeOutcome,
                                  result: PickerResult, now: int)
      returns (outcome: CaptureOutcome)
      modifies this`capturing, this`added, service`cache, service`calls
      ensures !capturing
      ensures var live := if gallery.Granted? && autoLocation
                          then Location.PhotoLocation(old(service.cache), fetchNow, permission, position, geocode)
                          else None;
              outcome == CaptureResult(gallery, result, GalleryPick, live, autoLocation, now)
      ensures added == old(added) + AddedPhotos(outcome)
      ensures gallery.Granted? && autoLocation ==>
                var live := Location.PhotoLocation(old(service.cache), fetchNow, permission, position, geocode);
                && service.cache == (if live.Some? then live else old(service.cache))
                && service.calls == old(service.calls)
                                    + Location.PhotoCalls(old(service.cache), fetchNow, permission, position)
      ensures !(gallery.Granted? && autoLocation) ==> service.cache == old(service.cache)
                                                      && service.calls == old(service.calls)
    {
      capturing := true;
      if !gallery.Granted? {
        outcome := if gallery.Denied? then PermissionDenied else Failed;
        capturing := false;
        return;
      }
      var live: Option<Location.Fix> := None;
      if autoLocation {
        live := service.GetLocationForPhoto(fetchNow, permission, position, geocode);
      }
      outcome := PickedPhoto(result, GalleryPick, live, now);
      capturing := false;
    }

    /** The picker's answer: the first asset of an uncancelled result is tagged and handed on. */
    method PickedPhoto(result: PickerResult, source: PhotoSource, live: Option<Location.Fix>, now: int)
      returns (outcome: CaptureOutcome)
      modifies this`added
      ensures outcome == CaptureResult(Granted, result, source, live, autoLocation, now)
      ensures added == old(added) + AddedPhotos(outcome)
    {
      match result {
        case Canceled =>
          outcome := NothingPicked;
        case PickerFailed =>
          outcome := Failed;
        case Picked(assets) =>
          if |assets| == 0 {
            outcome := NothingPicked;
          } else {
            var asset := assets[0];
            var photo := MakePhoto(source, asset.uri, TagLocation(source, live, asset.exif, autoLocation, now), now);
            added := added + [photo];
            outcome := Added(photo);
          }
      }
    }
  }

  /** With the default limit the add button shows for up to two photos and hides from the third on. */
  lemma DefaultLimitIsThreePhotos(picker: AutoLocationPhotoPicker, photoCount: int)
    requires picker.maxPhotos == DefaultMaxPhotos
    ensures picker.ShowAddButton(photoCount) <==> photoCount <= 2
  {
  }

  /** EXIF coordinates are extracted exactly when `hasExifLocation` holds. */
  lemma ExtractIffValid(exif: Option<Exif>, now: int)
    ensures ExtractLocationFromExif(exif, now).Some? <==> HasExifLocation(exif)
  {
  }

  /** With both a live fix and valid EXIF, the camera keeps the live fix and the gallery the EXIF coordinates. */
  lemma PrecedenceDiffersByPath(live: Location.Fix, exif: Exif, now: int)
    requires HasExifLocation(Some(exif))
    ensures CameraLocation(Some(live), Some(exif), now) == Some(live)
    ensures GalleryLocation(Some(live), Some(exif), true, now) == ExtractLocationFromExif(Some(exif), now)
  {
  }

  /** Without valid EXIF, the gallery uses the live fix only when auto-location is enabled. */
  lemma GalleryFallbackNeedsAutoLocation(live: Option<Location.Fix>, exif: Option<Exif>, now: int)
    requires !HasExifLocation(exif)
    ensures GalleryLocation(live, exif, true, now) == live
    ensures GalleryLocation(live, exif, false, now) == None
  {
  }

  /** Every added photo, from either path, is flagged exactly when it carries a location. */
  lemma AddedPhotoFlagged(permission: PermissionOutcome, result: PickerResult, source: PhotoSource,
                          live: Option<Location.Fix>, autoLocation: bool, now: int)
    requires CaptureResult(permission, result, source, live, autoLocation, now).Added?
    ensures var p := CaptureResult(permission, result, source, live, autoLocation, now).photo;
            p.hasAutoLocation <==> p.location.Some?
  {
  }

  /** A denied permission, a cancelled picker or an empty result adds nothing. */
  lemma NoPhotoWithoutGrantAndPick(permission: PermissionOutcome, result: PickerResult, source: PhotoSource,
                                   live: Option<Location.Fix>, autoLocation: bool, now: int)
    requires !permission.Granted? || result.Canceled? || (result.Picked? && result.assets == [])
    ensures AddedPhotos(CaptureResult(permission, result, source, live, autoLocation, now)) == []
  {
  }
}

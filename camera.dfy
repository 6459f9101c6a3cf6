/**
 * The camera overlay of components/Camera.tsx: the starting/captured/uploading
 * flags, the media stream (its track ids), the capture canvas size, the save
 * guards and the drag-to-close gesture.
 *
 * Device results are inputs: what `getUserMedia` gave, the video size, whether
 * a canvas and its 2D context exist, the clock, the canvas data URL and the
 * upload outcome. Alerts and the callbacks to the parent are recorded as
 * events.
 */
module Camera {
  import opened Common
  import PhotosClient

  datatype LatLng = LatLng(lat: real, lng: real)

  /** The arguments of `photosAPI.upload`. */
  datatype UploadCall = UploadCall(base64Data: string, filename: string, latitude: real, longitude: real, userId: string)

  /** `alert(...)`, `onPhotoSaved()` and `onClose()`. */
  datatype Event = Alert(message: string) | PhotoSaved | Closed

  const CameraFailedAlert := "Unable to access camera. Check permissions and try again."
  const NotSignedInAlert := "You must be logged in to save photos."
  const NoLocationAlert := "Location not available. Please enable location and try again."
  const SaveFailedAlert := "Failed to save photo. Please try again."

  /** Pixels the overlay must be dragged down before letting go closes it. */
  const CloseDistance: real := 100.0

  /** `photo-${Date.now()}.jpg` */
  function SaveFileName(now: nat): (name: string)
    ensures StartsWith(name, "photo-")
    ensures |name| >= 4 && name[|name| - 4..] == ".jpg"
    ensures |name| >= 11 && (forall i :: 6 <= i < |name| - 4 ==> IsDigit(name[i])) && ParseDecimal(name[6..|name| - 4]) == now
  {
    ParseNatToString(now);
    var name := "photo-" + NatToString(now) + ".jpg";
    assert name[6..|name| - 4] == NatToString(now);
    name
  }

  /** Saves at different clock readings use different file names. */
  lemma SaveFileNameInjective(t1: nat, t2: nat)
    ensures SaveFileName(t1) == SaveFileName(t2) ==> t1 == t2
  {
    if SaveFileName(t1) == SaveFileName(t2) {
      var d1, d2 := NatToString(t1), NatToString(t2);
      assert |d1| == |d2|;
      assert d1 == SaveFileName(t1)[6..6 + |d1|];
      assert d2 == SaveFileName(t2)[6..6 + |d2|];
      NatToStringInjective(t1, t2);
    }
  }

  /** The drag distance after a pointer move to `y`: only a move below the start counts. */
  function DragAfterMove(dragStart: Option<real>, dragDistance: real, y: real): (d: real)
    ensures dragStart.None? ==> d == dragDistance
    ensures dragStart.Some? && y > dragStart.value ==> d == y - dragStart.value
    ensures dragStart.Some? && y <= dragStart.value ==> d == dragDistance
    ensures dragDistance >= 0.0 ==> d >= 0.0
  {
    if dragStart.None? then dragDistance
    else
      var delta := y - dragStart.value;
      if delta > 0.0 then delta else dragDistance
  }

  class CameraView {
    var isStarting: bool
    var isCaptured: bool
    var isUploading: bool
    /** `streamRef.current`: the ids of its tracks, or no stream. */
    var stream: Option<seq<nat>>
    /** Every track stopped so far. */
    var stopped: set<nat>
    var canvasWidth: nat
    var canvasHeight: nat
    var currentUserId: Option<string>
    var currentLocation: Option<LatLng>
    var dragStart: Option<real>
    var dragDistance: real
    var events: seq<Event>

    ghost predicate Valid()
      reads this
    {
      dragDistance >= 0.0
    }

    constructor ()
      ensures Valid()
      ensures !isStarting && !isCaptured && !isUploading && stream.None? && stopped == {}
      ensures currentUserId.None? && currentLocation.None? && dragStart.None? && dragDistance == 0.0 && events == []
    {
      isStarting := false;
      isCaptured := false;
      isUploading := false;
      stream := None;
      stopped := {};
      canvasWidth := 0;
      canvasHeight := 0;
      currentUserId := None;
      currentLocation := None;
      dragStart := None;
      dragDistance := 0.0;
      events := [];
    }

    /** The start of `startCamera`: whether it goes on to request a stream. */
    method BeginStart() returns (requested: bool)
      modifies this`isStarting
      ensures requested == !old(isStarting)
      ensures isStarting
    {
      if isStarting {
        return false;
      }
      isStarting := true;
      requested := true;
    }

    /** The end of `startCamera`, given the tracks of the stream obtained or the failure. */
    method FinishStart(outcome: Result<seq<nat>, ()>)
      modifies this`isStarting, this`isCaptured, this`stream, this`events
      ensures !isStarting
      ensures outcome.Ok? ==> stream == Some(outcome.value) && !isCaptured && events == old(events)
      ensures outcome.Err? ==> stream == old(stream) && isCaptured == old(isCaptured) && events == old(events) + [Alert(CameraFailedAlert)]
    {
      match outcome {
        case Ok(tracks) =>
          stream := Some(tracks);
          isCaptured := false;
        case Err(_) =>
          events := events + [Alert(CameraFailedAlert)];
      }
      isStarting := false;
    }

    /** `stopCamera`: stops every track of the stream and drops it; without a stream it does nothing. */
    method StopCamera()
      modifies this`stream, this`stopped, this`isCaptured
      ensures old(stream).None? ==> stream.None? && stopped == old(stopped) && isCaptured == old(isCaptured)
      ensures old(stream).Some? ==>
        && stream.None? && !isCaptured
        && stopped == old(stopped) + set i | 0 <= i < |old(stream).value| :: old(stream).value[i]
    {
      if stream.None? {
        return;
      }
      var tracks := stream.value;
      var i := 0;
      while i < |tracks|
        invariant 0 <= i <= |tracks|
        invariant stopped == old(stopped) + set k | 0 <= k < i :: tracks[k]
      {
        stopped := stopped + {tracks[i]};
        i := i + 1;
      }
      stream := None;
      isCaptured := false;
    }

    /** `handleCapture`: the size is copied before the 2D context is checked. */
    method HandleCapture(video: Option<(nat, nat)>, hasCanvas: bool, hasContext: bool)
      modifies this`canvasWidth, this`canvasHeight, this`isCaptured
      ensures video.None? || !hasCanvas ==>
        canvasWidth == old(canvasWidth) && canvasHeight == old(canvasHeight) && isCaptured == old(isCaptured)
      ensures video.Some? && hasCanvas ==> canvasWidth == video.value.0 && canvasHeight == video.value.1
      ensures video.Some? && hasCanvas && !hasContext ==> isCaptured == old(isCaptured)
      ensures video.Some? && hasCanvas && hasContext ==> isCaptured
    {
      if video.None? || !hasCanvas {
        return;
      }
      canvasWidth := video.value.0;
      canvasHeight := video.value.1;
      if !hasContext {
        return;
      }
      isCaptured := true;
    }

    method HandleRetake()
      modifies this`isCaptured
      ensures !isCaptured
    {
      isCaptured := false;
    }

    /** The user lookup of the open effect finished. */
    method UserLoaded(userId: Option<string>)
      modifies this`currentUserId
      ensures currentUserId == userId
    {
      currentUserId := userId;
    }

    /** The geolocation request of the open effect succeeded. */
    method LocationFound(loc: LatLng)
      modifies this`currentLocation
      ensures currentLocation == Some(loc)
    {
      currentLocation := Some(loc);
    }

    /** The overlay closes: the camera stops and the user id is forgotten. */
    method OnClose()
      modifies this`stream, this`stopped, this`isCaptured, this`currentUserId
      ensures stream.None? && currentUserId.None?
      ensures old(stream).None? ==> stopped == old(stopped) && isCaptured == old(isCaptured)
      ensures old(stream).Some? ==> !isCaptured
      ensures old(stream).Some? ==> stopped == old(stopped) + set i | 0 <= i < |old(stream).value| :: old(stream).value[i]
    {
      StopCamera();
      currentUserId := None;
    }

    /**
     * The start of `handleSavePhoto`: the upload it sends, if any. The
     * sign-in check comes before the canvas and location check.
     */
    method BeginSave(hasCanvas: bool, now: nat, dataUrl: string) returns (sent: Option<UploadCall>)
      modifies this`isUploading, this`events
      ensures !Truthy(currentUserId) ==>
        sent.None? && isUploading == old(isUploading) && events == old(events) + [Alert(NotSignedInAlert)]
      ensures Truthy(currentUserId) && (!hasCanvas || currentLocation.None?) ==>
        sent.None? && isUploading == old(isUploading) && events == old(events) + [Alert(NoLocationAlert)]
      ensures Truthy(currentUserId) && hasCanvas && currentLocation.Some? ==>
        && isUploading && events == old(events)
        && sent == Some(UploadCall(dataUrl, SaveFileName(now), currentLocation.value.lat, currentLocation.value.lng, currentUserId.value))
    {
      if currentUserId.None? || currentUserId.value == "" {
        events := events + [Alert(NotSignedInAlert)];
        return None;
      }
      if !hasCanvas || currentLocation.None? {
        events := events + [Alert(NoLocationAlert)];
        return None;
      }
      isUploading := true;
      var loc := currentLocation.value;
      sent := Some(UploadCall(dataUrl, SaveFileName(now), loc.lat, loc.lng, currentUserId.value));
    }

    /** The end of `handleSavePhoto`, given the upload's outcome. */
    method FinishSave(outcome: Result<PhotosClient.Photo, PhotosClient.ClientError>)
      modifies this`isUploading, this`events
      ensures !isUploading
      ensures outcome.Ok? ==> events == old(events) + [PhotoSaved, Closed]
      ensures outcome.Err? ==> events == old(events) + [Alert(SaveFailedAlert)]
    {
      if outcome.Ok? {
        events := events + [PhotoSaved, Closed];
      } else {
        events := events + [Alert(SaveFailedAlert)];
      }
      isUploading := false;
    }

    /** `handleTouchStart` and `handleMouseDown`. */
    method DragStart(y: real)
      modifies this`dragStart
      ensures dragStart == Some(y)
    {
      dragStart := Some(y);
    }

    /** `handleTouchMove` and `handleMouseMove`. */
    method DragMove(y: real)
      requires Valid()
      modifies this`dragDistance
      ensures Valid()
      ensures dragDistance == DragAfterMove(dragStart, old(dragDistance), y)
    {
      if dragStart.None? {
        return;
      }
      var d := y - dragStart.value;
      if d > 0.0 {
        dragDistance := d;
      }
    }

    /** `endDrag`: closes when dragged more than 100 px, and always resets the drag. */
    method EndDrag()
      modifies this`dragStart, this`dragDistance, this`events
      ensures Valid()
      ensures old(dragDistance) > CloseDistance ==> events == old(events) + [Closed]
      ensures old(dragDistance) <= CloseDistance ==> events == old(events)
      ensures dragStart.None? && dragDistance == 0.0
    {
      if dragDistance > CloseDistance {
        events := events + [Closed];
      }
      dragStart := None;
      dragDistance := 0.0;
    }
  }
}

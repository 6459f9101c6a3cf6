/**
 * The feed page of app/feed/page.tsx: how a load orders the fetched photos
 * (nearest first when the viewer's position is known, newest first
 * otherwise) and how swipes and keys move the current post.
 *
 * Distances are given: `distanceOf(loc, p)` stands for the haversine
 * `distanceInKm`, and `timeOf(s)` for `new Date(s).getTime()`.
 */
module Feed {
  import opened Common
  import opened Sorting
  import PhotosClient

  type Photo = PhotosClient.Photo

  datatype LatLng = LatLng(lat: real, lng: real)

  /** `Photo & { distanceKm?: number | null }` */
  datatype DistancePhoto = DistancePhoto(photo: Photo, distanceKm: Option<real>)

  /** What the geolocation step of a load ends with. */
  datatype GeoOutcome = Unsupported | Denied | Located(loc: LatLng)

  /** Pixels a touch must travel to count as a swipe. */
  const Threshold: real := 50.0

  const UnsupportedMessage := "Geolocation not supported in this browser. Showing unsorted posts."
  const DeniedMessage := "Could not get your location. Showing unsorted posts."
  const LoadFallback := "Failed to load feed."

  // ---------------------------------------------------------------------
  // Ordering

  /** The distance comparator's key: a missing distance is `Number.POSITIVE_INFINITY`. */
  function DistanceKey(p: DistancePhoto): Key {
    if p.distanceKm.Some? then Finite(p.distanceKm.value) else PosInf
  }

  /** The newest-first comparator `b - a` on timestamps is ascending order of `-time`. */
  function RecencyKey(timeOf: string -> int): DistancePhoto -> Key {
    (p: DistancePhoto) => Finite(-(timeOf(p.photo.createdAt) as real))
  }

  /** The fetched photos with their distance attached (`data.map`). */
  function WithDistances(data: seq<Photo>, loc: LatLng, distanceOf: (LatLng, Photo) -> real): (r: seq<DistancePhoto>)
    ensures |r| == |data|
    ensures forall i :: 0 <= i < |data| ==> r[i] == DistancePhoto(data[i], Some(distanceOf(loc, data[i])))
  {
    MapSeq(data, (p: Photo) => DistancePhoto(p, Some(distanceOf(loc, p))))
  }

  /** The fetched photos without a distance (`[...data]`). */
  function WithoutDistances(data: seq<Photo>): (r: seq<DistancePhoto>)
    ensures |r| == |data|
    ensures forall i :: 0 <= i < |data| ==> r[i] == DistancePhoto(data[i], None)
  {
    MapSeq(data, (p: Photo) => DistancePhoto(p, None))
  }

  /** The list a successful load shows. */
  function Arrange(data: seq<Photo>, loc: Option<LatLng>, distanceOf: (LatLng, Photo) -> real, timeOf: string -> int): seq<DistancePhoto> {
    if loc.Some? then Sort(WithDistances(data, loc.value, distanceOf), DistanceKey)
    else Sort(WithoutDistances(data), RecencyKey(timeOf))
  }

  function PhotoOf(p: DistancePhoto): Photo {
    p.photo
  }

  /**
   * Sorting by distance gives a permutation, in non-decreasing distance,
   * with every missing distance after every present one, and ties in their
   * original order.
   */
  lemma ByDistanceOrder(s: seq<DistancePhoto>)
    ensures multiset(Sort(s, DistanceKey)) == multiset(s)
    ensures forall i, j :: 0 <= i < j < |s| && Sort(s, DistanceKey)[i].distanceKm.None? ==>
      Sort(s, DistanceKey)[j].distanceKm.None?
    ensures forall i, j :: 0 <= i < j < |s| && Sort(s, DistanceKey)[j].distanceKm.Some? ==>
      Sort(s, DistanceKey)[i].distanceKm.Some?
      && Sort(s, DistanceKey)[i].distanceKm.value <= Sort(s, DistanceKey)[j].distanceKm.value
    ensures SameKeyOrder(s, Sort(s, DistanceKey), DistanceKey)
  {
    SortPermutation(s, DistanceKey);
    SortSorted(s, DistanceKey);
    SortStable(s, DistanceKey);
  }

  /** Sorting by recency gives a permutation, newest first, ties in their original order. */
  lemma NewestFirstOrder(s: seq<DistancePhoto>, timeOf: string -> int)
    ensures multiset(Sort(s, RecencyKey(timeOf))) == multiset(s)
    ensures forall i, j :: 0 <= i < j < |s| ==>
      timeOf(Sort(s, RecencyKey(timeOf))[i].photo.createdAt) >= timeOf(Sort(s, RecencyKey(timeOf))[j].photo.createdAt)
    ensures SameKeyOrder(s, Sort(s, RecencyKey(timeOf)), RecencyKey(timeOf))
  {
    var key := RecencyKey(timeOf);
    SortPermutation(s, key);
    SortSorted(s, key);
    SortStable(s, key);
    var r := Sort(s, key);
    forall i, j | 0 <= i < j < |s|
      ensures timeOf(r[i].photo.createdAt) >= timeOf(r[j].photo.createdAt)
    {
      assert KeyLe(key(r[i]), key(r[j]));
    }
  }

  /** A load shows exactly the fetched photos, each as often as fetched. */
  lemma ArrangeIsPermutation(data: seq<Photo>, loc: Option<LatLng>, distanceOf: (LatLng, Photo) -> real, timeOf: string -> int)
    ensures multiset(MapSeq(Arrange(data, loc, distanceOf, timeOf), PhotoOf)) == multiset(data)
  {
    if loc.Some? {
      var w := WithDistances(data, loc.value, distanceOf);
      SortMapPermutation(w, DistanceKey, PhotoOf);
      assert MapSeq(w, PhotoOf) == data;
    } else {
      var w := WithoutDistances(data);
      SortMapPermutation(w, RecencyKey(timeOf), PhotoOf);
      assert MapSeq(w, PhotoOf) == data;
    }
  }

  // ---------------------------------------------------------------------
  // Navigation

  datatype Nav = Stay | Next | Prev

  /** `goNext`: one step forward unless already on the last post. */
  function NextIndex(i: int, n: nat): int {
    if i < n - 1 then i + 1 else i
  }

  /** `goPrev`: one step back, never below 0. */
  function PrevIndex(i: int): int {
    if i > 0 then i - 1 else 0
  }

  function Step(a: Nav, i: int, n: nat): int {
    match a
    case Stay => i
    case Next => NextIndex(i, n)
    case Prev => PrevIndex(i)
  }

  /** An index the page can show: a post, or 0 when there are none. */
  predicate InRange(i: int, n: nat) {
    0 <= i && (i < n || i == 0)
  }

  /** `!y` on a touch coordinate: null and 0 both abort the swipe. */
  predicate Unset(y: Option<real>) {
    y.None? || y.value == 0.0
  }

  /** `onTouchEnd`: which way a touch that started at `start` and ended at `end` moves. */
  function SwipeNav(start: Option<real>, end: Option<real>): (a: Nav)
    ensures (Unset(start) || Unset(end)) ==> a == Stay
    ensures !Unset(start) && !Unset(end) ==>
      && (a == Next <==> end.value - start.value <= -Threshold)
      && (a == Prev <==> end.value - start.value >= Threshold)
  {
    if Unset(start) || Unset(end) then Stay
    else
      var delta := end.value - start.value;
      var magnitude := if delta < 0.0 then -delta else delta;
      if magnitude < Threshold then Stay
      else if delta < 0.0 then Next
      else Prev
  }

  /** `onKeyDown` */
  function KeyNav(key: string): (a: Nav)
    ensures a == Prev <==> key == "ArrowUp" || key == "PageUp"
    ensures a == Next <==> key == "ArrowDown" || key == "PageDown"
  {
    if key == "ArrowUp" || key == "PageUp" then Prev
    else if key == "ArrowDown" || key == "PageDown" then Next
    else Stay
  }

  /** Every move keeps the index on a post (or at 0 with no posts). */
  lemma StepInRange(a: Nav, i: int, n: nat)
    requires InRange(i, n)
    ensures InRange(Step(a, i, n), n)
    ensures n == 0 ==> Step(a, i, n) == 0
    ensures a == Next ==> (Step(a, i, n) == i + 1 <==> i < n - 1)
    ensures a == Prev ==> (Step(a, i, n) == i - 1 <==> i > 0)
  {
  }

  /** The index after `k` moves of the same kind. */
  function Repeat(a: Nav, k: nat, i: int, n: nat): int {
    if k == 0 then i else Repeat(a, k - 1, Step(a, i, n), n)
  }

  /** `k` steps forward from post `i` reach post `i + k`, or stop on the last one. */
  lemma {:induction false} RepeatNext(k: nat, i: int, n: nat)
    requires n > 0 && 0 <= i < n
    ensures Repeat(Next, k, i, n) == if i + k < n then i + k else n - 1
  {
    if k > 0 {
      RepeatNext(k - 1, NextIndex(i, n), n);
    }
  }

  /** `k` steps back reach post `i - k`, or stop on the first one. */
  lemma {:induction false} RepeatPrev(k: nat, i: int, n: nat)
    requires 0 <= i
    ensures Repeat(Prev, k, i, n) == if i - k > 0 then i - k else 0
  {
    if k > 0 {
      RepeatPrev(k - 1, PrevIndex(i), n);
    }
  }

  // ---------------------------------------------------------------------
  // The page state

  class FeedPage {
    var photos: seq<DistancePhoto>
    var currentIndex: int
    var userLocation: Option<LatLng>
    var loading: bool
    var locError: Option<string>
    var error: Option<string>
    var touchStartY: Option<real>
    var touchEndY: Option<real>

    ghost predicate Valid()
      reads this
    {
      InRange(currentIndex, |photos|)
    }

    constructor ()
      ensures Valid()
      ensures photos == [] && currentIndex == 0 && userLocation.None? && loading
      ensures locError.None? && error.None? && touchStartY.None? && touchEndY.None?
    {
      photos := [];
      currentIndex := 0;
      userLocation := None;
      loading := true;
      locError := None;
      error := None;
      touchStartY := None;
      touchEndY := None;
    }

    method GoNext()
      requires Valid()
      modifies this`currentIndex
      ensures Valid()
      ensures currentIndex == NextIndex(old(currentIndex), |photos|)
    {
      currentIndex := if currentIndex < |photos| - 1 then currentIndex + 1 else currentIndex;
    }

    method GoPrev()
      requires Valid()
      modifies this`currentIndex
      ensures Valid()
      ensures currentIndex == PrevIndex(old(currentIndex))
    {
      currentIndex := if currentIndex > 0 then currentIndex - 1 else 0;
    }

    method TouchStart(y: real)
      modifies this`touchStartY, this`touchEndY
      ensures touchStartY == Some(y) && touchEndY == None
    {
      touchEndY := None;
      touchStartY := Some(y);
    }

    method TouchMove(y: real)
      modifies this`touchEndY
      ensures touchEndY == Some(y)
    {
      touchEndY := Some(y);
    }

    method TouchEnd()
      requires Valid()
      modifies this`currentIndex
      ensures Valid()
      ensures currentIndex == Step(SwipeNav(touchStartY, touchEndY), old(currentIndex), |photos|)
    {
      if touchStartY.None? || touchStartY.value == 0.0 || touchEndY.None? || touchEndY.value == 0.0 {
        return;
      }
      var deltaY := touchEndY.value - touchStartY.value;
      if (if deltaY < 0.0 then -deltaY else deltaY) < Threshold {
        return;
      }
      if deltaY < 0.0 {
        GoNext();
      } else {
        GoPrev();
      }
    }

    method KeyDown(key: string)
      requires Valid()
      modifies this`currentIndex
      ensures Valid()
      ensures currentIndex == Step(KeyNav(key), old(currentIndex), |photos|)
    {
      if key == "ArrowUp" || key == "PageUp" {
        GoPrev();
      } else if key == "ArrowDown" || key == "PageDown" {
        GoNext();
      }
    }

    /**
     * One run of `load`. `cancelled` says the page went away while the
     * photos were being fetched; `fetched` is what `photosAPI.getAll` gave,
     * or the `message` of what it threw.
     */
    method Load(geo: GeoOutcome, fetched: Result<seq<Photo>, Option<string>>, cancelled: bool,
                distanceOf: (LatLng, Photo) -> real, timeOf: string -> int)
      requires Valid()
      modifies this`photos, this`currentIndex, this`userLocation, this`loading, this`locError, this`error
      ensures Valid()
      ensures geo.Located? ==> userLocation == Some(geo.loc) && locError.None?
      ensures geo.Denied? ==> userLocation.None? && locError == Some(DeniedMessage)
      ensures geo.Unsupported? ==> userLocation == old(userLocation) && locError == Some(UnsupportedMessage)
      // a cancelled load changes nothing once the fetch returns
      ensures cancelled ==> photos == old(photos) && currentIndex == old(currentIndex) && loading && error.None?
      ensures !cancelled && fetched.Ok? ==>
        && photos == Arrange(fetched.value, if geo.Located? then Some(geo.loc) else None, distanceOf, timeOf)
        && currentIndex == 0 && error.None? && !loading
      ensures !cancelled && fetched.Err? ==>
        && photos == old(photos) && currentIndex == old(currentIndex)
        && error == Some(fetched.error.GetOr(LoadFallback)) && !loading
    {
      loading := true;
      error := None;
      locError := None;
      var loc: Option<LatLng> := None;
      match geo {
        case Located(l) =>
          loc := Some(l);
          userLocation := loc;
        case Denied =>
          locError := Some(DeniedMessage);
          userLocation := None;
        case Unsupported =>
          locError := Some(UnsupportedMessage);
      }
      if cancelled {
        return;
      }
      match fetched {
        case Ok(data) =>
          var withDistances: seq<DistancePhoto>;
          if loc.Some? {
            withDistances := WithDistances(data, loc.value, distanceOf);
            withDistances := Sort(withDistances, DistanceKey);
          } else {
            withDistances := Sort(WithoutDistances(data), RecencyKey(timeOf));
          }
          photos := withDistances;
          currentIndex := 0;
        case Err(message) =>
          error := Some(message.GetOr(LoadFallback));
      }
      loading := false;
    }
  }
}

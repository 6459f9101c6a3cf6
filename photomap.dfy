/**
 * The photo layer of components/Map.tsx: the id-keyed marker table that each
 * render clears and rebuilds from the photo list, the right-click delete and
 * the photo reload.
 *
 * The markers on the map are a map from marker handles to positions; a new
 * marker takes the next unused handle. The marker table maps a photo id to
 * the handle of its marker. Mapbox itself (construction, controls, `flyTo`,
 * styling) is not part of this model.
 */
module PhotoMap {
  import opened Common
  import PhotosClient

  type Photo = PhotosClient.Photo

  /** `[lng, lat]` */
  datatype LngLat = LngLat(lng: real, lat: real)

  /** The markers on the map, the photo-marker table and the next free handle. */
  datatype Markers = Markers(shown: map<nat, LngLat>, table: map<string, nat>, next: nat)

  const DeleteFailedAlert := "Failed to delete photo. Please try again."

  function Position(p: Photo): LngLat {
    LngLat(p.longitude, p.latitude)
  }

  function Ids(ps: seq<Photo>): set<string> {
    set p | p in ps :: p.id
  }

  /** Every handle on the map is below `next`, and every table entry is on the map. */
  predicate WellFormed(m: Markers) {
    && (forall h :: h in m.shown ==> h < m.next)
    && (forall id :: id in m.table ==> m.table[id] in m.shown)
  }

  /** Removes every marker of the table from the map and empties the table (lines 112-113). */
  function Clear(m: Markers): Markers {
    Markers(m.shown - m.table.Values, map[], m.next)
  }

  /** Adds a marker for `p` at its position and records it under its id (lines 154-158). */
  function Place(m: Markers, p: Photo): Markers {
    Markers(m.shown[m.next := Position(p)], m.table[p.id := m.next], m.next + 1)
  }

  /** `photos.forEach(...)`: one marker per photo, in list order. */
  function PlaceAll(m: Markers, ps: seq<Photo>): Markers
    decreases |ps|
  {
    if ps == [] then m else Place(PlaceAll(m, ps[..|ps| - 1]), ps[|ps| - 1])
  }

  /** The render effect on a ready map. */
  function Render(m: Markers, ps: seq<Photo>): Markers {
    PlaceAll(Clear(m), ps)
  }

  /** `id` does not occur in `ps` after position `i`. */
  predicate LastWithId(ps: seq<Photo>, i: int)
    requires 0 <= i < |ps|
  {
    forall j :: i < j < |ps| ==> ps[j].id != ps[i].id
  }

  lemma {:induction false} PlaceAllNext(m: Markers, ps: seq<Photo>)
    ensures PlaceAll(m, ps).next == m.next + |ps|
    decreases |ps|
  {
    if ps != [] {
      PlaceAllNext(m, ps[..|ps| - 1]);
    }
  }

  lemma PlaceWellFormed(m: Markers, p: Photo)
    requires WellFormed(m)
    ensures WellFormed(Place(m, p))
  {
  }

  lemma {:induction false} PlaceAllWellFormed(m: Markers, ps: seq<Photo>)
    requires WellFormed(m)
    ensures WellFormed(PlaceAll(m, ps))
    decreases |ps|
  {
    if ps != [] {
      PlaceAllWellFormed(m, ps[..|ps| - 1]);
      PlaceWellFormed(PlaceAll(m, ps[..|ps| - 1]), ps[|ps| - 1]);
    }
  }

  /** Placing adds one marker per photo at fresh handles and leaves the markers already on the map alone. */
  lemma {:induction false} PlaceAllMarkers(m: Markers, ps: seq<Photo>)
    requires forall h :: h in m.shown ==> h < m.next
    ensures forall h :: h in m.shown ==> h in PlaceAll(m, ps).shown && PlaceAll(m, ps).shown[h] == m.shown[h]
    ensures forall h :: h in PlaceAll(m, ps).shown <==> h in m.shown || m.next <= h < m.next + |ps|
    ensures forall k :: 0 <= k < |ps| ==> m.next + k in PlaceAll(m, ps).shown && PlaceAll(m, ps).shown[m.next + k] == Position(ps[k])
    decreases |ps|
  {
    if ps != [] {
      var init, last := ps[..|ps| - 1], ps[|ps| - 1];
      PlaceAllMarkers(m, init);
      PlaceAllNext(m, init);
      var before := PlaceAll(m, init);
      var after := PlaceAll(m, ps);
      assert after.shown == before.shown[m.next + |init| := Position(last)];
      forall k | 0 <= k < |ps|
        ensures m.next + k in after.shown && after.shown[m.next + k] == Position(ps[k])
      {
        if k < |init| {
          assert init[k] == ps[k];
        }
      }
    }
  }

  lemma IdsSnoc(init: seq<Photo>, last: Photo)
    ensures Ids(init + [last]) == Ids(init) + {last.id}
  {
    var ps := init + [last];
    forall id | id in Ids(ps) ensures id in Ids(init) + {last.id} {
      var p :| p in ps && p.id == id;
      if p != last {
        assert p in init;
      }
    }
    forall id | id in Ids(init) ensures id in Ids(ps) {
      var p :| p in init && p.id == id;
      assert p in ps;
    }
    assert last in ps;
  }

  /** After placing, the table holds the old ids and every placed id. */
  lemma {:induction false} PlaceAllTableKeys(m: Markers, ps: seq<Photo>)
    ensures PlaceAll(m, ps).table.Keys == m.table.Keys + Ids(ps)
    decreases |ps|
  {
    if ps == [] {
      assert Ids(ps) == {};
    } else {
      var init, last := ps[..|ps| - 1], ps[|ps| - 1];
      PlaceAllTableKeys(m, init);
      assert ps == init + [last];
      IdsSnoc(init, last);
      var before := PlaceAll(m, init);
      assert PlaceAll(m, ps).table == before.table[last.id := before.next];
    }
  }

  /** After placing, a listed id points at the marker of the last photo with that id. */
  lemma {:induction false} PlaceAllTableLast(m: Markers, ps: seq<Photo>)
    ensures forall i :: 0 <= i < |ps| && LastWithId(ps, i) ==>
      ps[i].id in PlaceAll(m, ps).table && PlaceAll(m, ps).table[ps[i].id] == m.next + i
    decreases |ps|
  {
    if ps != [] {
      var init, last := ps[..|ps| - 1], ps[|ps| - 1];
      PlaceAllTableLast(m, init);
      PlaceAllNext(m, init);
      var before := PlaceAll(m, init);
      var after := PlaceAll(m, ps);
      assert after.table == before.table[last.id := m.next + |init|];
      forall i | 0 <= i < |ps| && LastWithId(ps, i)
        ensures ps[i].id in after.table && after.table[ps[i].id] == m.next + i
      {
        if i < |init| {
          assert ps[|ps| - 1].id != ps[i].id;
          assert init[i] == ps[i];
          assert LastWithId(init, i);
        }
      }
    }
  }

  lemma ClearWellFormed(m: Markers)
    requires WellFormed(m)
    ensures WellFormed(Clear(m)) && Clear(m).next == m.next && Clear(m).table == map[]
    ensures forall h :: h in Clear(m).shown <==> h in m.shown && h !in m.table.Values
  {
  }

  /** A render on a ready map keeps the markers well formed, and its table holds exactly the listed ids. */
  lemma RenderTable(m: Markers, ps: seq<Photo>)
    requires WellFormed(m)
    ensures WellFormed(Render(m, ps))
    ensures Render(m, ps).table.Keys == Ids(ps)
    ensures ps == [] ==> Render(m, ps).table == map[]
  {
    ClearWellFormed(m);
    PlaceAllWellFormed(Clear(m), ps);
    PlaceAllTableKeys(Clear(m), ps);
  }

  /** After a render, each listed id's marker sits at the last photo with that id. */
  lemma RenderPositions(m: Markers, ps: seq<Photo>)
    requires WellFormed(m)
    ensures forall i :: 0 <= i < |ps| && LastWithId(ps, i) ==>
      && ps[i].id in Render(m, ps).table
      && Render(m, ps).table[ps[i].id] in Render(m, ps).shown
      && Render(m, ps).shown[Render(m, ps).table[ps[i].id]] == Position(ps[i])
  {
    var c := Clear(m);
    ClearWellFormed(m);
    PlaceAllMarkers(c, ps);
    PlaceAllTableLast(c, ps);
  }

  /** A render removes every marker the old table held and keeps the markers it did not hold. */
  lemma RenderReplacesOldMarkers(m: Markers, ps: seq<Photo>)
    requires WellFormed(m)
    ensures forall id :: id in m.table ==> m.table[id] !in Render(m, ps).shown
    ensures forall h :: h in m.shown && h !in m.table.Values ==> h in Render(m, ps).shown
  {
    var c := Clear(m);
    ClearWellFormed(m);
    PlaceAllMarkers(c, ps);
    forall id | id in m.table
      ensures m.table[id] !in Render(m, ps).shown
    {
      assert m.table[id] in m.table.Values;
    }
  }

  /**
   * With distinct ids and no marker off the table, a render keeps every
   * marker on the map in the table.
   */
  lemma RenderNoStrayMarkers(m: Markers, ps: seq<Photo>)
    requires WellFormed(m) && m.shown.Keys == m.table.Values
    requires forall i, j :: 0 <= i < j < |ps| ==> ps[i].id != ps[j].id
    ensures Render(m, ps).shown.Keys == Render(m, ps).table.Values
  {
    var c := Clear(m);
    ClearWellFormed(m);
    assert forall h :: h !in c.shown;
    PlaceAllMarkers(c, ps);
    PlaceAllTableLast(c, ps);
    RenderTable(m, ps);
    // with distinct ids every photo is the last with its id
    assert forall i :: 0 <= i < |ps| ==> LastWithId(ps, i);
    TableCoversRange(Render(m, ps), m.next, ps);
  }

  /** Markers exactly at the handles `lo .. lo + |ps| - 1`, each in the table, leave no stray marker. */
  lemma TableCoversRange(r: Markers, lo: nat, ps: seq<Photo>)
    requires WellFormed(r)
    requires forall h :: h in r.shown <==> lo <= h < lo + |ps|
    requires forall i :: 0 <= i < |ps| ==> ps[i].id in r.table && r.table[ps[i].id] == lo + i
    ensures r.shown.Keys == r.table.Values
  {
    forall h | h in r.shown
      ensures h in r.table.Values
    {
      assert r.table[ps[h - lo].id] == h;
    }
    forall h | h in r.table.Values
      ensures h in r.shown
    {
      var id :| id in r.table && r.table[id] == h;
    }
  }

  /**
   * A photo id listed twice: both markers go on the map, the table keeps the
   * second, and the next render cannot remove the first.
   */
  lemma DuplicateIdLeaksMarker(p: Photo)
    ensures Render(Markers(map[], map[], 0), [p, p]).shown.Keys == {0, 1}
    ensures Render(Markers(map[], map[], 0), [p, p]).table == map[p.id := 1]
    ensures Render(Render(Markers(map[], map[], 0), [p, p]), [p, p]).shown.Keys == {0, 2, 3}
  {
    var ps := [p, p];
    var pos := Position(p);
    assert ps[..1] == [p] && [p][..0] == [];
    var e := Markers(map[], map[], 0);
    assert Clear(e) == e;
    assert PlaceAll(e, [p]) == Markers(map[0 := pos], map[p.id := 0], 1);
    var r1 := Render(e, ps);
    assert r1 == Markers(map[0 := pos, 1 := pos], map[p.id := 1], 2);
    assert r1.table.Values == {1} by {
      assert r1.table[p.id] == 1;
      forall v | v in r1.table.Values ensures v == 1 {
        var k :| k in r1.table && r1.table[k] == v;
      }
    }
    var c := Clear(r1);
    assert c.shown == map[0 := pos];
    assert PlaceAll(c, [p]) == Markers(map[0 := pos, 2 := pos], map[p.id := 2], 3);
    assert Render(r1, ps).shown == map[0 := pos, 2 := pos, 3 := pos];
  }

  /** `prev.filter((p) => p.id !== id)` */
  function WithoutId(ps: seq<Photo>, id: string): seq<Photo> {
    Filter(ps, (p: Photo) => p.id != id)
  }

  /** Deleting by id drops every photo with that id and keeps every other one. */
  lemma WithoutIdMembers(ps: seq<Photo>, id: string)
    ensures forall p :: p in WithoutId(ps, id) <==> p in ps && p.id != id
    ensures id !in Ids(ps) ==> WithoutId(ps, id) == ps
  {
    forall p ensures p in WithoutId(ps, id) <==> p in ps && p.id != id {
      FilterMembership(ps, (p: Photo) => p.id != id, p);
    }
    if id !in Ids(ps) {
      FilterKeepsAll(ps, (p: Photo) => p.id != id);
    }
  }

  /** Deleting by id keeps the order of the photos that remain. */
  lemma WithoutIdKeepsOrder(a: seq<Photo>, b: seq<Photo>, id: string)
    ensures WithoutId(a + b, id) == WithoutId(a, id) + WithoutId(b, id)
  {
    FilterAppend(a, b, (p: Photo) => p.id != id);
  }

  /** The map component: whether the Mapbox map exists, the photo state, the markers and the alerts shown. */
  class MapView {
    var ready: bool
    var photos: seq<Photo>
    var shown: map<nat, LngLat>
    var table: map<string, nat>
    var nextHandle: nat
    var alerts: seq<string>

    function State(): Markers
      reads this
    {
      Markers(shown, table, nextHandle)
    }

    ghost predicate Valid()
      reads this
    {
      WellFormed(State())
    }

    constructor ()
      ensures Valid() && !ready && photos == [] && State() == Markers(map[], map[], 0) && alerts == []
    {
      ready := false;
      photos := [];
      shown := map[];
      table := map[];
      nextHandle := 0;
      alerts := [];
    }

    /** The init effect has created the map. */
    method Attach()
      modifies this`ready
      ensures ready
    {
      ready := true;
    }

    /** The render effect (lines 108-160). */
    method RenderMarkers()
      requires Valid()
      modifies this`shown, this`table, this`nextHandle
      ensures Valid()
      ensures !ready ==> State() == old(State())
      ensures ready ==> State() == Render(old(State()), photos)
    {
      if !ready {
        return;
      }
      // remove the markers of the table one by one
      var pending := table.Values;
      while pending != {}
        invariant pending <= old(table).Values
        invariant shown == old(shown) - (old(table).Values - pending)
        invariant table == old(table) && nextHandle == old(nextHandle)
        decreases pending
      {
        var h :| h in pending;
        shown := shown - {h};
        pending := pending - {h};
      }
      table := map[];
      var i := 0;
      while i < |photos|
        invariant 0 <= i <= |photos|
        invariant State() == PlaceAll(Clear(old(State())), photos[..i])
      {
        var photo := photos[i];
        assert photos[..i + 1][..i] == photos[..i];
        shown := shown[nextHandle := LngLat(photo.longitude, photo.latitude)];
        table := table[photo.id := nextHandle];
        nextHandle := nextHandle + 1;
        i := i + 1;
      }
      assert photos[..i] == photos;
      RenderTable(old(State()), photos);
    }

    /** The contextmenu handler: the user's answer to "Delete this photo?" and the delete call's outcome are inputs. */
    method ContextDelete(id: string, confirmed: bool, outcome: Result<(), PhotosClient.ClientError>)
      modifies this`photos, this`alerts
      ensures !confirmed ==> photos == old(photos) && alerts == old(alerts)
      ensures confirmed && outcome.Ok? ==> photos == WithoutId(old(photos), id) && alerts == old(alerts)
      ensures confirmed && outcome.Err? ==> photos == old(photos) && alerts == old(alerts) + [DeleteFailedAlert]
    {
      if !confirmed {
        return;
      }
      if outcome.Ok? {
        photos := Filter(photos, (p: Photo) => p.id != id);
      } else {
        alerts := alerts + [DeleteFailedAlert];
      }
    }

    /** `loadPhotos`: a failed fetch leaves the list as it was. */
    method LoadPhotos(fetched: Result<seq<Photo>, PhotosClient.ClientError>)
      modifies this`photos
      ensures fetched.Ok? ==> photos == fetched.value
      ensures fetched.Err? ==> photos == old(photos)
    {
      if fetched.Ok? {
        photos := fetched.value;
      }
    }
  }
}

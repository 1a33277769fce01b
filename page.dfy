/**
 The page that owns the saved-places list (app/page.tsx): the list, the pending
 selection, the save dialog flag, the map centre, the browser's local storage,
 and the camera calls issued on the map handle once the map reports it.
 */
module Page {

  import opened Wrappers
  import opened MapsSdk

  /** One saved place. `id` and `createdAt` come from the clock and are taken as given. */
  datatype SavedPlace = SavedPlace(id: string, name: string, lat: real, lng: real, createdAt: string)

  /** The local-storage key the list is kept under. */
  const StorageKey: string := "myPlaces"

  /** The centre used until geolocation answers (Nairobi). */
  const DefaultCenter: LatLng := LatLng(-1.286389, 36.817223)

  /** The zoom level of every programmatic recentre. */
  const RecenterZoom: int := 15

  function Coordinate(p: SavedPlace): LatLng
  {
    LatLng(p.lat, p.lng)
  }

  /** `places.filter(place => place.id !== id)`. */
  function WithoutId(places: seq<SavedPlace>, id: string): (r: seq<SavedPlace>)
    ensures |r| <= |places|
    ensures forall k :: 0 <= k < |r| ==> r[k].id != id
  {
    if places == [] then []
    else if places[0].id != id then [places[0]] + WithoutId(places[1..], id)
    else WithoutId(places[1..], id)
  }

  /** `sub` is `s` with some entries left out and the rest in their original order. */
  predicate IsSubsequence(sub: seq<SavedPlace>, s: seq<SavedPlace>)
  {
    if sub == [] then true
    else if s == [] then false
    else if sub[0] == s[0] then IsSubsequence(sub[1..], s[1..])
    else IsSubsequence(sub, s[1..])
  }

  predicate HasId(places: seq<SavedPlace>, id: string)
  {
    exists k :: 0 <= k < |places| && places[k].id == id
  }

  /** No two entries share an id (the code does not enforce this, see `AppendKeepsIdsUnique`). */
  predicate UniqueIds(places: seq<SavedPlace>)
  {
    forall i, j :: 0 <= i < j < |places| ==> places[i].id != places[j].id
  }

  /** Deleting keeps exactly the entries with another id, each as often as before. */
  lemma {:induction false} WithoutIdContents(places: seq<SavedPlace>, id: string, p: SavedPlace)
    ensures multiset(WithoutId(places, id))[p] == if p.id == id then 0 else multiset(places)[p]
  {
    if places != [] {
      WithoutIdContents(places[1..], id, p);
      assert places == [places[0]] + places[1..];
    }
  }

  /** Deleting keeps the surviving entries in their original order. */
  lemma {:induction false} WithoutIdKeepsOrder(places: seq<SavedPlace>, id: string)
    ensures IsSubsequence(WithoutId(places, id), places)
  {
    if places != [] {
      WithoutIdKeepsOrder(places[1..], id);
      if places[0].id != id {
        assert WithoutId(places, id)[1..] == WithoutId(places[1..], id);
      } else {
        SkipHead(WithoutId(places[1..], id), places);
      }
    }
  }

  lemma {:induction false} SkipHead(sub: seq<SavedPlace>, s: seq<SavedPlace>)
    requires s != [] && IsSubsequence(sub, s[1..])
    ensures IsSubsequence(sub, s)
  {
    if sub != [] && sub[0] == s[0] {
      if s[1..] != [] {
        TailOfSubsequence(sub, s[1..]);
      }
    }
  }

  lemma {:induction false} TailOfSubsequence(sub: seq<SavedPlace>, s: seq<SavedPlace>)
    requires sub != [] && IsSubsequence(sub, s)
    ensures IsSubsequence(sub[1..], s)
  {
    assert s != [];
    if sub[0] == s[0] {
      if sub[1..] != [] {
        TailOfSubsequence(sub[1..], s[1..]);
        SkipHead(sub[1..], s);
      }
    } else {
      TailOfSubsequence(sub, s[1..]);
      SkipHead(sub[1..], s);
    }
  }

  /** Deleting an id that no entry has leaves the list as it was; deleting one that some entry has shortens it. */
  lemma {:induction false} WithoutIdUnchangedIffAbsent(places: seq<SavedPlace>, id: string)
    ensures WithoutId(places, id) == places <==> !HasId(places, id)
    ensures HasId(places, id) ==> |WithoutId(places, id)| < |places|
  {
    if places != [] {
      WithoutIdUnchangedIffAbsent(places[1..], id);
      WithoutIdShorter(places[1..], id);
      if HasId(places, id) && places[0].id != id {
        var k :| 0 <= k < |places| && places[k].id == id;
        assert places[1..][k - 1].id == id;
      }
      if !HasId(places, id) {
        forall k | 0 <= k < |places[1..]| ensures places[1..][k].id != id {
          assert places[1..][k] == places[k + 1];
        }
      }
    }
  }

  lemma {:induction false} WithoutIdShorter(places: seq<SavedPlace>, id: string)
    ensures |WithoutId(places, id)| <= |places|
  {
    if places != [] {
      WithoutIdShorter(places[1..], id);
    }
  }

  /** After a delete no entry carries that id, and deleting it again changes nothing. */
  lemma WithoutIdIdempotent(places: seq<SavedPlace>, id: string)
    ensures !HasId(WithoutId(places, id), id)
    ensures WithoutId(WithoutId(places, id), id) == WithoutId(places, id)
  {
    var r := WithoutId(places, id);
    forall k | 0 <= k < |r| ensures r[k].id != id {
      assert r[k] in multiset(r);
      WithoutIdContents(places, id, r[k]);
    }
    WithoutIdUnchangedIffAbsent(r, id);
  }

  /** Deleting keeps ids unique. */
  lemma {:induction false} WithoutIdKeepsIdsUnique(places: seq<SavedPlace>, id: string)
    requires UniqueIds(places)
    ensures UniqueIds(WithoutId(places, id))
  {
    if places != [] {
      WithoutIdKeepsIdsUnique(places[1..], id);
      var rest := WithoutId(places[1..], id);
      forall k | 0 <= k < |rest| ensures rest[k].id != places[0].id {
        assert rest[k] in multiset(rest);
        WithoutIdContents(places[1..], id, rest[k]);
        assert rest[k] in places[1..];
        var m :| 0 <= m < |places[1..]| && places[1..][m] == rest[k];
        assert places[m + 1] == rest[k];
      }
    }
  }

  /** Appending keeps ids unique exactly when the new id is not already in the list. */
  lemma AppendKeepsIdsUnique(places: seq<SavedPlace>, p: SavedPlace)
    requires UniqueIds(places)
    ensures UniqueIds(places + [p]) <==> !HasId(places, p.id)
  {
    var s := places + [p];
    if HasId(places, p.id) {
      var k :| 0 <= k < |places| && places[k].id == p.id;
      assert s[k].id == s[|places|].id;
    }
  }

  /** How geolocation answered: not available, an error, or a position. */
  datatype GeoOutcome = Unavailable | Failed | Located(at: LatLng)

  /** The page state that the handlers update. */
  datatype AppState = AppState(
    places: seq<SavedPlace>,
    selected: Option<LatLng>,
    modalOpen: bool,
    center: LatLng,
    storage: map<string, seq<SavedPlace>>)

  /** The page component. `mapRef` is the map handle once `onMapLoad` has reported it. */
  class App {
    var places: seq<SavedPlace>
    var selected: Option<LatLng>
    var modalOpen: bool
    var center: LatLng
    var storage: map<string, seq<SavedPlace>>
    var mapRef: GMap?

    function State(): AppState
      reads this
    {
      AppState(places, selected, modalOpen, center, storage)
    }

    /** Storage under `myPlaces` holds exactly the current list. */
    predicate Persisted()
      reads this
    {
      StorageKey in storage && storage[StorageKey] == places
    }

    /** The first render: empty list, nothing selected, dialog closed, default centre. */
    constructor (storage: map<string, seq<SavedPlace>>)
      ensures State() == AppState([], None, false, DefaultCenter, storage)
      ensures mapRef == null
    {
      places := [];
      selected := None;
      modalOpen := false;
      center := DefaultCenter;
      this.storage := storage;
      mapRef := null;
    }

    /** The persist effect: the whole list is written under `myPlaces`, other keys untouched. */
    method Persist()
      modifies this
      ensures State() == old(State()).(storage := old(storage)[StorageKey := places])
      ensures Persisted()
      ensures mapRef == old(mapRef)
    {
      storage := storage[StorageKey := places];
    }

    /** The mount effects: a stored list replaces the empty one, then the list is persisted. */
    method Mount()
      modifies this
      ensures places == if StorageKey in old(storage) then old(storage)[StorageKey] else old(places)
      ensures StorageKey !in old(storage) ==> places == old(places)
      ensures State() == old(State()).(places := places, storage := old(storage)[StorageKey := places])
      ensures Persisted()
      ensures mapRef == old(mapRef)
    {
      if StorageKey in storage {
        places := storage[StorageKey];
      }
      Persist();
    }

    /** The geolocation callbacks: only a position moves the centre. */
    method OnGeolocation(outcome: GeoOutcome)
      modifies this
      ensures outcome.Located? ==> State() == old(State()).(center := outcome.at)
      ensures !outcome.Located? ==> State() == old(State())
      ensures mapRef == old(mapRef)
    {
      if outcome.Located? {
        center := outcome.at;
      }
    }

    /** `onMapLoad`: the page keeps the map handle. */
    method OnMapLoad(handle: GMap)
      modifies this
      ensures mapRef == handle && State() == old(State())
    {
      mapRef := handle;
    }

    /** `handleMapClick`: select the clicked point and open the save dialog. */
    method HandleMapClick(lat: real, lng: real)
      modifies this
      ensures State() == old(State()).(selected := Some(LatLng(lat, lng)), modalOpen := true)
      ensures mapRef == old(mapRef)
    {
      selected := Some(LatLng(lat, lng));
      modalOpen := true;
    }

    /** The dialog's `onClose`: close it and drop the selection. */
    method CloseModal()
      modifies this
      ensures State() == old(State()).(selected := None, modalOpen := false)
      ensures mapRef == old(mapRef)
    {
      modalOpen := false;
      selected := None;
    }

    /**
     `handleSavePlace(name)` with the clock's `id` and `createdAt`: without a selection
     nothing happens; otherwise the new place goes last, the list is persisted, and
     the dialog closes with the selection cleared.
     */
    method HandleSavePlace(name: string, id: string, createdAt: string)
      requires Persisted()
      modifies this
      ensures Persisted()
      ensures old(selected).None? ==> State() == old(State())
      ensures old(selected).Some? ==>
        && |places| == |old(places)| + 1
        && places[..|old(places)|] == old(places)
        && places[|places| - 1] == SavedPlace(id, name, old(selected).value.lat, old(selected).value.lng, createdAt)
        && State() == old(State()).(places := places, selected := None, modalOpen := false,
                                    storage := old(storage)[StorageKey := places])
      ensures mapRef == old(mapRef)
    {
      if selected.Some? {
        var newPlace := SavedPlace(id, name, selected.value.lat, selected.value.lng, createdAt);
        places := places + [newPlace];
        Persist();
        modalOpen := false;
        selected := None;
      }
    }

    /** `handleDeletePlace(id)`: every entry with that id goes, the rest keep their order, and the list is persisted. */
    method HandleDeletePlace(id: string)
      modifies this
      ensures places == WithoutId(old(places), id)
      ensures State() == old(State()).(places := places, storage := old(storage)[StorageKey := places])
      ensures Persisted()
      ensures mapRef == old(mapRef)
    {
      places := WithoutId(places, id);
      Persist();
    }

    /** Move the centre; with a map handle, also pan to the point and then zoom to 15. */
    method Recenter(at: LatLng)
      modifies this, mapRef
      ensures State() == old(State()).(center := at)
      ensures mapRef == old(mapRef)
      ensures mapRef != null ==>
        && mapRef.calls == old(mapRef.calls) + [PanTo(at), SetZoom(RecenterZoom)]
        && mapRef.center == at && mapRef.zoom == RecenterZoom
    {
      center := at;
      if mapRef != null {
        mapRef.PanTo(at);
        mapRef.SetZoom(RecenterZoom);
      }
    }

    /** `handlePlaceSelect(place)`: recentre on a saved place. */
    method HandlePlaceSelect(place: SavedPlace)
      modifies this, mapRef
      ensures State() == old(State()).(center := Coordinate(place))
      ensures mapRef == old(mapRef)
      ensures mapRef != null ==>
        && mapRef.calls == old(mapRef.calls) + [PanTo(Coordinate(place)), SetZoom(RecenterZoom)]
        && mapRef.center == Coordinate(place) && mapRef.zoom == RecenterZoom
    {
      Recenter(Coordinate(place));
    }

    /** `handleSearchSelect(lat, lng)`: recentre on a search result. */
    method HandleSearchSelect(lat: real, lng: real)
      modifies this, mapRef
      ensures State() == old(State()).(center := LatLng(lat, lng))
      ensures mapRef == old(mapRef)
      ensures mapRef != null ==>
        && mapRef.calls == old(mapRef.calls) + [PanTo(LatLng(lat, lng)), SetZoom(RecenterZoom)]
        && mapRef.center == LatLng(lat, lng) && mapRef.zoom == RecenterZoom
    {
      Recenter(LatLng(lat, lng));
    }
  }

  /**
   Two clicks saved as "Home" and "Work" under distinct ids, then the first deleted:
   one entry is left, the second, and storage holds exactly that.
   */
  method SaveTwoDeleteFirst(home: LatLng, work: LatLng, id1: string, id2: string, at: string)
    returns (remaining: seq<SavedPlace>, stored: seq<SavedPlace>)
    requires id1 != id2
    ensures remaining == [SavedPlace(id2, "Work", work.lat, work.lng, at)]
    ensures stored == remaining
  {
    var app := new App(map[]);
    app.Mount();
    app.HandleMapClick(home.lat, home.lng);
    app.HandleSavePlace("Home", id1, at);
    app.HandleMapClick(work.lat, work.lng);
    app.HandleSavePlace("Work", id2, at);
    var first := SavedPlace(id1, "Home", home.lat, home.lng, at);
    var second := SavedPlace(id2, "Work", work.lat, work.lng, at);
    assert app.places == [first, second];
    assert WithoutId([first, second], id1) == WithoutId([second], id1);
    assert [second][1..] == [];
    assert WithoutId([second], id1) == [second];
    app.HandleDeletePlace(id1);
    remaining := app.places;
    stored := app.storage[StorageKey];
  }
}

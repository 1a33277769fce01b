/**
 The map view (components/map-component.tsx): it builds the map once the SDK is
 ready, forwards clicks, follows the centre prop, and keeps one marker per saved
 place by tearing every marker down and rebuilding them on each change of the list.
 */
module MapComponent {

  import opened Wrappers
  import opened MapsSdk
  import opened Page
  import GoogleMapsLoader

  /** The zoom of a newly built map. */
  const InitialZoom: int := 13

  /** What the component renders. */
  datatype View = ErrorPanel | Spinner | MapContainer

  /** The render branches: an error wins over everything, then the spinner until loaded, then the map container. */
  function RenderBranch(isLoaded: bool, loadError: Option<string>): (v: View)
    ensures v == ErrorPanel <==> loadError.Some?
    ensures v == Spinner <==> loadError.None? && !isLoaded
    ensures v == MapContainer <==> loadError.None? && isLoaded
  {
    if loadError.Some? then ErrorPanel
    else if !isLoaded then Spinner
    else MapContainer
  }

  /** A map click event; `latLng` may be missing. */
  datatype MapMouseEvent = MapMouseEvent(latLng: Option<LatLng>)

  /** The map component with its hook instance, its map instance and the markers it tracks. */
  class MapView {
    const loader: GoogleMapsLoader.SdkLoader
    var instance: GMap?
    var markers: seq<Marker>

    /** The tracked markers are exactly the saved places: one each, in order, at the place's coordinate, titled with its name, on the map. */
    predicate Tracks(places: seq<SavedPlace>)
      reads this, set m | m in markers
    {
      && |markers| == |places|
      && forall i :: 0 <= i < |places| ==>
           && markers[i].position == Coordinate(places[i])
           && markers[i].title == places[i].name
           && markers[i].owner == instance
    }

    constructor (loader: GoogleMapsLoader.SdkLoader)
      ensures this.loader == loader && instance == null && markers == []
    {
      this.loader := loader;
      instance := null;
      markers := [];
    }

    /**
     The map-init effect: a map is built only when the SDK is loaded, the container
     is rendered and there is no map yet, so at most once. It starts at `center`
     with zoom 13 and is returned for `onMapLoad`.
     */
    method InitEffect(center: LatLng) returns (loaded: GMap?)
      modifies this
      ensures markers == old(markers)
      ensures old(instance) == null && RenderBranch(loader.isLoaded, loader.loadError) == MapContainer ==>
        && instance != null && fresh(instance) && loaded == instance
        && instance.center == center && instance.zoom == InitialZoom && instance.calls == []
      ensures !(old(instance) == null && RenderBranch(loader.isLoaded, loader.loadError) == MapContainer) ==>
        instance == old(instance) && loaded == null
    {
      var containerPresent := RenderBranch(loader.isLoaded, loader.loadError) == MapContainer;
      if !loader.isLoaded || !containerPresent || instance != null {
        return null;
      }
      var m := new GMap(center, InitialZoom);
      instance := m;
      loaded := m;
    }

    /** The map's click listener, once there is a map: a click with a `latLng` is forwarded, any other is dropped. */
    method OnClick(e: MapMouseEvent) returns (forwarded: Option<LatLng>)
      ensures forwarded.Some? <==> instance != null && e.latLng.Some?
      ensures forwarded.Some? ==> forwarded.value == e.latLng.value
    {
      if instance != null && e.latLng.Some? {
        forwarded := Some(e.latLng.value);
      } else {
        forwarded := None;
      }
    }

    /** The centre effect: `setCenter` only with a map and a loaded SDK. */
    method CenterEffect(center: LatLng)
      modifies instance
      ensures instance != null && loader.isLoaded ==>
        instance.calls == old(instance.calls) + [CameraCall.SetCenter(center)]
        && instance.center == center && instance.zoom == old(instance.zoom)
      ensures instance != null && !loader.isLoaded ==> unchanged(instance)
    {
      if instance != null && loader.isLoaded {
        instance.SetCenter(center);
      }
    }

    /**
     The marker effect. Without a map or a loaded SDK nothing changes. Otherwise every
     tracked marker is detached first, then one fresh marker per place is tracked,
     in order.
     */
    method SyncMarkers(places: seq<SavedPlace>)
      modifies this, set m | m in markers
      ensures instance == old(instance)
      ensures !(instance != null && loader.isLoaded) ==> markers == old(markers) && unchanged(old(markers))
      ensures instance != null && loader.isLoaded ==>
        && (forall m :: m in old(markers) ==> m.owner == null)
        && (forall i :: 0 <= i < |markers| ==> fresh(markers[i]))
        && Tracks(places)
    {
      if instance == null || !loader.isLoaded {
        return;
      }
      var surface := instance;
      var was := markers;
      DetachAll(was);
      markers := [];
      var i := 0;
      while i < |places|
        invariant 0 <= i <= |places|
        invariant |markers| == i && instance == surface
        invariant forall m :: m in was ==> m.owner == null
        invariant forall k :: 0 <= k < i ==>
          && fresh(markers[k])
          && markers[k].position == Coordinate(places[k])
          && markers[k].title == places[k].name
          && markers[k].owner == surface
      {
        var m := new Marker(Coordinate(places[i]), places[i].name, surface);
        markers := markers + [m];
        i := i + 1;
      }
    }

    /** `markers.forEach(marker => marker.setMap(null))`. */
    static method DetachAll(ms: seq<Marker>)
      modifies set m | m in ms
      ensures forall m :: m in ms ==> m.owner == null
    {
      var i := 0;
      while i < |ms|
        invariant 0 <= i <= |ms|
        invariant forall k :: 0 <= k < i ==> ms[k].owner == null
      {
        ms[i].SetMap(null);
        i := i + 1;
      }
    }
  }

  /**
   Both the search bar and the map call `useGoogleMaps`, so the page has two hook
   instances on one document. The first appends the script; the second sees that
   tag and polls. The SDK loads, both instances become loaded, and 30 seconds
   later the second instance's timeout still reports the timeout error, because it
   tests the `isLoaded` it captured when it was scheduled: the map then shows the
   error panel although the SDK is loaded.
   */
  method TwoConsumersStaleTimeout(key: string)
    returns (view: View, searchLoaded: bool, mapLoaded: bool, tagsAfterEffects: nat, tagsAtEnd: nat)
    requires key != ""
    ensures searchLoaded && mapLoaded
    ensures tagsAfterEffects == 1 && tagsAtEnd == 0
    ensures view == ErrorPanel
  {
    var doc := new GoogleMapsLoader.Document();
    var searchHook := new GoogleMapsLoader.SdkLoader(doc, key);
    var mapHook := new GoogleMapsLoader.SdkLoader(doc, key);
    searchHook.RunEffect();
    mapHook.RunEffect();
    tagsAfterEffects := doc.mapsScripts;
    doc.PublishNamespace();
    searchHook.OnScriptLoad();
    mapHook.Tick();
    mapHook.OnTimeout();
    view := RenderBranch(mapHook.isLoaded, mapHook.loadError);
    searchLoaded, mapLoaded := searchHook.isLoaded, mapHook.isLoaded;
    tagsAtEnd := doc.mapsScripts;
  }

  /** The same events with the timeout testing the current `isLoaded`: the map stays shown. */
  method TwoConsumersIntendedTimeout(key: string)
    returns (view: View, searchLoaded: bool, mapLoaded: bool, tagsAfterEffects: nat, tagsAtEnd: nat)
    requires key != ""
    ensures searchLoaded && mapLoaded
    ensures tagsAfterEffects == 1 && tagsAtEnd == 0
    ensures view == MapContainer
  {
    var doc := new GoogleMapsLoader.Document();
    var searchHook := new GoogleMapsLoader.SdkLoader(doc, key);
    var mapHook := new GoogleMapsLoader.SdkLoader(doc, key);
    searchHook.RunEffect();
    mapHook.RunEffect();
    tagsAfterEffects := doc.mapsScripts;
    doc.PublishNamespace();
    searchHook.OnScriptLoad();
    mapHook.Tick();
    mapHook.OnTimeoutIntended();
    view := RenderBranch(mapHook.isLoaded, mapHook.loadError);
    searchLoaded, mapLoaded := searchHook.isLoaded, mapHook.isLoaded;
    tagsAtEnd := doc.mapsScripts;
  }
}

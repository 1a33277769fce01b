/**
 The mapping SDK as the core sees it: opaque handles whose calls are recorded,
 never executed. Coordinates are only copied and compared.
 */
module MapsSdk {

  import opened Wrappers

  /** A `{ lat, lng }` literal. */
  datatype LatLng = LatLng(lat: real, lng: real)

  /** A camera call issued on a map handle, in the order it was issued. */
  datatype CameraCall = PanTo(target: LatLng) | SetZoom(level: int) | SetCenter(target: LatLng)

  /** A `google.maps.Map` handle: where its camera points and every camera call it received. */
  class GMap {
    var center: LatLng
    var zoom: int
    var calls: seq<CameraCall>

    /** `new google.maps.Map(container, { center, zoom })`. */
    constructor (center: LatLng, zoom: int)
      ensures this.center == center && this.zoom == zoom && calls == []
    {
      this.center := center;
      this.zoom := zoom;
      calls := [];
    }

    method PanTo(target: LatLng)
      modifies this
      ensures center == target && zoom == old(zoom)
      ensures calls == old(calls) + [CameraCall.PanTo(target)]
    {
      center := target;
      calls := calls + [CameraCall.PanTo(target)];
    }

    method SetZoom(level: int)
      modifies this
      ensures zoom == level && center == old(center)
      ensures calls == old(calls) + [CameraCall.SetZoom(level)]
    {
      zoom := level;
      calls := calls + [CameraCall.SetZoom(level)];
    }

    method SetCenter(target: LatLng)
      modifies this
      ensures center == target && zoom == old(zoom)
      ensures calls == old(calls) + [CameraCall.SetCenter(target)]
    {
      center := target;
      calls := calls + [CameraCall.SetCenter(target)];
    }
  }

  /** A `google.maps.Marker` handle; `owner` (its `map`) is null once the marker is detached. */
  class Marker {
    const position: LatLng
    const title: string
    var owner: GMap?

    /** `new google.maps.Marker({ position, map, title })`. */
    constructor (position: LatLng, title: string, owner: GMap)
      ensures this.position == position && this.title == title && this.owner == owner
    {
      this.position := position;
      this.title := title;
      this.owner := owner;
    }

    /** `marker.setMap(m)`. */
    method SetMap(m: GMap?)
      modifies this
      ensures owner == m
    {
      owner := m;
    }
  }

  /** A `google.maps.places.Autocomplete` handle: whether its listeners are still registered. */
  class Autocomplete {
    var listening: bool

    /** The constructor followed by `addListener('place_changed', …)`. */
    constructor ()
      ensures listening
    {
      listening := true;
    }

    /** `google.maps.event.clearInstanceListeners(autocomplete)`. */
    method ClearInstanceListeners()
      modifies this
      ensures !listening
    {
      listening := false;
    }
  }

  /** The `geometry` of a place result, whose `location` may be missing. */
  datatype Geometry = Geometry(location: Option<LatLng>)

  /** What `autocomplete.getPlace()` yields: each field may be absent. */
  datatype PlaceResult = PlaceResult(geometry: Option<Geometry>, name: Option<string>, formattedAddress: Option<string>)
}

/**
 The search bar (components/search-bar.tsx): a Places Autocomplete bound to the
 input once the SDK is ready, whose `place_changed` listener forwards a location
 and shows the place's name or address.
 */
module SearchBar {

  import opened Wrappers
  import opened MapsSdk
  import GoogleMapsLoader

  /** `place?.geometry?.location`: present only when the result, its geometry and its location all are. */
  function Location(place: Option<PlaceResult>): (r: Option<LatLng>)
    ensures r.Some? <==> place.Some? && place.value.geometry.Some? && place.value.geometry.value.location.Some?
    ensures r.Some? ==> r == place.value.geometry.value.location
  {
    match place
    case None => None
    case Some(p) =>
      match p.geometry
      case None => None
      case Some(g) => g.location
  }

  /** A string field counts only when present and non-empty (JavaScript truthiness). */
  function Truthy(s: Option<string>): bool
  {
    s.Some? && s.value != ""
  }

  /** `place.name || place.formatted_address || ''`. */
  function DisplayText(p: PlaceResult): (t: string)
    ensures Truthy(p.name) ==> t == p.name.value
    ensures !Truthy(p.name) && Truthy(p.formattedAddress) ==> t == p.formattedAddress.value
    ensures t == "" <==> !Truthy(p.name) && !Truthy(p.formattedAddress)
  {
    if Truthy(p.name) then p.name.value
    else if Truthy(p.formattedAddress) then p.formattedAddress.value
    else ""
  }

  /** The input's state: disabled and with the loading placeholder exactly while not loaded. */
  datatype InputView = InputView(disabled: bool, placeholder: string, value: string)

  const ReadyPlaceholder: string := "Search for a place..."
  const LoadingPlaceholder: string := "Loading search..."

  function RenderInput(isLoaded: bool, query: string): (v: InputView)
    ensures v.disabled <==> !isLoaded
    ensures v.disabled <==> v.placeholder == LoadingPlaceholder
    ensures !v.disabled <==> v.placeholder == ReadyPlaceholder
    ensures v.value == query
  {
    InputView(!isLoaded, if isLoaded then ReadyPlaceholder else LoadingPlaceholder, query)
  }

  /** The search bar with its hook instance, its text and its autocomplete handle. */
  class Bar {
    const loader: GoogleMapsLoader.SdkLoader
    var query: string
    var autocomplete: Autocomplete?
    var cleanupPending: bool

    constructor (loader: GoogleMapsLoader.SdkLoader)
      ensures this.loader == loader && query == "" && autocomplete == null && !cleanupPending
    {
      this.loader := loader;
      query := "";
      autocomplete := null;
      cleanupPending := false;
    }

    /**
     The autocomplete effect: with the input mounted, the SDK loaded and `window.google`
     present (the namespace flag), a fresh listening autocomplete replaces the handle
     and a cleanup is armed; otherwise nothing changes and no cleanup is armed. In
     particular a disabled input never gets an autocomplete.
     */
    method InitEffect(inputPresent: bool)
      modifies this
      ensures query == old(query)
      ensures RenderInput(loader.isLoaded, query).disabled ==> autocomplete == old(autocomplete) && !cleanupPending
      ensures inputPresent && loader.isLoaded && loader.doc.namespacePresent ==>
        autocomplete != null && fresh(autocomplete) && autocomplete.listening && cleanupPending
      ensures !(inputPresent && loader.isLoaded && loader.doc.namespacePresent) ==>
        autocomplete == old(autocomplete) && !cleanupPending
    {
      if !inputPresent || !loader.isLoaded || !loader.doc.namespacePresent {
        cleanupPending := false;
        return;
      }
      autocomplete := new Autocomplete();
      cleanupPending := true;
    }

    /** The armed cleanup: clear every listener on the current autocomplete, if there is one. */
    method Cleanup()
      modifies this, autocomplete
      ensures autocomplete == old(autocomplete) && query == old(query) && !cleanupPending
      ensures old(cleanupPending) && autocomplete != null ==> !autocomplete.listening
      ensures !old(cleanupPending) && autocomplete != null ==> unchanged(autocomplete)
    {
      if cleanupPending && autocomplete != null {
        autocomplete.ClearInstanceListeners();
      }
      cleanupPending := false;
    }

    /**
     `place_changed` on a listening autocomplete with `getPlace()` giving `place`:
     a location is forwarded to `onPlaceSelect` and the text shows the place; a
     result without a location is ignored and the text is kept.
     */
    method OnPlaceChanged(place: Option<PlaceResult>) returns (selected: Option<LatLng>)
      modifies this
      ensures autocomplete == old(autocomplete) && cleanupPending == old(cleanupPending)
      ensures selected.Some? <==> autocomplete != null && autocomplete.listening && Location(place).Some?
      ensures selected.Some? ==> selected == Location(place) && query == DisplayText(place.value)
      ensures selected.None? ==> query == old(query)
    {
      selected := None;
      if autocomplete != null && autocomplete.listening {
        var at := Location(place);
        if at.Some? {
          selected := at;
          query := DisplayText(place.value);
        }
      }
    }

    /** The input's `onChange`. */
    method Edit(text: string)
      modifies this
      ensures query == text && autocomplete == old(autocomplete) && cleanupPending == old(cleanupPending)
    {
      query := text;
    }
  }
}

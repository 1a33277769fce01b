/**
 The `useGoogleMaps` hook (hooks/use-google-maps.ts) as a state machine over the
 page's document. Every event the hook reacts to is one method: the effect run,
 a poll tick, the 30-second timeout, the script's `onload` and `onerror`, a window
 error, and the effect's cleanup. Time is not modelled; ticks and the timeout are
 events that fire only while their timer is armed.

 The effect depends on `isLoaded`, so whenever `isLoaded` changes React runs the
 previous cleanup and then the effect again; `SetLoaded` performs that re-run.
 */
module GoogleMapsLoader {

  import opened Wrappers
  import opened JsString

  const MissingKeyMessage: string := "Google Maps API key is missing"
  const TimeoutMessage: string := "Google Maps script failed to load. Please check your billing settings."
  const NotAvailableMessage: string := "Google Maps API loaded but not available. Please check your billing settings."
  const ScriptErrorMessage: string := "Failed to load Google Maps. This is usually due to billing not being enabled."
  const BillingMessage: string := "Billing not enabled for Google Maps API"

  /** The text a window error's message must contain to count as the billing error. */
  const BillingSignature: string := "BillingNotEnabledMapError"

  /**
   The document and window as the hook sees them: how many script tags point at
   the maps host, and whether `window.google.maps` exists. Every hook instance on
   the page shares one.
   */
  class Document {
    var mapsScripts: nat
    var namespacePresent: bool

    constructor ()
      ensures mapsScripts == 0 && !namespacePresent
    {
      mapsScripts := 0;
      namespacePresent := false;
    }

    /** The SDK script has run and defined `window.google.maps`. */
    method PublishNamespace()
      modifies this
      ensures namespacePresent && mapsScripts == old(mapsScripts)
    {
      namespacePresent := true;
    }
  }

  /** `event.message && event.message.includes('BillingNotEnabledMapError')`. */
  function IsBillingError(message: Option<string>): (r: bool)
    ensures r <==> message.Some? && exists i: nat :: OccursAt(message.value, BillingSignature, i)
  {
    if message.Some? then
      IncludesIffOccurrence(message.value, BillingSignature);
      message.value != "" && Includes(message.value, BillingSignature)
    else
      false
  }

  /**
   Everything one hook instance holds: its two state variables and which of its
   callbacks are still armed. `timeoutSawLoaded` is the `isLoaded` the timeout
   callback captured when it was scheduled.
   */
  datatype LoaderState = LoaderState(
    isLoaded: bool,
    loadError: Option<string>,
    polling: bool,
    timeoutPending: bool,
    timeoutSawLoaded: bool,
    scriptPending: bool,
    billingListeners: nat,
    cleanupPending: bool)

  /** The hook's state before its effect first runs. */
  const Initial: LoaderState := LoaderState(false, None, false, false, false, false, 0, false)

  /** One `useGoogleMaps()` call site. An empty `apiKey` is a missing key. */
  class SdkLoader {
    const doc: Document
    const apiKey: string
    var isLoaded: bool
    var loadError: Option<string>
    var polling: bool
    var timeoutPending: bool
    var timeoutSawLoaded: bool
    var scriptPending: bool
    var billingListeners: nat
    var cleanupPending: bool

    function State(): LoaderState
      reads this
    {
      LoaderState(isLoaded, loadError, polling, timeoutPending, timeoutSawLoaded,
                  scriptPending, billingListeners, cleanupPending)
    }

    constructor (doc: Document, apiKey: string)
      ensures this.doc == doc && this.apiKey == apiKey
      ensures State() == Initial
    {
      this.doc := doc;
      this.apiKey := apiKey;
      isLoaded := false;
      loadError := None;
      polling := false;
      timeoutPending := false;
      timeoutSawLoaded := false;
      scriptPending := false;
      billingListeners := 0;
      cleanupPending := false;
    }

    /**
     The effect body. Already loaded: `isLoaded` becomes true, nothing else.
     No key: the missing-key error, no script. A maps script already present:
     start polling and arm the timeout, no new script. Otherwise: append exactly
     one script, arm its callbacks, add a billing listener and return a cleanup.
     React runs the previous cleanup before running the effect again, so no cleanup
     is pending when it starts.
     */
    method RunEffect()
      requires !cleanupPending
      modifies this, doc
      ensures doc.namespacePresent == old(doc.namespacePresent)
      ensures old(doc.namespacePresent) ==>
        State() == old(State()).(isLoaded := true, cleanupPending := false)
        && doc.mapsScripts == old(doc.mapsScripts)
      ensures !old(doc.namespacePresent) && apiKey == "" ==>
        State() == old(State()).(loadError := Some(MissingKeyMessage), cleanupPending := false)
        && doc.mapsScripts == old(doc.mapsScripts)
      ensures !old(doc.namespacePresent) && apiKey != "" && old(doc.mapsScripts) > 0 ==>
        State() == old(State()).(polling := true, timeoutPending := true,
                                 timeoutSawLoaded := old(isLoaded), cleanupPending := false)
        && doc.mapsScripts == old(doc.mapsScripts)
      ensures !old(doc.namespacePresent) && apiKey != "" && old(doc.mapsScripts) == 0 ==>
        State() == old(State()).(scriptPending := true, billingListeners := old(billingListeners) + 1,
                                 cleanupPending := true)
        && doc.mapsScripts == 1
    {
      if doc.namespacePresent {
        isLoaded := true;
        cleanupPending := false;
        return;
      }
      if apiKey == "" {
        loadError := Some(MissingKeyMessage);
        cleanupPending := false;
        return;
      }
      if doc.mapsScripts > 0 {
        polling := true;
        timeoutPending := true;
        timeoutSawLoaded := isLoaded;
        cleanupPending := false;
        return;
      }
      scriptPending := true;
      billingListeners := billingListeners + 1;
      doc.mapsScripts := doc.mapsScripts + 1;
      cleanupPending := true;
    }

    /** The cleanup the fresh-load run returned: remove a maps script tag if one is left. */
    method Cleanup()
      modifies this, doc
      ensures State() == old(State()).(cleanupPending := false)
      ensures doc.namespacePresent == old(doc.namespacePresent)
      ensures doc.mapsScripts == if old(cleanupPending) && old(doc.mapsScripts) > 0
                                 then old(doc.mapsScripts) - 1 else old(doc.mapsScripts)
    {
      if cleanupPending && doc.mapsScripts > 0 {
        doc.mapsScripts := doc.mapsScripts - 1;
      }
      cleanupPending := false;
    }

    /** `setIsLoaded(true)`; a change re-runs the effect, which then takes the already-loaded branch. */
    method SetLoaded()
      requires doc.namespacePresent
      modifies this, doc
      ensures State() == old(State()).(isLoaded := true,
                                       cleanupPending := old(isLoaded) && old(cleanupPending))
      ensures doc.namespacePresent
      ensures doc.mapsScripts == if !old(isLoaded) && old(cleanupPending) && old(doc.mapsScripts) > 0
                                 then old(doc.mapsScripts) - 1 else old(doc.mapsScripts)
    {
      if !isLoaded {
        isLoaded := true;
        Cleanup();
        RunEffect();
      }
    }

    /** A 100 ms poll: once the namespace exists, stop polling and set `isLoaded`. */
    method Tick()
      modifies this, doc
      ensures doc.namespacePresent == old(doc.namespacePresent)
      ensures old(polling) && old(doc.namespacePresent) ==>
        State() == old(State()).(isLoaded := true, polling := false,
                                 cleanupPending := old(isLoaded) && old(cleanupPending))
        && doc.mapsScripts == if !old(isLoaded) && old(cleanupPending) && old(doc.mapsScripts) > 0
                              then old(doc.mapsScripts) - 1 else old(doc.mapsScripts)
      ensures !(old(polling) && old(doc.namespacePresent)) ==>
        State() == old(State()) && doc.mapsScripts == old(doc.mapsScripts)
    {
      if polling && doc.namespacePresent {
        polling := false;
        SetLoaded();
      }
    }

    /**
     The 30-second timeout, as written: it stops the polling and reports the
     timeout error unless the `isLoaded` it captured when scheduled was true,
     whatever `isLoaded` is now.
     */
    method OnTimeout()
      modifies this
      ensures old(timeoutPending) ==>
        State() == old(State()).(polling := false, timeoutPending := false,
                                 loadError := if old(timeoutSawLoaded) then old(loadError) else Some(TimeoutMessage))
      ensures !old(timeoutPending) ==> State() == old(State())
    {
      if timeoutPending {
        timeoutPending := false;
        polling := false;
        if !timeoutSawLoaded {
          loadError := Some(TimeoutMessage);
        }
      }
    }

    /** The timeout as evidently intended: it reports an error only if the SDK has not loaded by then. */
    method OnTimeoutIntended()
      modifies this
      ensures old(timeoutPending) ==>
        State() == old(State()).(polling := false, timeoutPending := false,
                                 loadError := if old(isLoaded) then old(loadError) else Some(TimeoutMessage))
      ensures old(isLoaded) ==> isLoaded && loadError == old(loadError)
      ensures !old(timeoutPending) ==> State() == old(State())
    {
      if timeoutPending {
        timeoutPending := false;
        polling := false;
        if !isLoaded {
          loadError := Some(TimeoutMessage);
        }
      }
    }

    /** The script's `onload`: loaded if the namespace really exists, the not-available error otherwise. */
    method OnScriptLoad()
      modifies this, doc
      ensures doc.namespacePresent == old(doc.namespacePresent)
      ensures old(scriptPending) && old(doc.namespacePresent) ==>
        State() == old(State()).(isLoaded := true, scriptPending := false,
                                 cleanupPending := old(isLoaded) && old(cleanupPending))
        && doc.mapsScripts == if !old(isLoaded) && old(cleanupPending) && old(doc.mapsScripts) > 0
                              then old(doc.mapsScripts) - 1 else old(doc.mapsScripts)
      ensures old(scriptPending) && !old(doc.namespacePresent) ==>
        State() == old(State()).(loadError := Some(NotAvailableMessage), scriptPending := false)
        && doc.mapsScripts == old(doc.mapsScripts)
      ensures !old(scriptPending) ==> State() == old(State()) && doc.mapsScripts == old(doc.mapsScripts)
    {
      if scriptPending {
        scriptPending := false;
        if doc.namespacePresent {
          SetLoaded();
        } else {
          loadError := Some(NotAvailableMessage);
        }
      }
    }

    /** The script's `onerror`: the load-failure error. */
    method OnScriptError()
      modifies this
      ensures old(scriptPending) ==>
        State() == old(State()).(loadError := Some(ScriptErrorMessage), scriptPending := false)
      ensures !old(scriptPending) ==> State() == old(State())
    {
      if scriptPending {
        scriptPending := false;
        loadError := Some(ScriptErrorMessage);
      }
    }

    /** A window `error` event: with a billing listener installed, the billing error wins over any state. */
    method OnWindowError(message: Option<string>)
      modifies this
      ensures billingListeners > 0 && IsBillingError(message) ==>
        State() == old(State()).(loadError := Some(BillingMessage))
      ensures !(billingListeners > 0 && IsBillingError(message)) ==> State() == old(State())
    {
      if billingListeners > 0 && IsBillingError(message) {
        loadError := Some(BillingMessage);
      }
    }
  }

  /** With no key and no SDK yet, a first effect run fails at once and appends no script. */
  method MissingKeyFailsAtOnce() returns (loaded: bool, error: Option<string>, scripts: nat)
    ensures !loaded && error == Some(MissingKeyMessage) && scripts == 0
  {
    var doc := new Document();
    var loader := new SdkLoader(doc, "");
    loader.RunEffect();
    loaded, error, scripts := loader.isLoaded, loader.loadError, doc.mapsScripts;
  }

  /**
   A fresh load that succeeds: one script is appended, `onload` finds the namespace,
   and the re-run's cleanup removes the tag again; a later timeout cannot fire.
   */
  method FreshLoadSucceeds(key: string) returns (loaded: bool, error: Option<string>, scriptsDuring: nat, scriptsAfter: nat)
    requires key != ""
    ensures loaded && error == None && scriptsDuring == 1 && scriptsAfter == 0
  {
    var doc := new Document();
    var loader := new SdkLoader(doc, key);
    loader.RunEffect();
    scriptsDuring := doc.mapsScripts;
    doc.PublishNamespace();
    loader.OnScriptLoad();
    loader.OnTimeout();
    loader.Tick();
    loaded, error, scriptsAfter := loader.isLoaded, loader.loadError, doc.mapsScripts;
  }
}

/**
 * The map view's UI state machine: the state its event handlers keep
 * (highlighted feature, popup data, toast, overlay visibility, loading flag,
 * the two sticky tile-error flags) and what each event does to it.
 *
 * `Step` is the specification of one event on a state value; the class
 * `MapComponent` holds the same state in fields and has one method per
 * event, each proved to change its fields as `Step` says. Pending toast
 * timers and in-flight parcel fetches are part of the state, so that the
 * timer expiry and the fetch outcome are events that can only happen after
 * the handler that scheduled them.
 */
module MapView {

  import opened Wrappers
  import opened Features
  import opened Popup
  import opened ParcelStyles

  /** The advice all three tile-error toasts end with. */
  const NETWORK_HINT: string := ", please check your network connection."
  const TOAST_BOTH: string := "Neither WMS nor cadastral layer could be loaded" + NETWORK_HINT
  const TOAST_WMS: string := "Error while fetching WMS layer" + NETWORK_HINT
  const TOAST_CADASTRAL: string := "Error while fetching cadastral layer" + NETWORK_HINT
  const FETCH_ERROR_PREFIX: string := "Error while fetching parcel data:"

  /** `word` occurs somewhere in `text`. */
  predicate Mentions(text: string, word: string)
  {
    exists i :: 0 <= i <= |text| - |word| && IsInfixAt(text, word, i)
  }

  predicate IsInfixAt(text: string, word: string, i: int)
    requires 0 <= i <= |text| - |word|
  {
    forall k :: 0 <= k < |word| ==> text[i + k] == word[k]
  }

  /**
   * The message `showToast` picks from the two error flags: the combined
   * message when both layers failed, the single-layer message when one did,
   * and none when neither did.
   */
  function ToastMessage(wmsError: bool, cadastralError: bool): (m: Option<string>)
    ensures m.None? <==> !wmsError && !cadastralError
    ensures wmsError && cadastralError ==> m == Some(TOAST_BOTH)
    ensures wmsError && !cadastralError ==> m == Some(TOAST_WMS)
    ensures !wmsError && cadastralError ==> m == Some(TOAST_CADASTRAL)
  {
    if wmsError && cadastralError then Some(TOAST_BOTH)
    else if wmsError then Some(TOAST_WMS)
    else if cadastralError then Some(TOAST_CADASTRAL)
    else None
  }

  /** A text lacking one of a word's letters does not mention the word. */
  lemma NoCharNoMention(text: string, word: string, j: nat, c: char)
    requires j < |word| && word[j] == c && c !in text
    ensures !Mentions(text, word)
  {
    forall i | 0 <= i <= |text| - |word|
      ensures !IsInfixAt(text, word, i)
    {
      assert text[i + j] in text;
    }
  }

  lemma BothToastNamesBoth()
    ensures Mentions(TOAST_BOTH, "WMS") && Mentions(TOAST_BOTH, "cadastral")
  {
    assert IsInfixAt(TOAST_BOTH, "WMS", 8);
    assert IsInfixAt(TOAST_BOTH, "cadastral", 16);
  }

  lemma WmsToastNamesOnlyWms()
    ensures Mentions(TOAST_WMS, "WMS") && !Mentions(TOAST_WMS, "cadastral")
  {
    assert IsInfixAt(TOAST_WMS, "WMS", 21);
    assert 'd' !in "Error while fetching WMS layer";
    assert 'd' !in NETWORK_HINT;
    NoCharNoMention(TOAST_WMS, "cadastral", 2, 'd');
  }

  lemma CadastralToastNamesOnlyCadastral()
    ensures Mentions(TOAST_CADASTRAL, "cadastral") && !Mentions(TOAST_CADASTRAL, "WMS")
  {
    assert IsInfixAt(TOAST_CADASTRAL, "cadastral", 21);
    assert 'W' !in "Error while fetching cadastral layer";
    assert 'W' !in NETWORK_HINT;
    NoCharNoMention(TOAST_CADASTRAL, "WMS", 0, 'W');
  }

  /**
   * The toast names exactly the layers that failed: it mentions "WMS" if and
   * only if the WMS overlay failed, and "cadastral" if and only if the
   * cadastral layer failed.
   */
  lemma ToastNamesFailedLayers(wmsError: bool, cadastralError: bool)
    requires wmsError || cadastralError
    ensures Mentions(ToastMessage(wmsError, cadastralError).value, "WMS") <==> wmsError
    ensures Mentions(ToastMessage(wmsError, cadastralError).value, "cadastral") <==> cadastralError
  {
    if wmsError && cadastralError {
      BothToastNamesBoth();
    } else if wmsError {
      WmsToastNamesOnlyWms();
    } else {
      CadastralToastNamesOnlyCadastral();
    }
  }

  /** The toast of a failed parcel fetch: the fixed prefix followed by the identifier's text. */
  function FetchErrorToast(id: FeatureId): (m: string)
    ensures |m| >= |FETCH_ERROR_PREFIX| && m[..|FETCH_ERROR_PREFIX|] == FETCH_ERROR_PREFIX
    ensures id.StrId? ==> m[|FETCH_ERROR_PREFIX|..] == id.s
    ensures id.NumId? ==> AllDigits(m[|FETCH_ERROR_PREFIX|..]) && ParseDecimal(m[|FETCH_ERROR_PREFIX|..]) == id.n
    ensures id.NumId? ==> m[|FETCH_ERROR_PREFIX|..] == DecimalText(id.n)
  {
    var m := FETCH_ERROR_PREFIX + IdText(id);
    assert m[|FETCH_ERROR_PREFIX|..] == IdText(id);
    m
  }

  /** A parcel-attribute request in flight: the identifier it asks for and the click pixel it will place the popup at. */
  datatype Request = Request(id: FeatureId, pixel: Pixel)

  /**
   * The view's state. `highlighted` is the React state; `highlightRef` is the
   * mutable reference the layer's style callback reads, synchronised from it
   * by an effect. `wmsVisible` is the React flag, `corineVisible` the overlay
   * layer's own visibility.
   */
  datatype UiState = UiState(
    highlighted: Option<Feature>,
    highlightRef: Option<Feature>,
    popup: Option<PopupData>,
    toast: Option<string>,
    wmsVisible: bool,
    corineVisible: bool,
    mapLoading: bool,
    wmsError: bool,
    cadastralError: bool,
    pendingTimers: nat,
    inFlight: multiset<Request>)

  datatype Event =
    | WmsTileError
    | CadastralTileError
    | RenderComplete
    | Click(pixel: Pixel, hits: seq<Feature>)
    | FetchSucceeded(request: Request, parcelNumber: string, area: string)
    | FetchFailed(request: Request)
    | Toggle
    | PopupClose
    | ToastTimeout
    | HighlightSync

  /** The state right after mount: loading, overlay visible, nothing selected, no error, nothing pending. */
  function Mounted(): (s: UiState)
    ensures s.mapLoading && s.wmsVisible && s.corineVisible
    ensures s.highlighted.None? && s.popup.None? && s.toast.None?
    ensures !s.wmsError && !s.cadastralError
    ensures s.highlightRef.None? && s.pendingTimers == 0 && s.inFlight == multiset{}
  {
    UiState(None, None, None, None, true, true, true, false, false, 0, multiset{})
  }

  /**
   * What every reachable state satisfies: the React flag and the layer's
   * visibility agree, and a shown toast always has a pending timer that will
   * clear it.
   */
  predicate Consistent(s: UiState)
  {
    s.wmsVisible == s.corineVisible && (s.toast.Some? ==> s.pendingTimers > 0)
  }

  /** An event can happen: a timer fires only if one is pending, and a fetch settles only if it was issued. */
  predicate Enabled(s: UiState, e: Event)
  {
    match e
    case FetchSucceeded(req, _, _) => req in s.inFlight
    case FetchFailed(req) => req in s.inFlight
    case ToastTimeout => s.pendingTimers > 0
    case _ => true
  }

  /** `showToast`: show the message for the current flags and schedule its timer, or do nothing when no flag is set. */
  function ShowToastOn(s: UiState): (r: UiState)
    ensures (s.wmsError || s.cadastralError) ==> r == s.(toast := ToastMessage(s.wmsError, s.cadastralError), pendingTimers := s.pendingTimers + 1)
    ensures !s.wmsError && !s.cadastralError ==> r == s
  {
    match ToastMessage(s.wmsError, s.cadastralError)
    case None => s
    case Some(m) => s.(toast := Some(m), pendingTimers := s.pendingTimers + 1)
  }

  /** One event of the view. */
  function Step(s: UiState, e: Event): (r: UiState)
    requires Enabled(s, e)
    ensures Consistent(s) ==> Consistent(r)
    ensures s.wmsError ==> r.wmsError
    ensures s.cadastralError ==> r.cadastralError
    ensures r.mapLoading != s.mapLoading ==> e.RenderComplete? && !r.mapLoading
    ensures e.WmsTileError? || e.CadastralTileError? ==> r.toast.Some?
    ensures |r.inFlight| > |s.inFlight| ==> e.Click? && |e.hits| > 0 && Truthy(e.hits[0].id)
  {
    match e
    case WmsTileError =>
      ShowToastOn(s.(wmsError := true, wmsVisible := false, corineVisible := false))
    case CadastralTileError =>
      ShowToastOn(s.(cadastralError := true))
    case RenderComplete =>
      s.(mapLoading := false)
    case Click(pixel, hits) =>
      if |hits| == 0 then
        s.(highlighted := None, popup := None)
      else if !Truthy(hits[0].id) then
        s.(highlighted := Some(hits[0]))
      else
        s.(highlighted := Some(hits[0]), inFlight := s.inFlight + multiset{Request(hits[0].id.value, pixel)})
    case FetchSucceeded(req, number, area) =>
      s.(popup := Some(PopupData(req.pixel, number, area)), inFlight := s.inFlight - multiset{req})
    case FetchFailed(req) =>
      s.(popup := None, toast := Some(FetchErrorToast(req.id)), pendingTimers := s.pendingTimers + 1,
         inFlight := s.inFlight - multiset{req})
    case Toggle =>
      s.(corineVisible := !s.corineVisible, wmsVisible := !s.corineVisible, popup := None, highlighted := None)
    case PopupClose =>
      s.(popup := None, highlighted := None)
    case ToastTimeout =>
      s.(toast := None, pendingTimers := s.pendingTimers - 1)
    case HighlightSync =>
      s.(highlightRef := s.highlighted)
  }

  /** A sequence of events from a state; None when some event in it could not have happened. */
  function Run(s: UiState, events: seq<Event>): Option<UiState>
    decreases |events|
  {
    if events == [] then Some(s)
    else if !Enabled(s, events[0]) then None
    else Run(Step(s, events[0]), events[1..])
  }

  /** Consistency holds after any sequence of events. */
  lemma {:induction false} RunPreservesConsistency(s: UiState, events: seq<Event>)
    requires Consistent(s) && Run(s, events).Some?
    ensures Consistent(Run(s, events).value)
    decreases |events|
  {
    if events != [] {
      RunPreservesConsistency(Step(s, events[0]), events[1..]);
    }
  }

  /**
   * Over any sequence of events the error flags only go from false to true,
   * and once the first render has completed the loading overlay never returns.
   */
  lemma {:induction false} RunIsMonotone(s: UiState, events: seq<Event>)
    requires Run(s, events).Some?
    ensures s.wmsError ==> Run(s, events).value.wmsError
    ensures s.cadastralError ==> Run(s, events).value.cadastralError
    ensures !s.mapLoading ==> !Run(s, events).value.mapLoading
    decreases |events|
  {
    if events != [] {
      RunIsMonotone(Step(s, events[0]), events[1..]);
    }
  }

  /** Every state reachable from mount is consistent. */
  lemma ReachableIsConsistent(events: seq<Event>)
    requires Run(Mounted(), events).Some?
    ensures Consistent(Run(Mounted(), events).value)
  {
    RunPreservesConsistency(Mounted(), events);
  }

  /** A popup is only shown while some feature is highlighted. */
  predicate PopupPaired(s: UiState)
  {
    s.popup.Some? ==> s.highlighted.Some?
  }

  /** Every event except a settling fetch keeps the popup paired with a highlight. */
  lemma StepKeepsPopupPaired(s: UiState, e: Event)
    requires Enabled(s, e) && PopupPaired(s) && !e.FetchSucceeded?
    ensures PopupPaired(Step(s, e))
  {
  }

  /**
   * A fetch settles after whatever happened since its click: toggling the
   * overlay between a click and its fetch's success leaves a popup open with
   * no highlighted feature.
   */
  lemma StaleFetchUnpairsPopup()
    ensures var f := Feature(Some(NumId(42)), 0);
            var req := Request(NumId(42), Pixel(10, 20));
            var r := Run(Mounted(), [Click(Pixel(10, 20), [f]), Toggle, FetchSucceeded(req, "123-45", "1500")]);
            r.Some? && r.value.popup.Some? && r.value.highlighted.None?
  {
    var f := Feature(Some(NumId(42)), 0);
    var req := Request(NumId(42), Pixel(10, 20));
    var s1 := Step(Mounted(), Click(Pixel(10, 20), [f]));
    var s2 := Step(s1, Toggle);
    assert req in s2.inFlight;
    var s3 := Step(s2, FetchSucceeded(req, "123-45", "1500"));
    assert Run(s3, []) == Some(s3);
    assert Run(s2, [FetchSucceeded(req, "123-45", "1500")]) == Some(s3);
    assert Run(s1, [Toggle, FetchSucceeded(req, "123-45", "1500")]) == Some(s3);
  }

  /**
   * A click on feature "42" whose fetch returns parcel "123-45" of area
   * "1500" opens a popup at the click pixel showing "123-45" and
   * "1500 m\U{B2}", with feature "42" highlighted.
   */
  lemma FetchSuccessScenario(p: Pixel, w: int, h: int)
    ensures var f := Feature(Some(StrId("42")), 0);
            var req := Request(StrId("42"), p);
            var r := Run(Mounted(), [Click(p, [f]), FetchSucceeded(req, "123-45", "1500")]);
            r.Some? && r.value.highlighted == Some(f) &&
            r.value.popup == Some(PopupData(p, "123-45", "1500")) &&
            Render(r.value.popup, w, h).value.number == "123-45" &&
            Render(r.value.popup, w, h).value.areaLabel == "1500 m\U{B2}"
  {
    var f := Feature(Some(StrId("42")), 0);
    var req := Request(StrId("42"), p);
    var s1 := Step(Mounted(), Click(p, [f]));
    assert req in s1.inFlight;
    var s2 := Step(s1, FetchSucceeded(req, "123-45", "1500"));
    assert Run(s2, []) == Some(s2);
    assert Run(s1, [FetchSucceeded(req, "123-45", "1500")]) == Some(s2);
    assert AreaLabel("1500") == "1500 m\U{B2}";
  }

  /**
   * A click on feature "42" whose fetch fails leaves no popup, a toast that
   * ends with the identifier, a timer to clear it, and feature "42" still
   * highlighted.
   */
  lemma FetchFailureScenario(p: Pixel)
    ensures var f := Feature(Some(StrId("42")), 0);
            var req := Request(StrId("42"), p);
            var r := Run(Mounted(), [Click(p, [f]), FetchFailed(req)]);
            r.Some? && r.value.highlighted == Some(f) && r.value.popup.None? &&
            r.value.toast == Some(FETCH_ERROR_PREFIX + "42") && r.value.pendingTimers > 0
  {
    var f := Feature(Some(StrId("42")), 0);
    var req := Request(StrId("42"), p);
    var s1 := Step(Mounted(), Click(p, [f]));
    assert req in s1.inFlight;
    var s2 := Step(s1, FetchFailed(req));
    assert Run(s2, []) == Some(s2);
    assert Run(s1, [FetchFailed(req)]) == Some(s2);
  }

  /**
   * Recomputing the toast for an unchanged pair of flags shows the same
   * message again: a second WMS tile error only schedules one more timer.
   */
  lemma RepeatedErrorKeepsToast(s: UiState)
    ensures var r1 := Step(s, WmsTileError);
            var r2 := Step(r1, WmsTileError);
            r2 == r1.(pendingTimers := r1.pendingTimers + 1)
  {
  }

  /**
   * Timers are not tied to the message they were scheduled for: after a WMS
   * error and then a cadastral error, the first timer to fire clears the
   * combined message while the second timer is still pending.
   */
  lemma EarlierTimerClearsNewerToast()
    ensures var r := Run(Mounted(), [WmsTileError, CadastralTileError]);
            r.Some? && r.value.toast == Some(TOAST_BOTH) && r.value.pendingTimers == 2
    ensures var r := Run(Mounted(), [WmsTileError, CadastralTileError, ToastTimeout]);
            r.Some? && r.value.toast.None? && r.value.pendingTimers == 1
  {
    var s1 := Step(Mounted(), WmsTileError);
    var s2 := Step(s1, CadastralTileError);
    var s3 := Step(s2, ToastTimeout);
    assert Run(s3, []) == Some(s3);
    assert Run(s2, []) == Some(s2);
    assert Run(s2, [ToastTimeout]) == Some(s3);
    assert Run(s1, [CadastralTileError]) == Some(s2);
    assert Run(s1, [CadastralTileError, ToastTimeout]) == Some(s3);
  }

  /** Once the highlight reference is synchronised, the style callback highlights exactly the features sharing the highlighted identifier. */
  lemma SyncedStyleFollowsHighlight(s: UiState, f: Feature)
    ensures var r := Step(s, HighlightSync);
            ParcelStyleFunction(f, r.highlightRef) == HighlightedParcelStyle()
            <==> s.highlighted.Some? && f.id == s.highlighted.value.id
  {
  }

  /**
   * The map component as mounted: the handlers' closure flags, the React
   * state and the overlay layer's visibility, as fields.
   */
  class MapComponent {
    var highlighted: Option<Feature>
    var highlightRef: Option<Feature>
    var popup: Option<PopupData>
    var toast: Option<string>
    var wmsVisible: bool
    var corineVisible: bool
    var mapLoading: bool
    var wmsError: bool
    var cadastralError: bool
    var pendingTimers: nat
    var inFlight: multiset<Request>

    function State(): UiState
      reads this
    {
      UiState(highlighted, highlightRef, popup, toast, wmsVisible, corineVisible, mapLoading,
              wmsError, cadastralError, pendingTimers, inFlight)
    }

    ghost predicate Valid()
      reads this
    {
      Consistent(State())
    }

    /** Mount: the map is built with the overlay visible and the loading overlay shown. */
    constructor ()
      ensures Valid() && State() == Mounted()
    {
      highlighted, highlightRef, popup, toast := None, None, None, None;
      wmsVisible, corineVisible, mapLoading := true, true, true;
      wmsError, cadastralError := false, false;
      pendingTimers, inFlight := 0, multiset{};
    }

    /** `showToast`: picks the message from the two flags and schedules its timer; with no flag set, changes nothing. */
    method ShowToast()
      requires Valid()
      modifies this
      ensures Valid() && State() == ShowToastOn(old(State()))
      ensures old(wmsError || cadastralError) ==> toast == ToastMessage(wmsError, cadastralError) && pendingTimers == old(pendingTimers) + 1
      ensures !old(wmsError || cadastralError) ==> toast == old(toast) && pendingTimers == old(pendingTimers)
    {
      if wmsError && cadastralError {
        toast := Some(TOAST_BOTH);
      } else if wmsError {
        toast := Some(TOAST_WMS);
      } else if cadastralError {
        toast := Some(TOAST_CADASTRAL);
      } else {
        return;
      }
      pendingTimers := pendingTimers + 1;
    }

    /** A WMS overlay tile failed: the WMS flag is set for good, the overlay is hidden, and the toast is shown. */
    method HandleCorineError()
      requires Valid()
      modifies this
      ensures Valid() && State() == Step(old(State()), WmsTileError)
      ensures wmsError && !wmsVisible && !corineVisible && toast.Some?
      ensures toast == ToastMessage(true, old(cadastralError))
      ensures cadastralError == old(cadastralError) && highlighted == old(highlighted) && popup == old(popup)
    {
      wmsError := true;
      wmsVisible := false;
      corineVisible := false;
      ShowToast();
    }

    /** A cadastral tile failed: only the cadastral flag and the toast change. */
    method HandleCadastralError()
      requires Valid()
      modifies this
      ensures Valid() && State() == Step(old(State()), CadastralTileError)
      ensures State() == old(State()).(cadastralError := true, toast := ToastMessage(old(wmsError), true),
                                        pendingTimers := old(pendingTimers) + 1)
    {
      cadastralError := true;
      ShowToast();
    }

    /** The first full render: the loading overlay goes away. */
    method HandleRenderComplete()
      requires Valid()
      modifies this
      ensures Valid() && State() == Step(old(State()), RenderComplete)
      ensures State() == old(State()).(mapLoading := false)
    {
      mapLoading := false;
    }

    /**
     * A single click with the features hit at its pixel. No hit clears the
     * highlight and the popup and fetches nothing. A hit highlights the first
     * feature; with a falsy identifier nothing else happens (the popup stays
     * as it was), otherwise a fetch for that identifier is issued.
     */
    method HandleClick(pixel: Pixel, hits: seq<Feature>)
      requires Valid()
      modifies this
      ensures Valid() && State() == Step(old(State()), Click(pixel, hits))
      ensures |hits| == 0 ==> State() == old(State()).(highlighted := None, popup := None)
      ensures |hits| > 0 && !Truthy(hits[0].id) ==> State() == old(State()).(highlighted := Some(hits[0]))
      ensures |hits| > 0 && Truthy(hits[0].id) ==>
                State() == old(State()).(highlighted := Some(hits[0]),
                                         inFlight := old(inFlight) + multiset{Request(hits[0].id.value, pixel)})
    {
      if |hits| == 0 {
        highlighted := None;
        popup := None;
        return;
      }
      var feature := hits[0];
      highlighted := Some(feature);
      var id := feature.id;
      if !Truthy(id) {
        return;
      }
      inFlight := inFlight + multiset{Request(id.value, pixel)};
    }

    /** An issued fetch returned the parcel's attributes: the popup opens at the click pixel; the highlight is left as it is. */
    method HandleFetchSuccess(req: Request, parcelNumber: string, area: string)
      requires Valid() && req in inFlight
      modifies this
      ensures Valid() && State() == Step(old(State()), FetchSucceeded(req, parcelNumber, area))
      ensures State() == old(State()).(popup := Some(PopupData(req.pixel, parcelNumber, area)),
                                       inFlight := old(inFlight) - multiset{req})
    {
      popup := Some(PopupData(req.pixel, parcelNumber, area));
      inFlight := inFlight - multiset{req};
    }

    /** An issued fetch failed: the popup closes, a toast names the identifier, and the highlight is kept. */
    method HandleFetchFailure(req: Request)
      requires Valid() && req in inFlight
      modifies this
      ensures Valid() && State() == Step(old(State()), FetchFailed(req))
      ensures State() == old(State()).(popup := None, toast := Some(FetchErrorToast(req.id)),
                                       pendingTimers := old(pendingTimers) + 1,
                                       inFlight := old(inFlight) - multiset{req})
    {
      popup := None;
      toast := Some(FETCH_ERROR_PREFIX + IdText(req.id));
      pendingTimers := pendingTimers + 1;
      inFlight := inFlight - multiset{req};
    }

    /** The overlay switch: layer and flag both become the negation of the layer's visibility; popup and highlight are cleared. */
    method HandleToggle()
      requires Valid()
      modifies this
      ensures Valid() && State() == Step(old(State()), Toggle)
      ensures corineVisible == wmsVisible == !old(corineVisible)
      ensures State() == old(State()).(corineVisible := !old(corineVisible), wmsVisible := !old(corineVisible),
                                       popup := None, highlighted := None)
    {
      var current := corineVisible;
      corineVisible := !current;
      wmsVisible := !current;
      popup := None;
      highlighted := None;
    }

    /** The popup's close handler: popup and highlight are cleared. */
    method HandlePopupClose()
      requires Valid()
      modifies this
      ensures Valid() && State() == Step(old(State()), PopupClose)
      ensures State() == old(State()).(popup := None, highlighted := None)
    {
      popup := None;
      highlighted := None;
    }

    /** A toast timer fires: the toast is cleared, whichever message it shows. */
    method HandleToastTimeout()
      requires Valid() && pendingTimers > 0
      modifies this
      ensures Valid() && State() == Step(old(State()), ToastTimeout)
      ensures State() == old(State()).(toast := None, pendingTimers := old(pendingTimers) - 1)
    {
      toast := None;
      pendingTimers := pendingTimers - 1;
    }

    /** The highlight effect: the reference read by the style callback catches up with the highlighted feature. */
    method SyncHighlightRef()
      requires Valid()
      modifies this
      ensures Valid() && State() == Step(old(State()), HighlightSync)
      ensures State() == old(State()).(highlightRef := old(highlighted))
    {
      highlightRef := highlighted;
    }

    /** The cadastral layer's style callback: highlighted exactly when the reference holds a feature with the same identifier. */
    method CadastralStyle(feature: Feature) returns (style: Style)
      ensures style == HighlightedParcelStyle() || style == DefaultParcelStyle()
      ensures style == HighlightedParcelStyle() <==> highlightRef.Some? && feature.id == highlightRef.value.id
    {
      style := ParcelStyleFunction(feature, highlightRef);
    }
  }
}

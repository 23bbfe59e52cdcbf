# Interactive Web GIS App — verified model of the map view's logic

The application is a single-page map viewer: a base tile layer, a
semi-transparent CORINE land-cover WMS overlay, and a clickable layer of
cadastral parcels served as vector tiles. Clicking a parcel highlights it and
fetches its attributes (parcel number, area) for a small popup; tile-load
failures and failed fetches are reported in a toast that clears itself after
a delay.

Almost all of the code wires a mapping library. The logic it adds, modelled
here, is:

- **Parcel style selection** (`ParcelStyles`, `parcel_styles.dfy`): the
  per-feature style callback returns the highlighted style exactly when a
  highlighted feature is present and the feature identifiers are strictly
  equal (`===`); otherwise the default style. Identifiers are
  `Option<FeatureId>`, so two features without an identifier compare equal,
  as `undefined === undefined` does.
- **Popup placement** (`Popup`, `popup.dfy`): the panel is translated to the
  click pixel, shifted left by 180 when a 180-pixel-wide box there would pass
  the right edge of the viewport and up by 120 when a 120-pixel-high box would
  pass the bottom edge; 180 by 120 is the panel size the code assumes, not one
  it sets. There is no correction against the top or left edge.
- **The map view's event state machine** (`MapView`, `map_view.dfy`): the
  highlighted feature, the popup data, the toast, the overlay's visibility
  (both the React flag and the layer's own flag), the loading flag, the two
  sticky tile-error flags, the pending toast timers and the parcel fetches in
  flight. `Step` specifies one event on a state value; the class
  `MapComponent` keeps the same state in fields and has one method per event
  handler, each proved to change its fields exactly as `Step` says. Lemmas over
  `Run` (a sequence of events) prove what holds across any interleaving.
- **Feature identifiers** (`Features`, `features.dfy`): what `getId()` yields,
  its JavaScript truthiness, and its text inside a template literal (used in
  the fetch-failure toast).

Behaviour of the code as written that the model reproduces and a reader may not expect:

- The popup's close handler (`onClose` in `src/components/Map.tsx:226-229`)
  is modelled as `HandlePopupClose`, but `src/components/Popup.tsx:12` only
  destructures `data` and renders no close control, so in the application as
  written nothing ever invokes it; the popup closes only through an empty click,
  the overlay switch or a failed fetch.
- A fetch that succeeds after the user has toggled the overlay or closed the
  popup still opens the popup, with no feature highlighted
  (`StaleFetchUnpairsPopup`); the pairing of popup and highlight holds for every
  other event (`StepKeepsPopupPaired`).
- Toast timers are not tied to their message: an earlier timer clears a newer
  toast before its own delay has elapsed (`EarlierTimerClearsNewerToast`).

## Model

| member | source | states |
|---|---|---|
| `Features.DecimalText` | src/components/Map.tsx:160 | A numeric identifier's text is non-empty, all decimal digits, and has no leading zero: only "0" itself starts with 0 |
| `Features.ParseDecimalText` | src/components/Map.tsx:160 | Reading the decimal text back yields the number: the identifier is recoverable from its text |
| `Features.IdText` | src/components/Map.tsx:160 | `${id}` is the string itself for a string identifier, and for a numeric one the canonical decimal text, which parses back to the number |
| `Features.TruthyIsNotFalsy` | src/components/Map.tsx:144-145 | `Truthy`, the test `!id`, lets a fetch through exactly when the identifier is present and is neither the empty string nor 0 |
| `ParcelStyles.HighlightedParcelStyle` | src/mapStyles/cadastralLayerStyles.ts:4-8 | The highlighted style: stroke width 2, stroke colour #00b7ffff, fill #00b7ff65 |
| `ParcelStyles.DefaultParcelStyle` | src/mapStyles/cadastralLayerStyles.ts:10-14 | The default style: stroke width 1, stroke colour #84afb9ff, fill #8cc8e065 |
| `ParcelStyles.ParcelStyleFunction` | src/mapStyles/cadastralLayerStyles.ts:16-24 | The result is always one of the two styles; it is the highlighted one if and only if a highlighted feature is present and the identifiers are equal, and the default one if and only if none is present or they differ |
| `ParcelStyles.HighlightedIsReflexive` | src/mapStyles/cadastralLayerStyles.ts:20-21 | A highlighted feature is drawn highlighted, and so is any feature without an identifier when the highlighted one has none |
| `ParcelStyles.StyleDependsOnlyOnIds` | src/mapStyles/cadastralLayerStyles.ts:16-24 | Features with equal identifiers, against highlighted features with equal identifiers, get the same style |
| `ParcelStyles.HighlightIsThicker` | src/mapStyles/cadastralLayerStyles.ts:4-14 | The highlighted outline is thicker than the default one, so the two styles differ |
| `Popup.TranslateX` | src/components/Popup.tsx:17-22 | The translation never exceeds x; it is x shifted left by exactly 0 or 180; it equals x if and only if x <= W - 180 (no left correction, even for x near 0 or negative); for a click with x <= W a 180-wide box at the translation ends inside the viewport |
| `Popup.TranslateY` | src/components/Popup.tsx:18-25 | The same for y, the viewport height H and the assumed height 120 |
| `Popup.AreaLabel` | src/components/Popup.tsx:39 | The displayed area is the area text followed by exactly " m²" |
| `Popup.Render` | src/components/Popup.tsx:12-42 | Nothing is rendered if and only if there is no data; otherwise x and y are placed independently by TranslateX and TranslateY, the parcel number and area label are shown, and for a click with x <= W and y <= H a 180 by 120 box at the translation lies inside the right and bottom edges |
| `Popup.TranslateXDetermined` | src/components/Popup.tsx:17-22 | Any offset that never moves right, moves by 0 or 180, and moves exactly on right-edge overflow, equals TranslateX |
| `Popup.TranslateYDetermined` | src/components/Popup.tsx:18-25 | Any offset that never moves down, moves by 0 or 120, and moves exactly on bottom-edge overflow, equals TranslateY |
| `Popup.NoLeftCorrection` | src/components/Popup.tsx:17-22 | In a 100-pixel-wide viewport a click at x = 50 translates the panel to -130, past the left edge |
| `Popup.PlacementExamples` | src/components/Popup.tsx:17-25 | On a 1000 by 800 viewport, a click at (950, 750) gives (770, 630) and a click at (100, 100) gives (100, 100) |
| `MapView.ToastMessage` | src/components/Map.tsx:94-105 | No message if and only if neither flag is set; both flags give the combined message, one flag the message for that layer |
| `MapView.ToastNamesFailedLayers` | src/components/Map.tsx:95-102 | The chosen message mentions "WMS" if and only if the WMS overlay failed, and "cadastral" if and only if the cadastral layer failed |
| `MapView.FetchErrorToast` | src/components/Map.tsx:160 | The fetch-failure toast starts with "Error while fetching parcel data:" and the rest is the identifier (its canonical decimal text, for a number) |
| `MapView.Mounted` | src/components/Map.tsx:21-36 | After mount the map is loading, the overlay is visible, and nothing is highlighted (in state or in the style reference), shown or failed; no timer is pending and no fetch is in flight |
| `MapView.ShowToastOn` | src/components/Map.tsx:94-108 | With an error flag set, the toast becomes the message for the flags and one more timer is pending; with none set, nothing changes |
| `MapView.Step` | src/components/Map.tsx:91-163 | Every event keeps the state consistent; error flags never go from true to false; only render-complete changes the loading flag, and only to false; after a tile error a toast is shown; only a click on a feature with a truthy identifier adds a fetch |
| `MapView.RunPreservesConsistency` | src/components/Map.tsx:107-113 | After any sequence of events the React flag and the layer visibility agree and a shown toast has a pending timer |
| `MapView.RunIsMonotone` | src/components/Map.tsx:91-127 | Over any sequence of events the error flags are never reset and the loading overlay never comes back |
| `MapView.ReachableIsConsistent` | src/components/Map.tsx:29-31 | Every state reachable from mount is consistent |
| `MapView.StepKeepsPopupPaired` | src/components/Map.tsx:134-145 | Every event except a fetch success keeps "a popup is shown only while a feature is highlighted" |
| `MapView.StaleFetchUnpairsPopup` | src/components/Map.tsx:147-156 | Click on a feature, toggle the overlay, then the fetch succeeds: a popup is open with nothing highlighted |
| `MapView.FetchSuccessScenario` | src/components/Map.tsx:140-156 | Click on feature "42" then fetch success: "42" is highlighted and the popup at the click pixel shows "123-45" and "1500 m²" |
| `MapView.FetchFailureScenario` | src/components/Map.tsx:157-162 | Click on feature "42" then fetch failure: no popup, the toast is the prefix followed by "42", a timer is pending, and "42" stays highlighted |
| `MapView.RepeatedErrorKeepsToast` | src/components/Map.tsx:110-115 | A second WMS tile error leaves the state as the first left it, except for one more pending timer |
| `MapView.EarlierTimerClearsNewerToast` | src/components/Map.tsx:107 | After a WMS error and then a cadastral error the combined toast shows with two timers pending; the first timer clears it while one timer is still pending |
| `MapView.SyncedStyleFollowsHighlight` | src/components/Map.tsx:176-179 | Once the highlight reference is synchronised, the style callback highlights exactly the features whose identifier equals the highlighted feature's |
| `MapView.MapComponent.constructor` | src/components/Map.tsx:21-36 | Mounting yields the Mounted state |
| `MapView.MapComponent.ShowToast` | src/components/Map.tsx:94-108 | With a flag set the toast is ToastMessage of the flags and one more timer is pending; with none set neither toast nor timers change |
| `MapView.MapComponent.HandleCorineError` | src/components/Map.tsx:110-115 | Sets the WMS flag, hides the overlay (flag and layer), shows the toast for the flags; cadastral flag, highlight and popup unchanged |
| `MapView.MapComponent.HandleCadastralError` | src/components/Map.tsx:117-120 | Changes only the cadastral flag, the toast and the timers |
| `MapView.MapComponent.HandleRenderComplete` | src/components/Map.tsx:125-127 | Clears the loading flag and nothing else |
| `MapView.MapComponent.HandleClick` | src/components/Map.tsx:131-147 | No hit: clears highlight and popup, no fetch. A hit: highlights the first feature; with a falsy identifier nothing else changes, otherwise a fetch for that identifier and pixel is issued |
| `MapView.MapComponent.HandleFetchSuccess` | src/components/Map.tsx:148-156 | Opens the popup at the request's pixel with the returned number and area; the highlight is untouched |
| `MapView.MapComponent.HandleFetchFailure` | src/components/Map.tsx:157-162 | Closes the popup, shows the fetch-error toast naming the identifier, schedules a timer, keeps the highlight |
| `MapView.MapComponent.HandleToggle` | src/components/Map.tsx:189-196 | Layer and flag both become the negation of the layer's visibility; popup and highlight are cleared |
| `MapView.MapComponent.HandlePopupClose` | src/components/Map.tsx:226-229 | Clears popup and highlight and nothing else |
| `MapView.MapComponent.HandleToastTimeout` | src/components/Map.tsx:107 | Clears the toast whatever it shows, and one pending timer is consumed |
| `MapView.MapComponent.SyncHighlightRef` | src/components/Map.tsx:176-179 | The reference read by the style callback becomes the highlighted feature |
| `MapView.MapComponent.CadastralStyle` | src/components/Map.tsx:66 | The layer's style callback returns the highlighted style exactly when the reference holds a feature with the same identifier, else the default |

## Left out

- Construction of the map, its view, layers and sources, the geographic extent and `fromLonLat` (src/components/Map.tsx:38-85): library calls and floating-point projection.
- The network request and JSON decoding (src/components/Map.tsx:148-150): the outcome is an input, `HandleFetchSuccess` with the returned number and area as text, or `HandleFetchFailure`; a response whose body lacks `properties` fails inside the `try` and is a failure here too.
- The 3200 ms delay of `setTimeout` (src/components/Map.tsx:107,161): a timer firing is the explicit `ToastTimeout` event; the model counts pending timers but not time.
- Interleavings are unrestricted event sequences; there is no notion of which fetch response or timer is "stale" beyond what the lemmas above exhibit.
- Hit-testing (`getFeaturesAtPixel`), repaint requests (`layer.changed()`), event subscription and unsubscription, and unmount (src/components/Map.tsx:122-125,132,142,165-172): the hit list is a parameter; repaints have no observable state here.
- The rendered panel's size: it comes from its text and padding (src/components/Popup.tsx:29), and `top-1 left-1` offsets it a further 0.25rem right and down, so the edge bounds are about the assumed 180 by 120 box at the translation, not the drawn panel.
- `window.innerWidth` and `window.innerHeight` (src/components/Popup.tsx:15-16) are parameters; pixel coordinates are integers, whereas the library's pixels may be fractional.
- Identifiers: numbers are non-negative integers (vector-tile ids); `NaN`, negative and fractional numbers are not modelled.
- Identifiers above 2^53: JavaScript numbers lose precision there, so distinct ids can compare `===`-equal and print alike; `NumId(nat)` is exact and unbounded.
- `map.once` (src/components/Map.tsx:125): every render-complete event in the model clears the loading flag; after the first one it is already false, so the state is the same.
- The `corineLayerRef.current` null check of the switch (src/components/Map.tsx:190): after mount the reference is always set, and the model starts at mount.
- `console.error` logging, all JSX and styling, `src/context/MapContext.tsx` (a context holding one state value) and `src/App.tsx` (composition only).

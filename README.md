# GoogleMap component bookkeeping, in Dafny

This project models the bookkeeping core of App Inventor's `GoogleMap` component.
The component wraps a maps-SDK map and keeps state of its own beside it:

- two process-wide id counters: a rolling view-id generator and a marker-id generator;
- the map type, chosen by layer name;
- the my-location, map-listener and UI-gesture flags, with their `Enable…` / `…Enabled` pairs;
- the one-time set-up of the SDK map, which attaches listeners, pushes the UI settings and announces that the map is ready;
- the registry from marker ids to SDK marker handles, which the batch adds fill from a YailList or from JSON, and which `UpdateMarker`, `RemoveMarker` and the marker event handlers look up.

Modules:

- `Wrappers`: `Option`.
- `Ids`: the two counters, as an `IdGenerator` object that every map shares. `ViewIds` and `MarkerIds` give the sequences that successive calls return; lemmas give their closed forms, range, distinctness and order.
- `MapTypes`: the table between layer names and the SDK's map-type codes (NORMAL 1, SATELLITE 2, TERRAIN 3, HYBRID 4).
- `MarkerInput`: what a marker request is and what each batch function reads from its input.
  - For YailLists, `ListRequests` and `NotAListCount` give the markers placed and the errors reported.
  - For JSON, `JsonPlan` gives the markers placed and the error the batch stops with.
- `GoogleMapComponent`: the `GoogleMap` class, whose methods update its fields in place, plus `Marker`, a class standing for an SDK marker handle.
  - The SDK map is reduced to whether it exists (`mapReady`) plus a ghost log of the calls made on it (`sdkCalls`).
  - Events sent to the form are a ghost log (`events`).
  - `Valid()` holds the component's invariants:
    - the view id is in range;
    - the map type is in the table;
    - every registered id has been handed out;
    - distinct ids are bound to distinct markers;
    - once the map exists, the SDK's UI settings equal the stored flags.

The batch adds are loops over the input. Each is proved against its specification function: `AddMarkers` and `AddMarkersHue` against `ListRequests`, and `AddMarkersFromJson` against `JsonPlan`. `Extends` states the result:

- every old binding is kept;
- each new id was unused before;
- each new id is bound to a fresh marker placed as its request asks;
- the ids are those `generateMarkerId` hands out in order.

## Model

| member | source | states |
|---|---|---|
| Ids.NextViewId | appinventor/components/src/com/google/appinventor/components/runtime/GoogleMap.java:228-238 | the counter after a call stays in [1, 0x00FFFFFF]; it becomes 1 exactly when the id returned was 0x00FFFFFF, and is that id plus one otherwise |
| Ids.ViewIdsClosedForm | appinventor/components/src/com/google/appinventor/components/runtime/GoogleMap.java:228-238 | the i-th view id from counter `start` is `(start - 1 + i) mod 0x00FFFFFF + 1`, so the ids cycle through 1..0x00FFFFFF |
| Ids.ViewIdsInRange | appinventor/components/src/com/google/appinventor/components/runtime/GoogleMap.java:232-233 | every view id handed out is in [1, 0x00FFFFFF]; 0 is never returned |
| Ids.ViewIdsDistinct | appinventor/components/src/com/google/appinventor/components/runtime/GoogleMap.java:228-238 | no two of at most 0x00FFFFFF successive calls return the same view id |
| Ids.MarkerIdsClosedForm | appinventor/components/src/com/google/appinventor/components/runtime/GoogleMap.java:673-675 | the i-th marker id from counter `start` is `start + 1 + i`, because the counter is incremented before it is read |
| Ids.MarkerIdsAppend | appinventor/components/src/com/google/appinventor/components/runtime/GoogleMap.java:673-675 | one more call appends the next id to the ids already handed out |
| Ids.MarkerIdsIncreasing | appinventor/components/src/com/google/appinventor/components/runtime/GoogleMap.java:673-675 | marker ids are strictly increasing and all exceed the starting counter, so none repeats |
| Ids.IdGenerator.constructor | appinventor/components/src/com/google/appinventor/components/runtime/GoogleMap.java:119-120 | both counters start at 1 |
| Ids.IdGenerator.GenerateViewId | appinventor/components/src/com/google/appinventor/components/runtime/GoogleMap.java:228-238 | returns the current counter and advances it as NextViewId does; the id is the first of `ViewIds` from the old counter |
| Ids.IdGenerator.GenerateMarkerId | appinventor/components/src/com/google/appinventor/components/runtime/GoogleMap.java:673-675 | increments the counter and returns its new value, the first of `MarkerIds` from the old counter |
| MapTypes.LayerCode | appinventor/components/src/com/google/appinventor/components/runtime/GoogleMap.java:487-501 | a code exactly for the four layer names; each code is one of the SDK's map types |
| MapTypes.LayerName | appinventor/components/src/com/google/appinventor/components/runtime/GoogleMap.java:585-599 | a name exactly for the four map-type codes, null otherwise; each name is one of the four layer names |
| MapTypes.LayerNameOfCode | appinventor/components/src/com/google/appinventor/components/runtime/GoogleMap.java:585-599 | reading back the map type after selecting a layer name gives that name |
| MapTypes.LayerCodeOfName | appinventor/components/src/com/google/appinventor/components/runtime/GoogleMap.java:487-501 | selecting the name that MapType reports for a code selects that code again |
| MapTypes.LayerCodeInjective | appinventor/components/src/com/google/appinventor/components/runtime/GoogleMap.java:487-501 | distinct layer names select distinct map types |
| MarkerInput.NonEmpty | appinventor/components/src/com/google/appinventor/components/runtime/GoogleMap.java:694-699 | a title or snippet is set exactly when it is non-empty |
| MarkerInput.PlacedRoundTrip | appinventor/components/src/com/google/appinventor/components/runtime/GoogleMap.java:686-704 | a placed marker keeps the position, icon, title, snippet and draggability it was asked for, and starts out on the map |
| MarkerInput.ItemRequestDefaults | appinventor/components/src/com/google/appinventor/components/runtime/GoogleMap.java:633-650 | an inner list with only a position gets the default colour, empty title and snippet, and the default draggability |
| MarkerInput.ItemRequestFull | appinventor/components/src/com/google/appinventor/components/runtime/GoogleMap.java:633-650 | an inner list with all six slots takes its colour, title, snippet and draggability from them |
| MarkerInput.ListSplit | appinventor/components/src/com/google/appinventor/components/runtime/GoogleMap.java:622-663 | a YailList batch split in two places the markers of the first half, then those of the second; its error counts add |
| MarkerInput.ListSnoc | appinventor/components/src/com/google/appinventor/components/runtime/GoogleMap.java:622-663 | one more element adds one marker if it is an inner list, and one error otherwise |
| MarkerInput.ListCounts | appinventor/components/src/com/google/appinventor/components/runtime/GoogleMap.java:622-663 | each element of a YailList batch places exactly one marker or reports exactly one error |
| MarkerInput.ObjectIconAsWrittenDefault | appinventor/components/src/com/google/appinventor/components/runtime/GoogleMap.java:733 | as written, a marker object without "color" is drawn with the hue -16776961, which lies outside [0, 360) |
| MarkerInput.ObjectIconIsHue | appinventor/components/src/com/google/appinventor/components/runtime/GoogleMap.java:733 | with the corrected default (blue, 240), an object whose colour is a hue gets a valid hue |
| MarkerInput.ObjectRequestDefaults | appinventor/components/src/com/google/appinventor/components/runtime/GoogleMap.java:731-736 | a marker object's position is read from "lat" and "lng"; a missing colour, title, snippet or draggable takes its default |
| MarkerInput.LeadingObjectsIff | appinventor/components/src/com/google/appinventor/components/runtime/GoogleMap.java:720-748 | the first k elements are all objects exactly when k is at most the number of objects the loop reaches (both directions) |
| MarkerInput.LeadingObjectsStop | appinventor/components/src/com/google/appinventor/components/runtime/GoogleMap.java:743-746 | the loop stops at a non-object or at the end of the array |
| MarkerInput.JsonPlanNotArray | appinventor/components/src/com/google/appinventor/components/runtime/GoogleMap.java:751-762 | text that is not JSON, or JSON that is not an array, places nothing; it reports the decode error or the invalid-input error respectively |
| MarkerInput.JsonPlanShape | appinventor/components/src/com/google/appinventor/components/runtime/GoogleMap.java:720-748 | an array batch places the leading run of objects; it fails with invalid input exactly when an element follows that run, and that element is not an object |
| MarkerInput.JsonPlanAt | appinventor/components/src/com/google/appinventor/components/runtime/GoogleMap.java:722-739 | the j-th marker placed is read from the j-th element, which is a readable marker object |
| MarkerInput.JsonPlanFails | appinventor/components/src/com/google/appinventor/components/runtime/GoogleMap.java:720-748 | an array batch reports an error exactly when some element of the array is not an object |
| GoogleMapComponent.KeyByValue | appinventor/components/src/com/google/appinventor/components/runtime/GoogleMap.java:977-984 | returns a key bound to the value, and returns none exactly when no key is |
| GoogleMapComponent.UpdatedKeepsOthers | appinventor/components/src/com/google/appinventor/components/runtime/GoogleMap.java:825-842 | UpdateMarker never moves or removes a marker, and changes at most the one property it names |
| GoogleMapComponent.GoogleMap.constructor | appinventor/components/src/com/google/appinventor/components/runtime/GoogleMap.java:85-135 | the layout view gets the next view id; no map yet and no markers; normal map type; compass and zoom widget off, rotate, scroll and zoom gestures on; no listeners |
| GoogleMapComponent.GoogleMap.SetUpMapIfNeeded | appinventor/components/src/com/google/appinventor/components/runtime/GoogleMap.java:260-276 | does nothing once the map exists; otherwise either sets the map up or reports that Google Play is missing and leaves the map absent |
| GoogleMapComponent.GoogleMap.SetUpMap | appinventor/components/src/com/google/appinventor/components/runtime/GoogleMap.java:279-304 | attaches the marker listeners, pushes the five stored UI settings in order and announces MapIsReady; afterwards the SDK's UI settings equal the stored flags |
| GoogleMapComponent.GoogleMap.EnableCompass | appinventor/components/src/com/google/appinventor/components/runtime/GoogleMap.java:316-319 | stores the flag and pushes it to the SDK; the invariant that the SDK mirrors the flags is kept |
| GoogleMapComponent.GoogleMap.CompassEnabled | appinventor/components/src/com/google/appinventor/components/runtime/GoogleMap.java:322-324 | reports the compass value last pushed to the SDK |
| GoogleMapComponent.GoogleMap.EnableRotate | appinventor/components/src/com/google/appinventor/components/runtime/GoogleMap.java:328-331 | stores the flag and pushes it to the SDK; the SDK still mirrors the flags |
| GoogleMapComponent.GoogleMap.RotateEnabled | appinventor/components/src/com/google/appinventor/components/runtime/GoogleMap.java:334-336 | reports the rotate-gesture value last pushed to the SDK |
| GoogleMapComponent.GoogleMap.EnableScroll | appinventor/components/src/com/google/appinventor/components/runtime/GoogleMap.java:340-344 | stores the flag and pushes it to the SDK; the SDK still mirrors the flags |
| GoogleMapComponent.GoogleMap.ScrollEnabled | appinventor/components/src/com/google/appinventor/components/runtime/GoogleMap.java:347-349 | reports the scroll-gesture value last pushed to the SDK |
| GoogleMapComponent.GoogleMap.EnableZoomControl | appinventor/components/src/com/google/appinventor/components/runtime/GoogleMap.java:353-357 | stores the flag and pushes it to the SDK; the SDK still mirrors the flags |
| GoogleMapComponent.GoogleMap.ZoomControlEnabled | appinventor/components/src/com/google/appinventor/components/runtime/GoogleMap.java:360-362 | reports the zoom-widget value last pushed to the SDK |
| GoogleMapComponent.GoogleMap.EnableZoomGesture | appinventor/components/src/com/google/appinventor/components/runtime/GoogleMap.java:366-370 | stores the flag and pushes it to the SDK; the SDK still mirrors the flags |
| GoogleMapComponent.GoogleMap.ZoomGestureEnabled | appinventor/components/src/com/google/appinventor/components/runtime/GoogleMap.java:373-375 | reports the zoom-gesture value last pushed to the SDK |
| GoogleMapComponent.GoogleMap.EnableMyLocation | appinventor/components/src/com/google/appinventor/components/runtime/GoogleMap.java:470-482 | the getter then returns the value set; the SDK is told only when the map exists |
| GoogleMapComponent.GoogleMap.MyLocationEnabled | appinventor/components/src/com/google/appinventor/components/runtime/GoogleMap.java:479-482 | returns the stored my-location flag, whether or not the map exists; it needs no SDK map, unlike the UiSettings getters |
| GoogleMapComponent.GoogleMap.EnableMapClickListener | appinventor/components/src/com/google/appinventor/components/runtime/GoogleMap.java:515-533 | the getter then returns the value set; a listener is attached or detached only when the map exists |
| GoogleMapComponent.GoogleMap.MapClickListenerEnabled | appinventor/components/src/com/google/appinventor/components/runtime/GoogleMap.java:530-533 | returns the stored map-click listener flag, whether or not the map exists; it needs no SDK map, unlike the UiSettings getters |
| GoogleMapComponent.GoogleMap.EnableMapLongClickListener | appinventor/components/src/com/google/appinventor/components/runtime/GoogleMap.java:540-556 | the getter then returns the value set; a listener is attached or detached only when the map exists |
| GoogleMapComponent.GoogleMap.MapLongClickListenerEnabled | appinventor/components/src/com/google/appinventor/components/runtime/GoogleMap.java:553-556 | returns the stored map long-click listener flag, whether or not the map exists; it needs no SDK map, unlike the UiSettings getters |
| GoogleMapComponent.GoogleMap.EnableMapCameraPosChangeListener | appinventor/components/src/com/google/appinventor/components/runtime/GoogleMap.java:563-581 | the getter then returns the value set; a listener is attached or detached only when the map exists |
| GoogleMapComponent.GoogleMap.MapCameraChangedListenerEnabled | appinventor/components/src/com/google/appinventor/components/runtime/GoogleMap.java:578-581 | returns the stored camera-change listener flag, whether or not the map exists; it needs no SDK map, unlike the UiSettings getters |
| GoogleMapComponent.GoogleMap.SetMapType | appinventor/components/src/com/google/appinventor/components/runtime/GoogleMap.java:487-508 | a known layer name makes MapType report that name; an unknown name keeps the map type and reports invalid input; the type is pushed to the map when it exists |
| GoogleMapComponent.GoogleMap.MapType | appinventor/components/src/com/google/appinventor/components/runtime/GoogleMap.java:585-599 | names the stored map type, and selecting that name gives the same map type back |
| GoogleMapComponent.GoogleMap.AddMarkerToMap | appinventor/components/src/com/google/appinventor/components/runtime/GoogleMap.java:686-704 | binds the id to a fresh marker placed as requested; no other binding changes |
| GoogleMapComponent.GoogleMap.AddNextMarker | appinventor/components/src/com/google/appinventor/components/runtime/GoogleMap.java:652-655 | the next marker id, unused until now, bound to a fresh marker placed as requested |
| GoogleMapComponent.GoogleMap.AddListItem | appinventor/components/src/com/google/appinventor/components/runtime/GoogleMap.java:623-661 | one element of a YailList batch: a new marker for an inner list, one "AddMarkers" error otherwise |
| GoogleMapComponent.GoogleMap.AddListItems | appinventor/components/src/com/google/appinventor/components/runtime/GoogleMap.java:622-663 | after the loop, the markers of `ListRequests` are bound in order, and one error is logged per element that is not a list |
| GoogleMapComponent.GoogleMap.AddMarkers | appinventor/components/src/com/google/appinventor/components/runtime/GoogleMap.java:611-666 | the registry extended by one fresh marker per inner list, with its colour read as ARGB; the ids are the next marker ids in order; one "AddMarkers" error per other element; the marker counter ends advanced by exactly the number of ids handed out |
| GoogleMapComponent.GoogleMap.AddMarkersHue | appinventor/components/src/com/google/appinventor/components/runtime/GoogleMap.java:776-820 | as AddMarkers, but the colour slot is a hue and the default hue is blue (240); the marker counter ends advanced by exactly the number of ids handed out |
| GoogleMapComponent.GoogleMap.AddJsonObjects | appinventor/components/src/com/google/appinventor/components/runtime/GoogleMap.java:720-748 | the leading objects of the array bound to fresh markers in order; stops exactly when the plan has a failure |
| GoogleMapComponent.GoogleMap.AddJsonArrayMarkers | appinventor/components/src/com/google/appinventor/components/runtime/GoogleMap.java:717-750 | the registry extended by `JsonPlan`'s markers, then an invalid-input error if the array has an element that is not an object; the marker counter ends advanced by exactly the number of ids handed out |
| GoogleMapComponent.GoogleMap.AddMarkersFromJson | appinventor/components/src/com/google/appinventor/components/runtime/GoogleMap.java:711-766 | the registry extended by `JsonPlan`'s markers with the next ids; exactly the plan's error is reported, with the text attached to a decode failure; the marker counter ends advanced by exactly the number of ids handed out |
| GoogleMapComponent.GoogleMap.GetMarkerIfExisted | appinventor/components/src/com/google/appinventor/components/runtime/GoogleMap.java:844-851 | returns the marker bound to the id, which no other id is bound to |
| GoogleMapComponent.GoogleMap.RemoveMarker | appinventor/components/src/com/google/appinventor/components/runtime/GoogleMap.java:854-857 | takes the marker off the map; the registry is unchanged and the id stays bound |
| GoogleMapComponent.GoogleMap.UpdateMarker | appinventor/components/src/com/google/appinventor/components/runtime/GoogleMap.java:825-842 | the marker's new state is `Updated(old state, name, value)`; the registry is unchanged |
| GoogleMapComponent.GoogleMap.MarkerIdOf | appinventor/components/src/com/google/appinventor/components/runtime/GoogleMap.java:955-958 | the marker handlers' lookup finds the one id bound to the marker, and none exactly when the marker is not registered |

## Left out

- Ids.IdGenerator.GenerateMarkerId: does not model the 32-bit wrap-around of `incrementAndGet`; the counter is an unbounded integer, so ids are increasing without bound.
- Ids.IdGenerator.GenerateViewId: runs sequentially. The compare-and-set retry loop exists only to survive concurrent callers, and concurrency is not modelled.
- The Java crash paths become preconditions, so these inputs are outside the model:
  - any `mUiSettings` call before the map exists;
  - adding a marker before the map exists: `requires mapReady` on AddMarkerToMap, and the `mapReady || …` requires on AddMarkers, AddMarkersHue and AddMarkersFromJson. The source throws a NullPointerException at `mMap.addMarker` after `generateMarkerId` has already used up an id; the MapIsReady event's documentation tells callers to add markers inside that event;
  - an inner YailList of fewer than two elements (the source reports the error and then reads the missing slots);
  - a JSON marker object without "lat" or "lng", or with a member of the wrong JSON type;
  - an `UpdateMarker` value of the wrong Java type;
  - an unbound id in `getMarkerIfExisted`, `UpdateMarker` and `RemoveMarker`. The `equals(null)` checks in the source never fire; the lookup fails first.
- The YailList class is not part of this model. An inner list is given by its size and by the values that the source's slot reads return; `get`'s indexing convention and the casts are not modelled.
- Gson's conversions between JSON primitive types are not modelled. `WellFormedMarker` requires the colour to be an integral number rather than truncating it. JSON parsing itself is given as its result: `None` is a syntax error.
- The ARGB-to-hue conversion (`Color.colorToHSV`) is left abstract as `HueOfColor(argb)`. Floating-point values are reals.
- The test marker that `setUpMap` places is created but not registered. Its SDK-side effect is not in the call log.
- The checks for Google Play services and the Maps app, the fragment handling in the constructor, `onResume` and `onInitialize` are not modelled. They depend on the Android environment.
- Event dispatch to the form is reduced to a log of events. Error codes are named, not numbered.
- The circle overlays (`AddCircleOverlay`, `DraggableCircle`) and the camera and map-click handlers are not modelled. Of the marker event handlers, only their id lookup (`MarkerIdOf`) is.
- GoogleCloudMessaging.java is not part of this model.

## Findings

| source | as written | input that shows it | evidently intended | confidence | as-written member | corrected member |
|---|---|---|---|---|---|---|
| appinventor/components/src/com/google/appinventor/components/runtime/GoogleMap.java:733 | A JSON marker without "color" falls back to the ARGB colour `mMarkerColor` (`COLOR_BLUE`, -16776961). `addMarkerToMap` then passes it to the SDK as a hue. | `[{"lat":1,"lng":2}]` | a default hue of blue (240), as in `AddMarkersHue`; the method documents "color" as a hue from 0 to 360 | high (not executed) | MarkerInput.ObjectIconAsWrittenDefault | MarkerInput.ObjectIconIsHue |

The rest of the model uses the corrected `ObjectIcon`, which defaults to `HueBlue`.

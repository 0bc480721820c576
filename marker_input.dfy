/**
 * What the batch-add functions of the map component read from their input and
 * what marker each element asks for: the YailList form of AddMarkers and
 * AddMarkersHue, the JSON form of AddMarkersFromJson, and the defaults they
 * fill in for missing fields.
 */
module MarkerInput {
  import opened Wrappers

  /** The error codes the component reports through the form's error event. */
  datatype ErrorCode =
    | GooglePlayNotInstalled
    | GoogleMapInvalidInput
    | GoogleMapJsonFormatDecodeFailed

  /** Component.COLOR_BLUE (0xFF0000FF) as a signed 32-bit int: the default marker colour. */
  const ColorBlue: int := -16776961
  /** The maps SDK's blue hue, in degrees. */
  const HueBlue: real := 240.0

  /** The icon a marker is drawn with. */
  datatype Icon =
    | DefaultIcon             // the SDK's default marker
    | HueOfColor(argb: int)   // default marker in the hue of an ARGB colour (colour-to-HSV conversion left abstract)
    | Hue(degrees: real)      // default marker in the given hue

  /** What addMarkerToMap is asked to place: position, icon, title, snippet and draggability. */
  datatype MarkerRequest = MarkerRequest(lat: real, lng: real, icon: Icon, title: string, snippet: string, draggable: bool)

  /** The observable state of a marker on the map; None is a title or snippet never set. */
  datatype MarkerState = MarkerState(
    lat: real, lng: real, icon: Icon,
    title: Option<string>, snippet: Option<string>,
    draggable: bool, removed: bool)

  /** addMarkerToMap sets a title or snippet only when it is non-empty. */
  function NonEmpty(s: string): (r: Option<string>)
    ensures r.None? <==> s == ""
  {
    if s == "" then None else Some(s)
  }

  /** The state of the marker that addMarkerToMap places for a request. */
  function Placed(r: MarkerRequest): MarkerState {
    MarkerState(r.lat, r.lng, r.icon, NonEmpty(r.title), NonEmpty(r.snippet), r.draggable, false)
  }

  /** The request a placed marker records, reading an unset title or snippet as "". */
  function RequestOf(s: MarkerState): MarkerRequest {
    MarkerRequest(s.lat, s.lng, s.icon,
      if s.title.Some? then s.title.value else "",
      if s.snippet.Some? then s.snippet.value else "",
      s.draggable)
  }

  /** A placed marker keeps everything it was asked for and starts out on the map. */
  lemma PlacedRoundTrip(r: MarkerRequest)
    ensures RequestOf(Placed(r)) == r && !Placed(r).removed
  {
  }

  // ---------------------------------------------------------------------------
  // YailList input (AddMarkers, AddMarkersHue)

  /**
   * An element of the outer list: an inner YailList, given by its size and by the
   * values the source's reads of the latitude, longitude, colour, title, snippet
   * and draggable slots produce (the slot arithmetic itself is left abstract), or
   * anything that is not a YailList. `C` is the colour's type: an ARGB int for
   * AddMarkers, a hue for AddMarkersHue.
   */
  datatype MarkerItem<C> =
    | InnerList(size: nat, lat: real, lng: real, color: C, title: string, snippet: string, draggable: bool)
    | NotAList

  /** AddMarkers reads the colour slot as an ARGB colour. */
  function ArgbIcon(argb: int): Icon { HueOfColor(argb) }

  /** AddMarkersHue reads the colour slot as a hue. */
  function HueIcon(hue: real): Icon { Hue(hue) }

  /** The request for one inner list: the colour, title, snippet and draggable slots are read only when the list is long enough. */
  function ItemRequest<C>(item: MarkerItem<C>, defaultColor: C, iconOf: C -> Icon, defaultDraggable: bool): MarkerRequest
    requires item.InnerList?
  {
    MarkerRequest(item.lat, item.lng,
      iconOf(if item.size >= 3 then item.color else defaultColor),
      if item.size >= 4 then item.title else "",
      if item.size >= 5 then item.snippet else "",
      if item.size >= 6 then item.draggable else defaultDraggable)
  }

  /** An inner list of only a position gets every default. */
  lemma ItemRequestDefaults<C>(item: MarkerItem<C>, defaultColor: C, iconOf: C -> Icon, defaultDraggable: bool)
    requires item.InnerList? && item.size <= 2
    ensures ItemRequest(item, defaultColor, iconOf, defaultDraggable)
         == MarkerRequest(item.lat, item.lng, iconOf(defaultColor), "", "", defaultDraggable)
  {
  }

  /** An inner list with all six slots gets no default. */
  lemma ItemRequestFull<C>(item: MarkerItem<C>, defaultColor: C, iconOf: C -> Icon, defaultDraggable: bool)
    requires item.InnerList? && item.size >= 6
    ensures ItemRequest(item, defaultColor, iconOf, defaultDraggable)
         == MarkerRequest(item.lat, item.lng, iconOf(item.color), item.title, item.snippet, item.draggable)
  {
  }

  /** The markers a YailList batch places, in input order: one per inner list; other elements are skipped. */
  function ListRequests<C>(items: seq<MarkerItem<C>>, defaultColor: C, iconOf: C -> Icon, defaultDraggable: bool): (reqs: seq<MarkerRequest>)
    ensures |reqs| <= |items|
    decreases |items|
  {
    if items == [] then []
    else
      var head := if items[0].InnerList? then [ItemRequest(items[0], defaultColor, iconOf, defaultDraggable)] else [];
      head + ListRequests(items[1..], defaultColor, iconOf, defaultDraggable)
  }

  /** The number of elements that are not inner lists: each one reports an error. */
  function NotAListCount<C>(items: seq<MarkerItem<C>>): nat
    decreases |items|
  {
    if items == [] then 0
    else (if items[0].InnerList? then 0 else 1) + NotAListCount(items[1..])
  }

  /** A batch split in two is processed as its two halves one after the other. */
  lemma {:induction false} ListSplit<C>(a: seq<MarkerItem<C>>, b: seq<MarkerItem<C>>, defaultColor: C, iconOf: C -> Icon, defaultDraggable: bool)
    ensures ListRequests(a + b, defaultColor, iconOf, defaultDraggable)
         == ListRequests(a, defaultColor, iconOf, defaultDraggable) + ListRequests(b, defaultColor, iconOf, defaultDraggable)
    ensures NotAListCount(a + b) == NotAListCount(a) + NotAListCount(b)
    decreases |a|
  {
    if a != [] {
      assert (a + b)[1..] == a[1..] + b;
      ListSplit(a[1..], b, defaultColor, iconOf, defaultDraggable);
    } else {
      assert a + b == b;
    }
  }

  /** Processing one more element of a batch: a marker for an inner list, an error otherwise. */
  lemma ListSnoc<C>(items: seq<MarkerItem<C>>, i: nat, defaultColor: C, iconOf: C -> Icon, defaultDraggable: bool)
    requires i < |items|
    ensures ListRequests(items[..i + 1], defaultColor, iconOf, defaultDraggable)
         == ListRequests(items[..i], defaultColor, iconOf, defaultDraggable)
          + if items[i].InnerList? then [ItemRequest(items[i], defaultColor, iconOf, defaultDraggable)] else []
    ensures NotAListCount(items[..i + 1]) == NotAListCount(items[..i]) + if items[i].InnerList? then 0 else 1
  {
    assert items[..i + 1] == items[..i] + [items[i]];
    ListSplit(items[..i], [items[i]], defaultColor, iconOf, defaultDraggable);
  }

  /** Every element either places a marker or reports an error, never both. */
  lemma {:induction false} ListCounts<C>(items: seq<MarkerItem<C>>, defaultColor: C, iconOf: C -> Icon, defaultDraggable: bool)
    ensures |ListRequests(items, defaultColor, iconOf, defaultDraggable)| + NotAListCount(items) == |items|
    decreases |items|
  {
    if items != [] {
      ListCounts(items[1..], defaultColor, iconOf, defaultDraggable);
    }
  }

  // ---------------------------------------------------------------------------
  // JSON input (AddMarkersFromJson)

  /** An already-parsed JSON value. */
  datatype Json =
    | JNull
    | JBool(b: bool)
    | JNumber(n: real)
    | JString(s: string)
    | JArray(elements: seq<Json>)
    | JObject(members: map<string, Json>)

  predicate IsInt32(n: real) {
    n == n.Floor as real && -0x8000_0000 <= n.Floor <= 0x7FFF_FFFF
  }

  /**
   * The reads the source performs on a marker object succeed: "lat" and "lng" are
   * present numbers, and each optional member that is present has the type it is
   * read as (an int colour, string title and snippet, boolean draggable).
   */
  predicate WellFormedMarker(j: Json) {
    && j.JObject?
    && "lat" in j.members && j.members["lat"].JNumber?
    && "lng" in j.members && j.members["lng"].JNumber?
    && ("color" in j.members ==> j.members["color"].JNumber? && IsInt32(j.members["color"].n))
    && ("title" in j.members ==> j.members["title"].JString?)
    && ("snippet" in j.members ==> j.members["snippet"].JString?)
    && ("draggable" in j.members ==> j.members["draggable"].JBool?)
  }

  /** A hue the SDK accepts: degrees in [0, 360). */
  predicate IsHue(degrees: real) {
    0.0 <= degrees < 360.0
  }

  /**
   * The icon of a marker object as the source computes it: the int colour is
   * handed to the SDK as a hue, and a missing colour falls back to the
   * component's default colour, an ARGB value.
   */
  function ObjectIconAsWritten(j: Json, defaultColor: int): Icon
    requires WellFormedMarker(j)
  {
    Hue((if "color" in j.members then j.members["color"].n.Floor else defaultColor) as real)
  }

  /** As written, a marker object without a colour is drawn with the "hue" -16776961, which no hue is. */
  lemma ObjectIconAsWrittenDefault()
    ensures var j := JObject(map["lat" := JNumber(1.0), "lng" := JNumber(2.0)]);
      && WellFormedMarker(j)
      && ObjectIconAsWritten(j, ColorBlue) == Hue(-16776961.0)
      && !IsHue(ObjectIconAsWritten(j, ColorBlue).degrees)
  {
  }

  /** The icon of a marker object: its colour is a hue; a missing colour falls back to a default hue. */
  function ObjectIcon(j: Json, defaultHue: real): Icon
    requires WellFormedMarker(j)
  {
    Hue(if "color" in j.members then j.members["color"].n.Floor as real else defaultHue)
  }

  /** With a default hue in range, every marker object whose colour is in range gets a valid hue. */
  lemma ObjectIconIsHue(j: Json, defaultHue: real)
    requires WellFormedMarker(j) && IsHue(defaultHue)
    requires "color" in j.members ==> IsHue(j.members["color"].n)
    ensures ObjectIcon(j, defaultHue).Hue? && IsHue(ObjectIcon(j, defaultHue).degrees)
  {
  }

  /** The request for one marker object. */
  function ObjectRequest(j: Json, defaultHue: real, defaultDraggable: bool): MarkerRequest
    requires WellFormedMarker(j)
  {
    var f := j.members;
    MarkerRequest(f["lat"].n, f["lng"].n, ObjectIcon(j, defaultHue),
      if "title" in f then f["title"].s else "",
      if "snippet" in f then f["snippet"].s else "",
      if "draggable" in f then f["draggable"].b else defaultDraggable)
  }

  /** Missing colour, title, snippet and draggable default to the default hue, "", "" and the component's draggable setting. */
  lemma ObjectRequestDefaults(j: Json, defaultHue: real, defaultDraggable: bool)
    requires WellFormedMarker(j)
    ensures var r := ObjectRequest(j, defaultHue, defaultDraggable);
      && r.lat == j.members["lat"].n && r.lng == j.members["lng"].n
      && ("color" !in j.members ==> r.icon == Hue(defaultHue))
      && ("title" !in j.members ==> r.title == "")
      && ("snippet" !in j.members ==> r.snippet == "")
      && ("draggable" !in j.members ==> r.draggable == defaultDraggable)
  {
  }

  /** The length of the run of objects at the start of the array: the loop stops at the first non-object. */
  function LeadingObjects(items: seq<Json>): (k: nat)
    ensures k <= |items|
    decreases |items|
  {
    if items == [] || !items[0].JObject? then 0 else 1 + LeadingObjects(items[1..])
  }

  /** The first k elements are all objects exactly when k is at most LeadingObjects. */
  lemma {:induction false} LeadingObjectsIff(items: seq<Json>, k: nat)
    requires k <= |items|
    ensures (forall j :: 0 <= j < k ==> items[j].JObject?) <==> k <= LeadingObjects(items)
    decreases k
  {
    if k > 0 {
      LeadingObjectsIff(items[1..], k - 1);
      if forall j :: 0 <= j < k ==> items[j].JObject? {
        assert items[0].JObject?;
        forall j | 0 <= j < k - 1 ensures items[1..][j].JObject? {
          assert items[1..][j] == items[j + 1];
        }
      }
      if k <= LeadingObjects(items) {
        forall j | 0 <= j < k ensures items[j].JObject? {
          if j > 0 {
            assert items[j] == items[1..][j - 1];
          }
        }
      }
    }
  }

  /** The run of objects ends at a non-object or at the end of the array. */
  lemma {:induction false} LeadingObjectsStop(items: seq<Json>)
    ensures LeadingObjects(items) < |items| ==> !items[LeadingObjects(items)].JObject?
    decreases |items|
  {
    if items != [] && items[0].JObject? {
      LeadingObjectsStop(items[1..]);
    }
  }

  /** The markers a JSON batch places, and the error it stops with, if any. */
  datatype BatchPlan = BatchPlan(requests: seq<MarkerRequest>, failure: Option<ErrorCode>)

  /** Every marker object the loop reaches can be read. */
  predicate JsonMarkersReadable(parsed: Option<Json>) {
    parsed.Some? && parsed.value.JArray? ==>
      forall j :: 0 <= j < LeadingObjects(parsed.value.elements) ==> WellFormedMarker(parsed.value.elements[j])
  }

  /**
   * What AddMarkersFromJson does with the parsed input (None: the text is not
   * JSON): one marker per leading object, stopping with an error at the first
   * element that is not an object; an input that is not an array places nothing.
   */
  function JsonPlan(parsed: Option<Json>, defaultHue: real, defaultDraggable: bool): (p: BatchPlan)
    requires JsonMarkersReadable(parsed)
  {
    match parsed
    case None => BatchPlan([], Some(GoogleMapJsonFormatDecodeFailed))
    case Some(JArray(items)) =>
      var k := LeadingObjects(items);
      BatchPlan(seq(k, j requires 0 <= j < k => ObjectRequest(items[j], defaultHue, defaultDraggable)),
        if k < |items| then Some(GoogleMapInvalidInput) else None)
    case Some(_) => BatchPlan([], Some(GoogleMapInvalidInput))
  }

  /** Input that is not JSON, or JSON that is not an array, places nothing and reports one error. */
  lemma JsonPlanNotArray(parsed: Option<Json>, defaultHue: real, defaultDraggable: bool)
    requires parsed.None? || !parsed.value.JArray?
    ensures JsonMarkersReadable(parsed)
    ensures var p := JsonPlan(parsed, defaultHue, defaultDraggable);
      && p.requests == []
      && p.failure == Some(if parsed.None? then GoogleMapJsonFormatDecodeFailed else GoogleMapInvalidInput)
  {
  }

  /** Where an array batch stops: after the leading objects, with an error when an element follows them. */
  lemma JsonPlanShape(items: seq<Json>, defaultHue: real, defaultDraggable: bool)
    requires JsonMarkersReadable(Some(JArray(items)))
    ensures var p := JsonPlan(Some(JArray(items)), defaultHue, defaultDraggable);
      && |p.requests| <= |items|
      && (forall j :: 0 <= j < |p.requests| ==> items[j].JObject?)
      && (|p.requests| < |items| ==> !items[|p.requests|].JObject?)
      && p.failure == if |p.requests| < |items| then Some(GoogleMapInvalidInput) else None
  {
    var k := LeadingObjects(items);
    LeadingObjectsStop(items);
    LeadingObjectsIff(items, k);
  }

  /** Each element the array batch places is a readable marker object, placed as ObjectRequest reads it. */
  lemma JsonPlanAt(items: seq<Json>, defaultHue: real, defaultDraggable: bool, i: nat)
    requires JsonMarkersReadable(Some(JArray(items)))
    requires i < |JsonPlan(Some(JArray(items)), defaultHue, defaultDraggable).requests|
    ensures i < |items| && WellFormedMarker(items[i])
    ensures JsonPlan(Some(JArray(items)), defaultHue, defaultDraggable).requests[i] == ObjectRequest(items[i], defaultHue, defaultDraggable)
  {
  }

  /** An array batch fails exactly when some element is not an object. */
  lemma JsonPlanFails(items: seq<Json>, defaultHue: real, defaultDraggable: bool)
    requires JsonMarkersReadable(Some(JArray(items)))
    ensures JsonPlan(Some(JArray(items)), defaultHue, defaultDraggable).failure.Some?
        <==> exists j :: 0 <= j < |items| && !items[j].JObject?
  {
    var k := LeadingObjects(items);
    LeadingObjectsStop(items);
    LeadingObjectsIff(items, k);
    if k == |items| {
      assert forall j :: 0 <= j < |items| ==> items[j].JObject?;
    }
  }
}

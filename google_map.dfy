/**
 * The bookkeeping the map component keeps beside the maps SDK it wraps: the
 * map-type setting, the listener, my-location and UI-gesture flags, the
 * registry from marker ids to marker handles, and the set-up of the SDK map.
 * The SDK map is reduced to whether it exists plus a log of the calls made on
 * it; SDK markers are Marker objects; events handed to the form are a log.
 */
module GoogleMapComponent {
  import opened Wrappers
  import opened Ids
  import opened MapTypes
  import opened MarkerInput

  /** Reverse lookup in a dictionary: a key bound to `value`, or None when there is none. */
  method KeyByValue<K(==), V(==)>(m: map<K, V>, value: V) returns (key: Option<K>)
    ensures key.Some? ==> key.value in m && m[key.value] == value
    ensures key.None? <==> value !in m.Values
  {
    var remaining := m.Keys;
    while remaining != {}
      invariant remaining <= m.Keys
      invariant forall k :: k in m && k !in remaining ==> m[k] != value
      decreases remaining
    {
      var k :| k in remaining;
      if m[k] == value {
        return Some(k);
      }
      remaining := remaining - {k};
    }
    return None;
  }

  /** A marker handle of the maps SDK. */
  class Marker {
    var lat: real
    var lng: real
    var icon: Icon
    var title: Option<string>
    var snippet: Option<string>
    var draggable: bool
    var removed: bool

    function State(): MarkerState
      reads this
    {
      MarkerState(lat, lng, icon, title, snippet, draggable, removed)
    }

    /** A marker added from options carrying a position, an icon and possibly a title. */
    constructor (lat: real, lng: real, icon: Icon, title: Option<string>)
      ensures State() == MarkerState(lat, lng, icon, title, None, false, false)
    {
      this.lat, this.lng, this.icon, this.title := lat, lng, icon, title;
      snippet, draggable, removed := None, false, false;
    }

    method SetTitle(t: string)
      modifies this
      ensures State() == old(State()).(title := Some(t))
    {
      title := Some(t);
    }

    method SetSnippet(s: string)
      modifies this
      ensures State() == old(State()).(snippet := Some(s))
    {
      snippet := Some(s);
    }

    method SetDraggable(b: bool)
      modifies this
      ensures State() == old(State()).(draggable := b)
    {
      draggable := b;
    }

    method SetIcon(i: Icon)
      modifies this
      ensures State() == old(State()).(icon := i)
    {
      icon := i;
    }

    method Remove()
      modifies this
      ensures State() == old(State()).(removed := true)
    {
      removed := true;
    }
  }

  /** The gesture and widget settings pushed to the SDK's UiSettings. */
  datatype UiSetting = Compass | RotateGestures | ScrollGestures | ZoomControls | ZoomGestures

  /** The map-level listeners the component attaches on request. */
  datatype Listener = MapClick | MapLongClick | CameraChange

  /** A call made on the SDK map or its UiSettings. */
  datatype SdkCall =
    | SetMarkerListeners                          // marker-click, info-window-click and marker-drag listeners, all this component
    | SetUi(setting: UiSetting, enabled: bool)
    | SetMyLocationEnabled(enabled: bool)
    | SetMapTypeCall(code: int)
    | SetListener(listener: Listener, attached: bool)

  /** An event handed to the form. */
  datatype Event =
    | ErrorOccurred(functionName: string, code: ErrorCode, detail: Option<string>)
    | MapIsReady

  /** The value last pushed to the SDK for a UI setting, if any. */
  ghost function LastUiSetting(calls: seq<SdkCall>, setting: UiSetting): Option<bool>
    decreases |calls|
  {
    if calls == [] then None
    else
      var last := calls[|calls| - 1];
      if last.SetUi? && last.setting == setting then Some(last.enabled)
      else LastUiSetting(calls[..|calls| - 1], setting)
  }

  lemma LastUiSettingAppend(calls: seq<SdkCall>, c: SdkCall, setting: UiSetting)
    ensures LastUiSetting(calls + [c], setting)
         == if c.SetUi? && c.setting == setting then Some(c.enabled) else LastUiSetting(calls, setting)
  {
    assert (calls + [c])[..|calls|] == calls;
  }

  /** Distinct ids are bound to distinct markers. */
  ghost predicate Injective(m: map<int, Marker>) {
    forall a, b :: a in m && b in m && m[a] == m[b] ==> a == b
  }

  /** `n` copies of `x`. */
  function Repeat<T>(x: T, n: nat): (r: seq<T>)
    ensures |r| == n
    decreases n
  {
    if n == 0 then [] else Repeat(x, n - 1) + [x]
  }

  /** The events AddMarkersFromJson reports for the error a batch stops with. */
  function JsonFailureEvents(failure: Option<ErrorCode>, jsonString: string): seq<Event> {
    match failure
    case None => []
    case Some(code) =>
      [ErrorOccurred("AddMarkersFromJson", code,
        if code == GoogleMapJsonFormatDecodeFailed then Some(jsonString) else None)]
  }

  /** The value UpdateMarker is given, as far as its casts look at it. */
  datatype PropertyValue = FloatValue(f: real) | StringValue(s: string) | BoolValue(b: bool) | OtherValue

  /** The casts UpdateMarker performs on the value succeed. */
  predicate ValueFits(propertyName: string, value: PropertyValue) {
    && (propertyName == "color" ==> value.FloatValue?)
    && (propertyName == "title" ==> value.StringValue?)
    && (propertyName == "snippet" ==> value.StringValue?)
    && (propertyName == "draggable" ==> value.BoolValue?)
  }

  /** A marker's state after UpdateMarker: the named property changes; an unknown name changes nothing. */
  function Updated(s: MarkerState, propertyName: string, value: PropertyValue): MarkerState
    requires ValueFits(propertyName, value)
  {
    if propertyName == "color" then s.(icon := Hue(value.f))
    else if propertyName == "title" then s.(title := Some(value.s))
    else if propertyName == "snippet" then s.(snippet := Some(value.s))
    else if propertyName == "draggable" then s.(draggable := value.b)
    else s
  }

  /** UpdateMarker never moves a marker, never removes it, and touches at most the property it names. */
  lemma UpdatedKeepsOthers(s: MarkerState, propertyName: string, value: PropertyValue)
    requires ValueFits(propertyName, value)
    ensures var t := Updated(s, propertyName, value);
      && t.lat == s.lat && t.lng == s.lng && t.removed == s.removed
      && (propertyName != "color" ==> t.icon == s.icon)
      && (propertyName != "title" ==> t.title == s.title)
      && (propertyName != "snippet" ==> t.snippet == s.snippet)
      && (propertyName != "draggable" ==> t.draggable == s.draggable)
  {
  }

  /**
   * `after` is `before` with each of `newIds`, none of them bound in `before`,
   * bound to the matching marker of `added`.
   */
  ghost predicate Binds(before: map<int, Marker>, after: map<int, Marker>, newIds: seq<int>, added: seq<Marker>) {
    && |newIds| == |added|
    && (forall id :: id in after <==> id in before || id in newIds)
    && (forall id :: id in before ==> after[id] == before[id])
    && (forall j :: 0 <= j < |newIds| ==> newIds[j] !in before && newIds[j] in after && after[newIds[j]] == added[j])
  }

  /** Extending a prefix of `s` by one element. */
  lemma SliceSnoc<T>(s: seq<T>, i: nat)
    requires i < |s|
    ensures s[..i + 1] == s[..i] + [s[i]]
  {
  }

  /** Appending to a concatenation appends to its second part. */
  lemma AppendAssoc<T>(a: seq<T>, b: seq<T>, c: seq<T>)
    ensures (a + b) + c == a + (b + c)
  {
  }

  /** The prefix of `s` of its full length is `s`. */
  lemma SliceAll<T>(s: seq<T>)
    ensures s[..|s|] == s
  {
  }

  /** Binding one more id, not bound yet, extends a batch by one marker. */
  lemma BindsStep(before: map<int, Marker>, mid: map<int, Marker>, newIds: seq<int>, added: seq<Marker>, id: int, m: Marker)
    requires Binds(before, mid, newIds, added)
    requires id !in mid
    ensures Binds(before, mid[id := m], newIds + [id], added + [m])
  {
  }

  class GoogleMap {
    /** The process-wide id counters. */
    const ids: IdGenerator
    /** The id given to the component's layout view. */
    var viewId: int
    /** Whether the SDK map (and with it its UiSettings) has been obtained. */
    var mapReady: bool
    /** The marker registry. */
    var markers: map<int, Marker>

    var mapType: int
    var myLocationEnabled: bool
    var compassEnabled: bool
    var rotateEnabled: bool
    var scrollEnabled: bool
    var zoomControlEnabled: bool
    var zoomGesturesEnabled: bool

    /** Defaults for markers; the component never changes them. */
    const markerColor: int := ColorBlue
    const markerDraggable: bool := false

    var enableMapClickListener: bool
    var enableMapLongClickListener: bool
    var enableCameraChangeListener: bool

    /** The calls made on the SDK map, oldest first. */
    ghost var sdkCalls: seq<SdkCall>
    /** The events handed to the form, oldest first. */
    ghost var events: seq<Event>

    /** The stored value of a UI setting. */
    function UiFlag(s: UiSetting): bool
      reads this`compassEnabled, this`rotateEnabled, this`scrollEnabled, this`zoomControlEnabled, this`zoomGesturesEnabled
    {
      match s
      case Compass => compassEnabled
      case RotateGestures => rotateEnabled
      case ScrollGestures => scrollEnabled
      case ZoomControls => zoomControlEnabled
      case ZoomGestures => zoomGesturesEnabled
    }

    /** The SDK's UI settings are the values the component stores. */
    ghost predicate UiMirrored()
      reads this`sdkCalls, this`compassEnabled, this`rotateEnabled, this`scrollEnabled, this`zoomControlEnabled, this`zoomGesturesEnabled
    {
      forall s :: LastUiSetting(sdkCalls, s) == Some(UiFlag(s))
    }

    ghost predicate Valid()
      reads this`viewId, this`mapType, this`markers, this`mapReady, this`sdkCalls, this`compassEnabled, this`rotateEnabled, this`scrollEnabled, this`zoomControlEnabled, this`zoomGesturesEnabled, ids
    {
      && ids.Valid()
      && 1 <= viewId <= MaxViewId
      && IsMapTypeCode(mapType)
      && (forall id :: id in markers ==> id <= ids.lastMarkerId)
      && Injective(markers)
      && (mapReady ==> UiMirrored())
    }

    /**
     * The registry after a batch add: every old binding kept, and each new id,
     * none of them in use before, bound to a fresh marker placed as its request asks.
     */
    twostate predicate Extends(newIds: seq<int>, reqs: seq<MarkerRequest>)
      reads this, markers.Values
    {
      && |newIds| == |reqs|
      && (forall id :: id in markers <==> id in old(markers) || id in newIds)
      && (forall id :: id in old(markers) ==> markers[id] == old(markers)[id])
      && (forall j :: 0 <= j < |newIds| ==>
            && newIds[j] !in old(markers)
            && newIds[j] in markers
            && fresh(markers[newIds[j]])
            && markers[newIds[j]].State() == Placed(reqs[j]))
    }

    constructor (ids: IdGenerator)
      requires ids.Valid()
      modifies ids`nextViewId
      ensures Valid() && this.ids == ids
      ensures viewId == old(ids.nextViewId) && ids.nextViewId == NextViewId(viewId)
      ensures !mapReady && markers == map[]
      ensures mapType == MapTypeNormal && !myLocationEnabled
      ensures !compassEnabled && rotateEnabled && scrollEnabled && !zoomControlEnabled && zoomGesturesEnabled
      ensures !enableMapClickListener && !enableMapLongClickListener && !enableCameraChangeListener
      ensures sdkCalls == [] && events == []
    {
      var id := ids.GenerateViewId();
      this.ids := ids;
      viewId := id;
      mapReady := false;
      markers := map[];
      mapType := MapTypeNormal;
      myLocationEnabled := false;
      compassEnabled, rotateEnabled, scrollEnabled := false, true, true;
      zoomControlEnabled, zoomGesturesEnabled := false, true;
      enableMapClickListener, enableMapLongClickListener, enableCameraChangeListener := false, false, false;
      sdkCalls, events := [], [];
    }

    // -------------------------------------------------------------------------
    // Set-up

    /**
     * Obtains the SDK map once; `mapObtained` is whether the map fragment hands one out.
     * Once the map exists nothing happens; when none is obtained an error is reported
     * and the next call tries again.
     */
    method SetUpMapIfNeeded(mapObtained: bool)
      requires Valid()
      modifies this`mapReady, this`sdkCalls, this`events
      ensures Valid()
      ensures old(mapReady) ==> mapReady && sdkCalls == old(sdkCalls) && events == old(events)
      ensures !old(mapReady) && mapObtained ==>
        && mapReady
        && sdkCalls == old(sdkCalls) + [SetMarkerListeners] + SetUpUiCalls()
        && events == old(events) + [MapIsReady]
      ensures !old(mapReady) && !mapObtained ==>
        && !mapReady
        && sdkCalls == old(sdkCalls)
        && events == old(events) + [ErrorOccurred("setUpMapIfNeeded", GooglePlayNotInstalled, None)]
    {
      if !mapReady {
        if mapObtained {
          mapReady := true;
          SetUpMap();
        } else {
          events := events + [ErrorOccurred("setUpMapIfNeeded", GooglePlayNotInstalled, None)];
        }
      }
    }

    /** The UI settings setUpMap pushes, in order. */
    function SetUpUiCalls(): seq<SdkCall>
      reads this
    {
      [SetUi(Compass, compassEnabled), SetUi(RotateGestures, rotateEnabled),
       SetUi(ScrollGestures, scrollEnabled), SetUi(ZoomControls, zoomControlEnabled),
       SetUi(ZoomGestures, zoomGesturesEnabled)]
    }

    /** Attaches the marker listeners, places a test marker, pushes the UI settings and announces the map. */
    method SetUpMap()
      requires ids.Valid() && 1 <= viewId <= MaxViewId && IsMapTypeCode(mapType)
      requires (forall id :: id in markers ==> id <= ids.lastMarkerId) && Injective(markers)
      requires mapReady
      modifies this`sdkCalls, this`events
      ensures Valid()
      ensures sdkCalls == old(sdkCalls) + [SetMarkerListeners] + SetUpUiCalls()
      ensures events == old(events) + [MapIsReady]
    {
      sdkCalls := sdkCalls + [SetMarkerListeners];
      // The test marker is placed on the SDK map but not entered in the registry.
      var testMarker := new Marker(0.0, 0.0, DefaultIcon, Some("Marker"));
      ghost var before := sdkCalls;
      sdkCalls := sdkCalls + SetUpUiCalls();
      forall s ensures LastUiSetting(sdkCalls, s) == Some(UiFlag(s)) {
        SetUpUiCallsMirrored(before, SetUpUiCalls(), s);
      }
      events := events + [MapIsReady];
    }

    /** Appends one UI-setting call to the SDK log. */
    method PushUi(s: UiSetting, enabled: bool)
      modifies this`sdkCalls
      ensures sdkCalls == old(sdkCalls) + [SetUi(s, enabled)]
      ensures forall t :: LastUiSetting(sdkCalls, t) == if t == s then Some(enabled) else LastUiSetting(old(sdkCalls), t)
    {
      sdkCalls := sdkCalls + [SetUi(s, enabled)];
      forall t ensures LastUiSetting(sdkCalls, t) == if t == s then Some(enabled) else LastUiSetting(old(sdkCalls), t) {
        LastUiSettingAppend(old(sdkCalls), SetUi(s, enabled), t);
      }
    }

    /** After the pushes of setUpMap, the SDK's last value for each UI setting is the stored flag. */
    lemma SetUpUiCallsMirrored(before: seq<SdkCall>, pushes: seq<SdkCall>, s: UiSetting)
      requires pushes == SetUpUiCalls()
      ensures LastUiSetting(before + pushes, s) == Some(UiFlag(s))
    {
      var p := pushes;
      assert before + p == before + p[..4] + [p[4]];
      LastUiSettingAppend(before + p[..4], p[4], s);
      assert before + p[..4] == before + p[..3] + [p[3]];
      LastUiSettingAppend(before + p[..3], p[3], s);
      assert before + p[..3] == before + p[..2] + [p[2]];
      LastUiSettingAppend(before + p[..2], p[2], s);
      assert before + p[..2] == before + p[..1] + [p[1]];
      LastUiSettingAppend(before + p[..1], p[1], s);
      assert before + p[..1] == before + [p[0]];
      LastUiSettingAppend(before, p[0], s);
    }

    // -------------------------------------------------------------------------
    // UI settings (the source dereferences UiSettings, so the map must exist)

    method EnableCompass(enable: bool)
      requires Valid() && mapReady
      modifies this`compassEnabled, this`sdkCalls
      ensures Valid() && compassEnabled == enable
      ensures sdkCalls == old(sdkCalls) + [SetUi(Compass, enable)]
    {
      compassEnabled := enable;
      PushUi(Compass, enable);
    }

    method EnableRotate(enable: bool)
      requires Valid() && mapReady
      modifies this`rotateEnabled, this`sdkCalls
      ensures Valid() && rotateEnabled == enable
      ensures sdkCalls == old(sdkCalls) + [SetUi(RotateGestures, enable)]
    {
      rotateEnabled := enable;
      PushUi(RotateGestures, enable);
    }

    method EnableScroll(enable: bool)
      requires Valid() && mapReady
      modifies this`scrollEnabled, this`sdkCalls
      ensures Valid() && scrollEnabled == enable
      ensures sdkCalls == old(sdkCalls) + [SetUi(ScrollGestures, enable)]
    {
      scrollEnabled := enable;
      PushUi(ScrollGestures, enable);
    }

    method EnableZoomControl(enable: bool)
      requires Valid() && mapReady
      modifies this`zoomControlEnabled, this`sdkCalls
      ensures Valid() && zoomControlEnabled == enable
      ensures sdkCalls == old(sdkCalls) + [SetUi(ZoomControls, enable)]
    {
      zoomControlEnabled := enable;
      PushUi(ZoomControls, enable);
    }

    method EnableZoomGesture(enable: bool)
      requires Valid() && mapReady
      modifies this`zoomGesturesEnabled, this`sdkCalls
      ensures Valid() && zoomGesturesEnabled == enable
      ensures sdkCalls == old(sdkCalls) + [SetUi(ZoomGestures, enable)]
    {
      zoomGesturesEnabled := enable;
      PushUi(ZoomGestures, enable);
    }

    // The getters ask the SDK's UiSettings: they report the value last pushed to it.

    /** Whether the compass widget setting is on, as the SDK reports it. */
    function CompassEnabled(): (enabled: bool)
      requires Valid() && mapReady
      reads this, ids
      ensures LastUiSetting(sdkCalls, Compass) == Some(enabled)
    {
      compassEnabled
    }

    /** Whether the rotate gestures setting is on, as the SDK reports it. */
    function RotateEnabled(): (enabled: bool)
      requires Valid() && mapReady
      reads this, ids
      ensures LastUiSetting(sdkCalls, RotateGestures) == Some(enabled)
    {
      rotateEnabled
    }

    /** Whether the scroll gestures setting is on, as the SDK reports it. */
    function ScrollEnabled(): (enabled: bool)
      requires Valid() && mapReady
      reads this, ids
      ensures LastUiSetting(sdkCalls, ScrollGestures) == Some(enabled)
    {
      scrollEnabled
    }

    /** Whether the zoom widget setting is on, as the SDK reports it. */
    function ZoomControlEnabled(): (enabled: bool)
      requires Valid() && mapReady
      reads this, ids
      ensures LastUiSetting(sdkCalls, ZoomControls) == Some(enabled)
    {
      zoomControlEnabled
    }

    /** Whether the zoom gestures setting is on, as the SDK reports it. */
    function ZoomGestureEnabled(): (enabled: bool)
      requires Valid() && mapReady
      reads this, ids
      ensures LastUiSetting(sdkCalls, ZoomGestures) == Some(enabled)
    {
      zoomGesturesEnabled
    }

    // -------------------------------------------------------------------------
    // My location and map listeners (stored whether or not the map exists)

    /** Logs a call on the SDK map that is not a UI setting. */
    method LogCall(c: SdkCall)
      requires !c.SetUi?
      modifies this`sdkCalls
      ensures sdkCalls == old(sdkCalls) + [c]
      ensures forall t :: LastUiSetting(sdkCalls, t) == LastUiSetting(old(sdkCalls), t)
    {
      sdkCalls := sdkCalls + [c];
      forall t ensures LastUiSetting(sdkCalls, t) == LastUiSetting(old(sdkCalls), t) {
        LastUiSettingAppend(old(sdkCalls), c, t);
      }
    }

    method EnableMyLocation(enabled: bool)
      requires Valid()
      modifies this`myLocationEnabled, this`sdkCalls
      ensures Valid()
      ensures MyLocationEnabled() == enabled
      ensures sdkCalls == old(sdkCalls) + if mapReady then [SetMyLocationEnabled(enabled)] else []
    {
      if myLocationEnabled != enabled {
        myLocationEnabled := enabled;
      }
      if mapReady {
        LogCall(SetMyLocationEnabled(enabled));
      }
    }

    /** Whether the my-location widget is requested: the stored flag, read whether or not the map exists. */
    function MyLocationEnabled(): (enabled: bool)
      reads this
      ensures enabled == myLocationEnabled
    {
      myLocationEnabled
    }

    method EnableMapClickListener(enabled: bool)
      requires Valid()
      modifies this`enableMapClickListener, this`sdkCalls
      ensures Valid()
      ensures MapClickListenerEnabled() == enabled
      ensures sdkCalls == old(sdkCalls) + if mapReady then [SetListener(MapClick, enabled)] else []
    {
      if enableMapClickListener != enabled {
        enableMapClickListener := enabled;
      }
      if mapReady {
        LogCall(SetListener(MapClick, enabled));
      }
    }

    /** Whether the map-click listener is requested: the stored flag, read whether or not the map exists. */
    function MapClickListenerEnabled(): (enabled: bool)
      reads this
      ensures enabled == enableMapClickListener
    {
      enableMapClickListener
    }

    method EnableMapLongClickListener(enabled: bool)
      requires Valid()
      modifies this`enableMapLongClickListener, this`sdkCalls
      ensures Valid()
      ensures MapLongClickListenerEnabled() == enabled
      ensures sdkCalls == old(sdkCalls) + if mapReady then [SetListener(MapLongClick, enabled)] else []
    {
      if enableMapLongClickListener != enabled {
        enableMapLongClickListener := enabled;
      }
      if mapReady {
        LogCall(SetListener(MapLongClick, enabled));
      }
    }

    /** Whether the map long-click listener is requested: the stored flag, read whether or not the map exists. */
    function MapLongClickListenerEnabled(): (enabled: bool)
      reads this
      ensures enabled == enableMapLongClickListener
    {
      enableMapLongClickListener
    }

    method EnableMapCameraPosChangeListener(enabled: bool)
      requires Valid()
      modifies this`enableCameraChangeListener, this`sdkCalls
      ensures Valid()
      ensures MapCameraChangedListenerEnabled() == enabled
      ensures sdkCalls == old(sdkCalls) + if mapReady then [SetListener(CameraChange, enabled)] else []
    {
      if enableCameraChangeListener != enabled {
        enableCameraChangeListener := enabled;
      }
      if mapReady {
        LogCall(SetListener(CameraChange, enabled));
      }
    }

    /** Whether the camera-change listener is requested: the stored flag, read whether or not the map exists. */
    function MapCameraChangedListenerEnabled(): (enabled: bool)
      reads this
      ensures enabled == enableCameraChangeListener
    {
      enableCameraChangeListener
    }

    // -------------------------------------------------------------------------
    // Map type

    /**
     * Selects a layer by name; an unknown name is reported and leaves the map type
     * as it was. When the map exists the (possibly unchanged) type is pushed to it.
     */
    method SetMapType(layerName: string)
      requires Valid()
      modifies this`mapType, this`events, this`sdkCalls
      ensures Valid()
      ensures layerName in LayerNames ==> MapType() == Some(layerName) && events == old(events)
      ensures layerName !in LayerNames ==>
        && mapType == old(mapType)
        && events == old(events) + [ErrorOccurred("SetMapType", GoogleMapInvalidInput, None)]
      ensures sdkCalls == old(sdkCalls) + if mapReady then [SetMapTypeCall(mapType)] else []
    {
      if layerName == "normal" {
        mapType := MapTypeNormal;
      } else if layerName == "hybrid" {
        mapType := MapTypeHybrid;
      } else if layerName == "satellite" {
        mapType := MapTypeSatellite;
      } else if layerName == "terrain" {
        mapType := MapTypeTerrain;
      } else {
        events := events + [ErrorOccurred("SetMapType", GoogleMapInvalidInput, None)];
      }
      if mapReady {
        LogCall(SetMapTypeCall(mapType));
      }
    }

    /** The current layer name; None (Java null) only for a code outside the table. */
    function MapType(): (name: Option<string>)
      reads this
      ensures IsMapTypeCode(mapType) ==> name.Some? && LayerCode(name.value) == Some(mapType)
    {
      LayerName(mapType)
    }

    // -------------------------------------------------------------------------
    // Marker registry

    /** Places a marker on the SDK map and binds `id` to it. */
    method AddMarkerToMap(id: int, request: MarkerRequest)
      requires Valid() && mapReady
      requires id <= ids.lastMarkerId
      modifies this`markers
      ensures Valid()
      ensures id in markers && fresh(markers[id]) && markers[id].State() == Placed(request)
      ensures markers == old(markers)[id := markers[id]]
    {
      var marker := new Marker(request.lat, request.lng, request.icon, None);
      if request.title != "" {
        marker.SetTitle(request.title);
      }
      if request.snippet != "" {
        marker.SetSnippet(request.snippet);
      }
      marker.SetDraggable(request.draggable);
      markers := markers[id := marker];
    }

    /** generateMarkerId followed by addMarkerToMap: a fresh id bound to a fresh marker. */
    method AddNextMarker(request: MarkerRequest) returns (id: int)
      requires Valid() && mapReady
      modifies this`markers, ids`lastMarkerId
      ensures Valid()
      ensures id == old(ids.lastMarkerId) + 1 && ids.lastMarkerId == id
      ensures id !in old(markers)
      ensures id in markers && fresh(markers[id]) && markers[id].State() == Placed(request)
      ensures markers == old(markers)[id := markers[id]]
    {
      id := ids.GenerateMarkerId();
      AddMarkerToMap(id, request);
    }

    /**
     * A batch add in progress: the ids after `c0` bound, over the registry `before`,
     * to the markers of `added`, each placed as its request in `reqs` asks.
     */
    ghost predicate BatchInv(before: map<int, Marker>, c0: int, newIds: seq<int>, added: seq<Marker>, reqs: seq<MarkerRequest>)
      reads this`markers, ids`lastMarkerId, added
    {
      && |added| == |reqs|
      && ids.lastMarkerId == c0 + |newIds|
      && newIds == MarkerIds(c0, |newIds|)
      && Binds(before, markers, newIds, added)
      && forall j :: 0 <= j < |added| ==> added[j].State() == Placed(reqs[j])
    }

    /** One step of a batch add: the next id bound to a fresh marker for `request`. */
    method AddBatchMarker(ghost before: map<int, Marker>, ghost c0: int, ghost newIds: seq<int>, ghost added: seq<Marker>,
        ghost reqs: seq<MarkerRequest>, request: MarkerRequest)
        returns (id: int)
      requires Valid() && mapReady
      requires BatchInv(before, c0, newIds, added, reqs)
      modifies this`markers, ids`lastMarkerId
      ensures Valid()
      ensures id in markers && fresh(markers[id])
      ensures BatchInv(before, c0, newIds + [id], added + [markers[id]], reqs + [request])
    {
      ghost var mid := markers;
      id := AddNextMarker(request);
      BindsStep(before, mid, newIds, added, id, markers[id]);
      MarkerIdsAppend(c0, |newIds|);
    }

    /**
     * A list add after its first `i` items: the markers asked for by the inner lists
     * among them are bound (see BatchInv), and one error `err` was reported after
     * `evs0` for each other element.
     */
    ghost predicate ListProgress<C>(items: seq<MarkerItem<C>>, i: int, defaultColor: C, iconOf: C -> Icon, draggable: bool,
        before: map<int, Marker>, c0: int, err: Event, evs0: seq<Event>,
        newIds: seq<int>, added: seq<Marker>, reqs: seq<MarkerRequest>, errs: seq<Event>)
      reads this`markers, this`events, ids`lastMarkerId, added
    {
      && 0 <= i <= |items|
      && reqs == ListRequests(items[..i], defaultColor, iconOf, draggable)
      && BatchInv(before, c0, newIds, added, reqs)
      && errs == Repeat(err, NotAListCount(items[..i]))
      && events == evs0 + errs
    }

    /** One item of a list add: a marker for an inner list, an error for anything else. */
    method AddListItem<C>(items: seq<MarkerItem<C>>, i: int, defaultColor: C, iconOf: C -> Icon,
        ghost before: map<int, Marker>, ghost c0: int, ghost err: Event, ghost evs0: seq<Event>,
        newIds: seq<int>, ghost added: seq<Marker>, ghost reqs: seq<MarkerRequest>, ghost errs: seq<Event>)
        returns (nextIds: seq<int>, ghost made: seq<Marker>, ghost nextReqs: seq<MarkerRequest>, ghost nextErrs: seq<Event>)
      requires Valid() && 0 <= i < |items|
      requires items[i].InnerList? ==> items[i].size >= 2 && mapReady
      requires ListProgress(items, i, defaultColor, iconOf, markerDraggable, before, c0, err, evs0, newIds, added, reqs, errs)
      modifies this`markers, this`events, ids`lastMarkerId
      ensures Valid()
      ensures ListProgress(items, i + 1, defaultColor, iconOf, markerDraggable, before, c0, err, evs0,
        nextIds, added + made, nextReqs, nextErrs)
      ensures forall j :: 0 <= j < |made| ==> fresh(made[j])
    {
      ListSnoc(items, i, defaultColor, iconOf, markerDraggable);
      if items[i].InnerList? {
        var r := ItemRequest(items[i], defaultColor, iconOf, markerDraggable);
        var id := AddBatchMarker(before, c0, newIds, added, reqs, r);
        nextIds, made, nextReqs, nextErrs := newIds + [id], [markers[id]], reqs + [r], errs;
      } else {
        AppendAssoc(evs0, errs, [err]);
        events := events + [err];
        nextIds, made, nextReqs, nextErrs := newIds, [], reqs, errs + [err];
      }
    }

    /** The loop of a list add: every item in turn, as AddListItem handles it. */
    method AddListItems<C>(items: seq<MarkerItem<C>>, defaultColor: C, iconOf: C -> Icon, ghost err: Event)
        returns (newIds: seq<int>, ghost added: seq<Marker>, ghost reqs: seq<MarkerRequest>, ghost errs: seq<Event>)
      requires Valid()
      requires forall i :: 0 <= i < |items| && items[i].InnerList? ==> items[i].size >= 2
      requires mapReady || forall i :: 0 <= i < |items| ==> items[i].NotAList?
      modifies this`markers, this`events, ids`lastMarkerId
      ensures Valid()
      ensures ListProgress(items, |items|, defaultColor, iconOf, markerDraggable, old(markers), old(ids.lastMarkerId), err,
        old(events), newIds, added, reqs, errs)
      ensures forall j :: 0 <= j < |added| ==> fresh(added[j])
    {
      ghost var c0 := ids.lastMarkerId;
      newIds, added, reqs, errs := [], [], [], [];
      var i := 0;
      while i < |items|
        invariant Valid()
        invariant ListProgress(items, i, defaultColor, iconOf, markerDraggable, old(markers), c0, err, old(events),
          newIds, added, reqs, errs)
        invariant forall j :: 0 <= j < |added| ==> fresh(added[j])
      {
        ghost var made;
        newIds, made, reqs, errs := AddListItem(items, i, defaultColor, iconOf, old(markers), c0, err, old(events),
          newIds, added, reqs, errs);
        added := added + made;
        i := i + 1;
      }
    }

    /**
     * The list add shared by AddMarkers and AddMarkersHue: a fresh id and a marker for each
     * inner list, in order; an error (reported as "AddMarkers") for each other element.
     */
    method AddListMarkers<C>(items: seq<MarkerItem<C>>, defaultColor: C, iconOf: C -> Icon) returns (newIds: seq<int>)
      requires Valid()
      requires forall i :: 0 <= i < |items| && items[i].InnerList? ==> items[i].size >= 2
      requires mapReady || forall i :: 0 <= i < |items| ==> items[i].NotAList?
      modifies this`markers, this`events, ids`lastMarkerId
      ensures Valid()
      ensures newIds == MarkerIds(old(ids.lastMarkerId), |newIds|)
      ensures ids.lastMarkerId == old(ids.lastMarkerId) + |newIds|
      ensures Extends(newIds, ListRequests(items, defaultColor, iconOf, markerDraggable))
      ensures events == old(events) + Repeat(ErrorOccurred("AddMarkers", GoogleMapInvalidInput, None), NotAListCount(items))
    {
      ghost var added, reqs, errs;
      newIds, added, reqs, errs := AddListItems(items, defaultColor, iconOf, ErrorOccurred("AddMarkers", GoogleMapInvalidInput, None));
      SliceAll(items);
      assert forall j :: 0 <= j < |newIds| ==> markers[newIds[j]] == added[j];
    }

    /** Adds markers given as inner YailLists whose colour slot is an ARGB colour. */
    method AddMarkers(items: seq<MarkerItem<int>>) returns (newIds: seq<int>)
      requires Valid()
      requires forall i :: 0 <= i < |items| && items[i].InnerList? ==> items[i].size >= 2
      requires mapReady || forall i :: 0 <= i < |items| ==> items[i].NotAList?
      modifies this`markers, this`events, ids`lastMarkerId
      ensures Valid()
      ensures newIds == MarkerIds(old(ids.lastMarkerId), |newIds|)
      ensures ids.lastMarkerId == old(ids.lastMarkerId) + |newIds|
      ensures Extends(newIds, ListRequests(items, markerColor, ArgbIcon, markerDraggable))
      ensures events == old(events) + Repeat(ErrorOccurred("AddMarkers", GoogleMapInvalidInput, None), NotAListCount(items))
    {
      newIds := AddListMarkers(items, markerColor, ArgbIcon);
    }

    /** Adds markers given as inner YailLists whose colour slot is a hue; the default hue is blue. */
    method AddMarkersHue(items: seq<MarkerItem<real>>) returns (newIds: seq<int>)
      requires Valid()
      requires forall i :: 0 <= i < |items| && items[i].InnerList? ==> items[i].size >= 2
      requires mapReady || forall i :: 0 <= i < |items| ==> items[i].NotAList?
      modifies this`markers, this`events, ids`lastMarkerId
      ensures Valid()
      ensures newIds == MarkerIds(old(ids.lastMarkerId), |newIds|)
      ensures ids.lastMarkerId == old(ids.lastMarkerId) + |newIds|
      ensures Extends(newIds, ListRequests(items, HueBlue, HueIcon, markerDraggable))
      ensures events == old(events) + Repeat(ErrorOccurred("AddMarkers", GoogleMapInvalidInput, None), NotAListCount(items))
    {
      newIds := AddListMarkers(items, HueBlue, HueIcon);
    }

    /**
     * Adds markers given as a JSON array of objects (`parsed` is the parser's result,
     * None when the text is not JSON). Stops with an error at the first element that
     * is not an object, keeping the markers added so far.
     */
    method AddMarkersFromJson(jsonString: string, parsed: Option<Json>) returns (newIds: seq<int>)
      requires Valid()
      requires JsonMarkersReadable(parsed)
      requires mapReady || JsonPlan(parsed, HueBlue, markerDraggable).requests == []
      modifies this`markers, this`events, ids`lastMarkerId
      ensures Valid()
      ensures newIds == MarkerIds(old(ids.lastMarkerId), |newIds|)
      ensures ids.lastMarkerId == old(ids.lastMarkerId) + |newIds|
      ensures Extends(newIds, JsonPlan(parsed, HueBlue, markerDraggable).requests)
      ensures events == old(events) + JsonFailureEvents(JsonPlan(parsed, HueBlue, markerDraggable).failure, jsonString)
    {
      match parsed {
        case None =>
          newIds := [];
          events := events + [ErrorOccurred("AddMarkersFromJson", GoogleMapJsonFormatDecodeFailed, Some(jsonString))];
        case Some(JArray(items)) =>
          newIds := AddJsonArrayMarkers(items);
        case Some(_) =>
          newIds := [];
          events := events + [ErrorOccurred("AddMarkersFromJson", GoogleMapInvalidInput, None)];
      }
    }

    /**
     * The loop of AddMarkersFromJson over the elements of the array: a marker for each
     * leading object; `stopped` when it met an element that is not an object.
     */
    method AddJsonObjects(items: seq<Json>) returns (newIds: seq<int>, ghost added: seq<Marker>, stopped: bool)
      requires Valid()
      requires JsonMarkersReadable(Some(JArray(items)))
      requires mapReady || JsonPlan(Some(JArray(items)), HueBlue, markerDraggable).requests == []
      modifies this`markers, ids`lastMarkerId
      ensures Valid()
      ensures BatchInv(old(markers), old(ids.lastMarkerId), newIds, added, JsonPlan(Some(JArray(items)), HueBlue, markerDraggable).requests)
      ensures forall j :: 0 <= j < |added| ==> fresh(added[j])
      ensures stopped <==> JsonPlan(Some(JArray(items)), HueBlue, markerDraggable).failure.Some?
    {
      ghost var plan := JsonPlan(Some(JArray(items)), HueBlue, markerDraggable).requests;
      JsonPlanShape(items, HueBlue, markerDraggable);
      ghost var c0 := ids.lastMarkerId;
      newIds, added, stopped := [], [], false;
      ghost var reqs: seq<MarkerRequest> := [];
      var i := 0;
      while i < |items|
        invariant 0 <= i <= |plan| && |reqs| == i
        invariant reqs == plan[..i]
        invariant Valid()
        invariant BatchInv(old(markers), c0, newIds, added, reqs)
        invariant forall j :: 0 <= j < |added| ==> fresh(added[j])
      {
        if !items[i].JObject? {
          assert i == |plan|;
          SliceAll(plan);
          stopped := true;
          return;
        }
        assert i < |plan|;
        JsonPlanAt(items, HueBlue, markerDraggable, i);
        var r := ObjectRequest(items[i], HueBlue, markerDraggable);
        var id := AddBatchMarker(old(markers), c0, newIds, added, reqs, r);
        newIds := newIds + [id];
        added := added + [markers[id]];
        SliceSnoc(plan, i);
        reqs := reqs + [r];
        i := i + 1;
      }
      SliceAll(plan);
    }

    /** The array case of AddMarkersFromJson: the leading objects placed, then an error if the array goes on. */
    method AddJsonArrayMarkers(items: seq<Json>) returns (newIds: seq<int>)
      requires Valid()
      requires JsonMarkersReadable(Some(JArray(items)))
      requires mapReady || JsonPlan(Some(JArray(items)), HueBlue, markerDraggable).requests == []
      modifies this`markers, this`events, ids`lastMarkerId
      ensures Valid()
      ensures newIds == MarkerIds(old(ids.lastMarkerId), |newIds|)
      ensures ids.lastMarkerId == old(ids.lastMarkerId) + |newIds|
      ensures Extends(newIds, JsonPlan(Some(JArray(items)), HueBlue, markerDraggable).requests)
      ensures events == old(events) + JsonFailureEvents(JsonPlan(Some(JArray(items)), HueBlue, markerDraggable).failure, "")
    {
      JsonPlanShape(items, HueBlue, markerDraggable);
      ghost var added;
      var stopped;
      newIds, added, stopped := AddJsonObjects(items);
      if stopped {
        events := events + [ErrorOccurred("AddMarkersFromJson", GoogleMapInvalidInput, None)];
      }
      assert forall j :: 0 <= j < |newIds| ==> markers[newIds[j]] == added[j];
    }

    /** The marker bound to an id (the source fails on an id that was never bound). */
    method GetMarkerIfExisted(markerId: int) returns (marker: Marker)
      requires Valid() && markerId in markers
      ensures marker == markers[markerId]
      ensures forall id :: id in markers && markers[id] == marker ==> id == markerId
    {
      marker := markers[markerId];
    }

    /** Removes a marker from the SDK map; its id stays bound in the registry. */
    method RemoveMarker(markerId: int)
      requires Valid() && markerId in markers
      modifies markers[markerId]
      ensures markers == old(markers)
      ensures markers[markerId].State() == old(markers[markerId].State()).(removed := true)
    {
      var marker := GetMarkerIfExisted(markerId);
      marker.Remove();
    }

    /** Sets the colour, title, snippet or draggability of a bound marker; other names do nothing. */
    method UpdateMarker(markerId: int, propertyName: string, value: PropertyValue)
      requires Valid() && markerId in markers
      requires ValueFits(propertyName, value)
      modifies markers[markerId]
      ensures markers == old(markers)
      ensures markers[markerId].State() == Updated(old(markers[markerId].State()), propertyName, value)
    {
      var marker := GetMarkerIfExisted(markerId);
      if propertyName == "color" {
        marker.SetIcon(Hue(value.f));
      }
      if propertyName == "title" {
        marker.SetTitle(value.s);
      }
      if propertyName == "snippet" {
        marker.SetSnippet(value.s);
      }
      if propertyName == "draggable" {
        marker.SetDraggable(value.b);
      }
    }

    /** The id of a marker, as the marker event handlers look it up: the one id bound to it, or None. */
    method MarkerIdOf(marker: Marker) returns (id: Option<int>)
      requires Valid()
      ensures id.None? <==> marker !in markers.Values
      ensures forall k :: k in markers && markers[k] == marker ==> id == Some(k)
    {
      id := KeyByValue(markers, marker);
      if id.Some? {
        forall k | k in markers && markers[k] == marker ensures id == Some(k) {
          assert Injective(markers);
          assert k in markers && id.value in markers && markers[k] == markers[id.value];
          assert k == id.value;
        }
      }
    }
  }
}

/**
 * The map component (`DeveloperMap`): on every change of the user location,
 * the developer list or the radius, it creates the Leaflet map if there is
 * none, redraws the search circle, rebuilds one marker per developer and
 * frames the view. Leaflet layers are objects; here each one carries the
 * identity it was created with, and the map is the list of layers on it.
 */
module DeveloperMap {
  import opened Js
  import opened Geo
  import opened Api

  /** The `searchRadius` prop when it is left `undefined`, in kilometres. */
  const DefaultRadiusKm: real := 10.0

  /** The zoom of a freshly created map. */
  const InitialZoom: int := 13

  /** What a layer draws. */
  datatype LayerKind =
    | Tiles
    | UserMarker(at: Coord)
    | RadiusCircle(center: Coord, radiusMeters: real)
    | DeveloperMarker(at: Coord, developer: Developer)

  /** The map view: not set yet, centred at a zoom, or fitted to the bounds of a group of layers. */
  datatype View =
    | NoView
    | Centered(center: Coord, zoom: int)
    | FitBounds(group: seq<LayerKind>)

  /**
   * The zoom used when no developer was found: 14 up to 5 km, 13 up to 10 km,
   * 12 up to 20 km, 11 beyond.
   */
  function ZoomFor(radiusKm: real): (zoom: int)
    ensures 11 <= zoom <= 14
    ensures zoom == 14 <==> radiusKm <= 5.0
    ensures zoom == 11 <==> radiusKm > 20.0
  {
    if radiusKm <= 5.0 then 14 else if radiusKm <= 10.0 then 13 else if radiusKm <= 20.0 then 12 else 11
  }

  /** A wider search never zooms in further. */
  lemma ZoomNonIncreasing(a: real, b: real)
    requires a <= b
    ensures ZoomFor(b) <= ZoomFor(a)
  {
  }

  /** The zoom for each radius the search page offers (5, 10, 15, 20, 50 and 250 km). */
  lemma ZoomForOfferedRadii()
    ensures ZoomFor(5.0) == 14 && ZoomFor(10.0) == 13 && ZoomFor(15.0) == 12
    ensures ZoomFor(20.0) == 12 && ZoomFor(50.0) == 11 && ZoomFor(250.0) == 11
  {
  }

  /** The marker drawn for a developer, at its coordinates. */
  function MarkerFor(d: DeveloperWithDistance): LayerKind {
    DeveloperMarker(Coord(d.dev.latitude, d.dev.longitude), d.dev)
  }

  /** The component's refs (`mapInstanceRef`, `circleRef`, `markersRef`) and the map they point into. */
  class MapComponent {
    /** `mapInstanceRef.current !== null` */
    var hasMap: bool
    /** Every Leaflet layer created so far, by identity, with what it draws. */
    var layers: map<nat, LayerKind>
    /** The identities of the layers on the current map. */
    var onMap: set<nat>
    var view: View
    /** `circleRef.current` */
    var circle: Option<nat>
    /** `markersRef.current` */
    var markers: seq<nat>
    /** The identity the next created layer receives. */
    var nextId: nat

    /**
     * Every identity in use was handed out before; the only circle on the
     * map is the one `circleRef` holds, and every developer marker on the
     * map is in `markersRef`; without a map there is nothing on it.
     */
    ghost predicate Valid()
      reads this
    {
      (forall id :: id in layers ==> id < nextId)
      && onMap <= layers.Keys
      && (forall k :: 0 <= k < |markers| ==> markers[k] in layers)
      && (circle.Some? ==> circle.value in layers)
      && (forall id :: id in onMap && layers[id].RadiusCircle? ==> circle == Some(id))
      && (forall id :: id in onMap && layers[id].DeveloperMarker? ==> id in markers)
      && (!hasMap ==> onMap == {})
    }

    /** What the markers of `markersRef` draw, in order. */
    function MarkerKinds(): (r: seq<LayerKind>)
      requires Valid()
      reads this
      ensures |r| == |markers| && forall k :: 0 <= k < |markers| ==> r[k] == layers[markers[k]]
    {
      seq(|markers|, k requires 0 <= k < |markers| && Valid() reads this => layers[markers[k]])
    }

    /** The refs before the first render. */
    constructor()
      ensures Valid() && !hasMap && circle.None? && markers == [] && view == NoView
    {
      hasMap := false;
      layers := map[];
      onMap := {};
      view := NoView;
      circle := None;
      markers := [];
      nextId := 0;
    }

    /**
     * The effect body. A map is created only when there is none and the
     * container exists. On a map, the previous circle is removed and a
     * circle of `searchRadius * 1000` metres drawn, so exactly one circle is
     * left; every previous marker is removed and one marker per developer
     * added, in developer order; the view fits all of them when there are
     * developers, and is centred at the ladder zoom otherwise.
     */
    method Update(userLocation: Coord, developers: seq<DeveloperWithDistance>, searchRadius: Option<real>,
                  hasContainer: bool)
      requires Valid()
      modifies this
      ensures Valid()
      ensures hasMap <==> old(hasMap) || hasContainer
      ensures !hasMap ==> markers == old(markers) && circle == old(circle) && view == old(view)
      ensures hasMap ==>
        circle.Some? && circle.value in onMap
        && layers[circle.value] == RadiusCircle(userLocation, searchRadius.GetOr(DefaultRadiusKm) * 1000.0)
        && (forall id :: id in onMap && layers[id].RadiusCircle? ==> id == circle.value)
      ensures hasMap ==>
        |markers| == |developers|
        && (forall k :: 0 <= k < |developers| ==> markers[k] in onMap && layers[markers[k]] == MarkerFor(developers[k]))
        && (forall id :: id in onMap && layers[id].DeveloperMarker? ==> id in markers)
        && (forall k :: 0 <= k < |old(markers)| ==> old(markers)[k] !in onMap)
      ensures hasMap && |developers| > 0 ==>
        view == FitBounds(MarkerKinds() + [UserMarker(userLocation), layers[circle.value]])
      ensures hasMap && |developers| == 0 ==>
        view == Centered(userLocation, ZoomFor(searchRadius.GetOr(DefaultRadiusKm)))
      ensures old(hasMap) ==>
        forall id :: id in old(onMap) && id !in old(markers) && Some(id) != old(circle) ==>
          id in onMap && layers[id] == old(layers)[id]
      ensures !old(hasMap) && hasMap ==>
        old(nextId) in onMap && layers[old(nextId)] == Tiles
        && old(nextId) + 1 in onMap && layers[old(nextId) + 1] == UserMarker(userLocation)
    {
      var radius := searchRadius.GetOr(DefaultRadiusKm);
      if !hasMap && hasContainer {
        CreateMap(userLocation);
        assert forall k :: 0 <= k < |markers| ==> markers[k] < old(nextId);
      }
      if !hasMap {
        return;
      }
      Redraw(userLocation, developers, radius);
    }

    /** The effect body once there is a map: circle, markers and view, in that order. */
    method Redraw(userLocation: Coord, developers: seq<DeveloperWithDistance>, radiusKm: real)
      requires Valid() && hasMap
      modifies this
      ensures Valid() && hasMap
      ensures circle.Some? && circle.value in onMap
        && layers[circle.value] == RadiusCircle(userLocation, radiusKm * 1000.0)
        && (forall id :: id in onMap && layers[id].RadiusCircle? ==> id == circle.value)
      ensures |markers| == |developers|
        && (forall k :: 0 <= k < |developers| ==> markers[k] in onMap && layers[markers[k]] == MarkerFor(developers[k]))
        && (forall id :: id in onMap && layers[id].DeveloperMarker? ==> id in markers)
        && (forall k :: 0 <= k < |old(markers)| ==> old(markers)[k] !in onMap)
      ensures |developers| > 0 ==> view == FitBounds(MarkerKinds() + [UserMarker(userLocation), layers[circle.value]])
      ensures |developers| == 0 ==> view == Centered(userLocation, ZoomFor(radiusKm))
      ensures forall id :: id in old(onMap) && id !in old(markers) && Some(id) != old(circle) ==>
        id in onMap && layers[id] == old(layers)[id]
    {
      RedrawCircle(userLocation, radiusKm);
      assert forall k :: 0 <= k < |markers| ==> markers[k] != circle.value;
      ReplaceMarkers(developers);
      if |developers| > 0 {
        view := FitBounds(MarkerKinds() + [UserMarker(userLocation), layers[circle.value]]);
      } else {
        view := Centered(userLocation, ZoomFor(radiusKm));
      }
    }

    /** `L.map(container).setView([lat, lon], 13)` with the tile layer and the user's marker. */
    method CreateMap(userLocation: Coord)
      requires Valid() && !hasMap
      modifies this
      ensures Valid() && hasMap
      ensures onMap == {old(nextId), old(nextId) + 1}
      ensures layers == old(layers)[old(nextId) := Tiles][old(nextId) + 1 := UserMarker(userLocation)]
      ensures view == Centered(userLocation, InitialZoom)
      ensures markers == old(markers) && circle == old(circle) && nextId == old(nextId) + 2
    {
      hasMap := true;
      view := Centered(userLocation, InitialZoom);
      layers := layers[nextId := Tiles][nextId + 1 := UserMarker(userLocation)];
      onMap := {nextId, nextId + 1};
      nextId := nextId + 2;
    }

    /** `circleRef.current.remove()` if there is one, then a new circle of `radiusKm * 1000` metres. */
    method RedrawCircle(userLocation: Coord, radiusKm: real)
      requires Valid() && hasMap
      modifies this
      ensures Valid() && hasMap
      ensures circle == Some(old(nextId)) && layers == old(layers)[old(nextId) := RadiusCircle(userLocation, radiusKm * 1000.0)]
      ensures onMap == (if old(circle).Some? then old(onMap) - {old(circle).value} else old(onMap)) + {old(nextId)}
      ensures markers == old(markers) && view == old(view) && nextId == old(nextId) + 1
    {
      if circle.Some? {
        onMap := onMap - {circle.value};
      }
      layers := layers[nextId := RadiusCircle(userLocation, radiusKm * 1000.0)];
      onMap := onMap + {nextId};
      circle := Some(nextId);
      nextId := nextId + 1;
    }

    /** Every previous marker taken off the map, then one new marker per developer. */
    method ReplaceMarkers(developers: seq<DeveloperWithDistance>)
      requires Valid() && hasMap
      modifies this
      ensures Valid() && hasMap
      ensures |markers| == |developers|
        && forall k :: 0 <= k < |developers| ==> markers[k] in onMap && layers[markers[k]] == MarkerFor(developers[k])
      ensures forall k :: 0 <= k < |old(markers)| ==> old(markers)[k] !in onMap
      ensures forall id :: id in old(onMap) && id !in old(markers) ==> id in onMap
      ensures forall id :: id in old(layers) ==> id in layers && layers[id] == old(layers)[id]
      ensures circle == old(circle) && view == old(view)
    {
      ghost var before := markers;
      assert forall k :: 0 <= k < |before| ==> before[k] < nextId;
      ClearMarkers();
      AddMarkers(developers);
    }

    /** `markersRef.current.forEach((marker) => marker.remove())`, then `markersRef.current = []`. */
    method ClearMarkers()
      requires Valid() && hasMap
      modifies this
      ensures Valid() && hasMap && markers == []
      ensures onMap == old(onMap) - set id | id in old(markers)
      ensures forall id :: id in onMap ==> !layers[id].DeveloperMarker?
      ensures layers == old(layers) && circle == old(circle) && view == old(view) && nextId == old(nextId)
    {
      var i := 0;
      while i < |markers|
        invariant 0 <= i <= |markers|
        invariant markers == old(markers) && layers == old(layers) && hasMap && circle == old(circle)
        invariant view == old(view) && nextId == old(nextId)
        invariant onMap == old(onMap) - set id | id in markers[..i]
      {
        onMap := onMap - {markers[i]};
        i := i + 1;
      }
      assert markers[..i] == markers;
      markers := [];
    }

    /** `developers.forEach(...)`: one new marker per developer, pushed in order. */
    method AddMarkers(developers: seq<DeveloperWithDistance>)
      requires Valid() && hasMap && markers == []
      modifies this
      ensures Valid() && hasMap
      ensures |markers| == |developers|
      ensures forall k :: 0 <= k < |developers| ==>
        markers[k] == old(nextId) + k && markers[k] in onMap && layers[markers[k]] == MarkerFor(developers[k])
      ensures forall id :: id in onMap <==> id in old(onMap) || id in markers
      ensures forall id :: id in old(layers) ==> id in layers && layers[id] == old(layers)[id]
      ensures circle == old(circle) && view == old(view) && nextId == old(nextId) + |developers|
    {
      var j := 0;
      while j < |developers|
        invariant 0 <= j <= |developers| && |markers| == j && nextId == old(nextId) + j
        invariant Valid() && hasMap && circle == old(circle) && view == old(view)
        invariant forall k :: 0 <= k < j ==> markers[k] == old(nextId) + k && layers[markers[k]] == MarkerFor(developers[k])
        invariant forall id :: id in onMap <==> id in old(onMap) || id in markers
        invariant forall id :: id in old(layers) ==> id in layers && layers[id] == old(layers)[id]
      {
        AddMarker(developers[j]);
        j := j + 1;
      }
    }

    /** `L.marker([lat, lon]).addTo(map)` and `markersRef.current.push(marker)` for one developer. */
    method AddMarker(dev: DeveloperWithDistance)
      requires Valid() && hasMap
      modifies this
      ensures Valid() && hasMap
      ensures old(nextId) !in old(layers) && layers == old(layers)[old(nextId) := MarkerFor(dev)]
      ensures onMap == old(onMap) + {old(nextId)} && markers == old(markers) + [old(nextId)]
      ensures circle == old(circle) && view == old(view) && nextId == old(nextId) + 1
    {
      layers := layers[nextId := MarkerFor(dev)];
      onMap := onMap + {nextId};
      markers := markers + [nextId];
      nextId := nextId + 1;
    }

    /** The effect cleanup: the map is removed with all its layers and the ref cleared; the other refs are kept. */
    method Cleanup()
      requires Valid()
      modifies this
      ensures Valid()
      ensures !hasMap && onMap == {}
      ensures markers == old(markers) && circle == old(circle) && view == old(view) && layers == old(layers)
    {
      if hasMap {
        hasMap := false;
        onMap := {};
      }
    }
  }
}

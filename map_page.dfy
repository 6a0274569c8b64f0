/**
 * The map page script backend/frontend/js/map.js: turning the three filter
 * fields and the map centre into the query parameters of the occurrence
 * search, clearing the filters, and replacing the map's markers with one
 * marker per returned occurrence.
 *
 * Leaflet and the DOM are reduced to the state those functions change: the
 * map centre, the set of layers on the map, the module-level `markers`
 * array and the values of the three filter fields. `fetchOccurrences` is
 * represented by the parameter object it is called with.
 */
module MapPage {
  import opened Base
  import opened OccurrenceModel
  import OccurrenceRoute

  datatype LatLng = LatLng(lat: real, lng: real)

  /** A value of the `params` object: the text of a form field, or a number of the map centre. */
  datatype ParamValue = Text(text: string) | Number(number: real)

  /** A Leaflet marker: its position `[lat, lng]` and its popup HTML. */
  class Marker {
    const position: LatLng
    const popup: string

    constructor (position: LatLng, popup: string)
      ensures this.position == position && this.popup == popup
    {
      this.position := position;
      this.popup := popup;
    }
  }

  /** The popup of an occurrence's marker. */
  function Popup(o: Occurrence): string
  {
    "<b>" + o.kind + "</b><br>" + o.description
  }

  /** The marker position of a stored `[lng, lat]` pair, swapped to Leaflet's `[lat, lng]`. */
  function MarkerPosition(coordinates: seq<real>): (p: LatLng)
    requires |coordinates| >= 2
    ensures [p.lng, p.lat] == coordinates[..2]
  {
    LatLng(coordinates[1], coordinates[0])
  }

  /** The parameters `applyFilters` builds from the field values and the map centre. */
  function FormParams(kind: string, period: string, radius: string, center: LatLng): (m: map<string, ParamValue>)
    ensures "type" in m && m["type"] == Text(kind)
    ensures "period" in m && m["period"] == Text(period)
    ensures m.Keys == {"type", "period"} + (if radius != "" then {"centerLat", "centerLng", "radius"} else {})
    ensures radius != "" ==>
              m["centerLat"] == Number(center.lat) && m["centerLng"] == Number(center.lng) && m["radius"] == Text(radius)
  {
    var base := map["type" := Text(kind), "period" := Text(period)];
    if radius != "" then
      base["centerLat" := Number(center.lat)]["centerLng" := Number(center.lng)]["radius" := Text(radius)]
    else base
  }

  /** `String(value)` as URLSearchParams writes it; `numberText` is JavaScript's Number-to-String. */
  function ParamText(v: ParamValue, numberText: real -> string): string
  {
    match v
    case Text(t) => t
    case Number(n) => numberText(n)
  }

  /** The query the backend destructures from a URL built of `params` (the encoding round-trips). */
  function Transmit(params: map<string, ParamValue>, numberText: real -> string): OccurrenceRoute.Params
  {
    var field := (k: string) => if k in params then Some(ParamText(params[k], numberText)) else None;
    OccurrenceRoute.Params(field("type"), field("period"), field("centerLat"), field("centerLng"), field("radius"))
  }

  /**
   * Across the two files: an empty radius field never gives a geographic
   * filter, and an empty type or period field adds no constraint, although
   * both are always sent.
   */
  lemma EmptyFieldsAddNothing(kind: string, period: string, radius: string, center: LatLng,
                              numberText: real -> string, now: int, parse: string -> real)
    ensures var f := OccurrenceRoute.FilterFor(Transmit(FormParams(kind, period, radius, center), numberText), now, parse);
            && (radius == "" ==> f.location.None?)
            && (kind == "" ==> f.kind.None?)
            && (period == "" ==> f.createdAtGte.None?)
            && (kind == "" && period == "" && radius == "" ==> f == OccurrenceRoute.MatchAll)
  {
  }

  /**
   * Across the two files: a non-empty radius field sends the map centre, and
   * the backend's `$near` centre is that centre with longitude first, when
   * parseFloat reads back what Number-to-String wrote.
   */
  lemma RadiusSendsCentre(kind: string, period: string, radius: string, center: LatLng,
                          numberText: real -> string, now: int, parse: string -> real)
    requires radius != ""
    requires numberText(center.lat) != "" && numberText(center.lng) != ""
    requires parse(numberText(center.lat)) == center.lat && parse(numberText(center.lng)) == center.lng
    ensures OccurrenceRoute.FilterFor(Transmit(FormParams(kind, period, radius, center), numberText), now, parse).location
            == Some(OccurrenceRoute.Near(PointKind, [center.lng, center.lat], parse(radius) * 1000.0))
  {
  }

  /** Clearing sends no parameter at all, which the backend reads as no constraint. */
  lemma ClearedQueryMatchesAll(numberText: real -> string, now: int, parse: string -> real)
    ensures Transmit(map[], numberText) == OccurrenceRoute.NoParams
    ensures OccurrenceRoute.FilterFor(Transmit(map[], numberText), now, parse) == OccurrenceRoute.MatchAll
  {
  }

  /** The page state the script changes. */
  class MapView {
    /** `map.getCenter()`. */
    var center: LatLng
    /** The markers currently added to the Leaflet map. */
    var layers: set<Marker>
    /** The module-level `markers` array. */
    var markers: seq<Marker>
    /** The values of `typeFilter`, `dateFilter` and `radiusFilter`. */
    var typeFilter: string
    var dateFilter: string
    var radiusFilter: string

    constructor (center: LatLng)
      ensures this.center == center && layers == {} && markers == []
      ensures typeFilter == "" && dateFilter == "" && radiusFilter == ""
    {
      this.center := center;
      layers, markers := {}, [];
      typeFilter, dateFilter, radiusFilter := "", "", "";
    }

    /** `applyFilters()`: the parameters it fetches with; `type` and `period` are always present. */
    method ApplyFilters() returns (params: map<string, ParamValue>)
      ensures params == FormParams(typeFilter, dateFilter, radiusFilter, center)
    {
      params := map["type" := Text(typeFilter), "period" := Text(dateFilter)];
      if radiusFilter != "" {
        params := params["centerLat" := Number(center.lat)];
        params := params["centerLng" := Number(center.lng)];
        params := params["radius" := Text(radiusFilter)];
      }
    }

    /** `clearFilters()`: empties the three fields and fetches with no parameters. */
    method ClearFilters() returns (params: map<string, ParamValue>)
      modifies this`typeFilter, this`dateFilter, this`radiusFilter
      ensures typeFilter == "" && dateFilter == "" && radiusFilter == ""
      ensures params == map[]
    {
      typeFilter, dateFilter, radiusFilter := "", "", "";
      params := map[];
    }

    /**
     * `displayOccurrences(occurrences)`, map part: every previous marker is
     * removed from the map, and `markers` then holds one new marker per
     * occurrence, in order, at its swapped position.
     */
    method DisplayOccurrences(occurrences: seq<Occurrence>)
      requires forall i :: 0 <= i < |occurrences| ==> |occurrences[i].location.coordinates| >= 2
      modifies this`layers, this`markers
      ensures |markers| == |occurrences|
      ensures forall i :: 0 <= i < |occurrences| ==>
                && markers[i].position == MarkerPosition(occurrences[i].location.coordinates)
                && markers[i].popup == Popup(occurrences[i])
      ensures forall i :: 0 <= i < |markers| ==> fresh(markers[i])
      ensures forall i, j :: 0 <= i < j < |markers| ==> markers[i] != markers[j]
      ensures layers == (old(layers) - set m | m in old(markers)) + set m | m in markers
      ensures center == old(center)
      ensures typeFilter == old(typeFilter) && dateFilter == old(dateFilter) && radiusFilter == old(radiusFilter)
    {
      var i := 0;
      while i < |markers|
        invariant 0 <= i <= |markers| && markers == old(markers)
        invariant layers == old(layers) - set k | 0 <= k < i :: markers[k]
      {
        layers := layers - {markers[i]};
        i := i + 1;
      }
      assert (set k | 0 <= k < |markers| :: markers[k]) == set m | m in old(markers);
      markers := [];
      var removed := layers;
      var j := 0;
      while j < |occurrences|
        invariant 0 <= j <= |occurrences| && |markers| == j
        invariant forall i :: 0 <= i < j ==>
                    && markers[i].position == MarkerPosition(occurrences[i].location.coordinates)
                    && markers[i].popup == Popup(occurrences[i])
        invariant forall i :: 0 <= i < j ==> fresh(markers[i])
        invariant forall i, k :: 0 <= i < k < j ==> markers[i] != markers[k]
        invariant layers == removed + set m | m in markers
      {
        var coordinates := occurrences[j].location.coordinates;
        var lng, lat := coordinates[0], coordinates[1];
        var marker := new Marker(LatLng(lat, lng), Popup(occurrences[j]));
        layers := layers + {marker};
        markers := markers + [marker];
        j := j + 1;
      }
    }
  }
}

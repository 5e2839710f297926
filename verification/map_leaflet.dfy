/**
 * `LeafletMapBox` of assets/Map/Leaflet/script.js: the map controller that
 * keeps a registry of placed markers (`markers`), a table from layer key to
 * layer group (`layers`) and the list of associated datagrids
 * (`datagrids`), and rebuilds each datagrid's markers from its rows.
 *
 * Quirks of this script that the model keeps:
 *  - `addMarker` only reads the registry; the caller `addMarkersFromDatagrids`
 *    pushes whatever it returns, including `null` for a duplicate;
 *  - a `null` entry makes every later duplicate scan that reaches it throw;
 *  - `removeLayer` drops the group but not its markers' registry entries;
 *  - the start marker placed by the constructor is never registered.
 */
module MapLeaflet {
  import opened JsValues
  import opened Leaflet
  import opened Dom

  /** The class the constructor insists on. */
  const MapBoxClass := "osy-leaflet-mapbox"

  /** The hidden fields `setVertex` writes, in the order it writes them. */
  const VertexSuffixes: seq<string> :=
    ["_ne_lat", "_ne_lng", "_sw_lat", "_sw_lng", "_center", "_cnt_lat", "_cnt_lng", "_zoom"]

  /** A parsed marker descriptor: `{coordinates, options, popup}`. */
  datatype RawMarker = RawMarker(coordinates: seq<Coord>, options: map<string, Js>, popup: Js)

  /**
   * A `div.row` of a datagrid: its `marker` attribute, parsed (None when the
   * attribute is absent or empty), and the innerHTML of its `.popup`
   * elements in document order.
   */
  datatype Row = Row(marker: Option<RawMarker>, popups: seq<string>)

  /**
   * The container element: its id, class list, parsed `data-center`
   * attribute (None when absent) and `zoomLevel` attribute (None when absent).
   */
  datatype BoxElement = BoxElement(id: string, classes: seq<string>, dataCenter: Option<RawMarker>, zoomLevel: Option<Js>)

  /** What the mapping library reports for the current view, already rendered as field values. */
  datatype Viewport = Viewport(
    neLat: string, neLng: string, swLat: string, swLng: string,
    center: string, cntLat: string, cntLng: string, zoom: string)

  /** The centre handed to `setView`: a field value split on ',' or the start coordinates. */
  datatype ViewCenter = SplitField(fields: seq<string>) | StartCoordinates(coords: seq<Coord>)

  // ---------------------------------------------------------------------
  // Marker construction (pure)
  // ---------------------------------------------------------------------

  /**
   * The icon `addMarker` chooses: a glyph whenever `awesomeIcon` is truthy,
   * otherwise a raster image when `iconUrl` is truthy, otherwise none (the
   * library's default pin). Glyphs default to green.
   */
  function ResolveIcon(options: map<string, Js>): (r: Option<Icon>)
    ensures (r.Some? && r.value.DivIcon?) <==> Truthy(Lookup(options, "awesomeIcon"))
    ensures (r.Some? && r.value.RasterIcon?) <==>
              !Truthy(Lookup(options, "awesomeIcon")) && Truthy(Lookup(options, "iconUrl"))
    ensures r.None? <==> !Truthy(Lookup(options, "awesomeIcon")) && !Truthy(Lookup(options, "iconUrl"))
    ensures r.Some? && r.value.DivIcon? ==> r.value == GlyphIcon(options, "green")
    ensures r.Some? && r.value.RasterIcon? ==> r.value == RasterIconFor(options)
  {
    if Truthy(Lookup(options, "awesomeIcon")) then Some(GlyphIcon(options, "green"))
    else if Truthy(Lookup(options, "iconUrl")) then Some(RasterIconFor(options))
    else None
  }

  /**
   * The marker `L.marker(coordinates, markerOptions).addTo(layer)` creates:
   * draggable only when the option is truthy, a popup bound only when the
   * descriptor's popup is truthy, and a click link only when `markerId` is
   * truthy and names an element of the page.
   */
  function NewMarker(raw: RawMarker, layer: LayerGroup, pageIds: set<string>): (m: Marker)
    ensures At(m, CoordAt(raw.coordinates, 0), CoordAt(raw.coordinates, 1))
    ensures m.parent == InGroup(layer)
    ensures m.options.icon == ResolveIcon(raw.options)
    ensures m.options.draggable <==> Truthy(Lookup(raw.options, "draggable"))
    ensures m.popup.Some? <==> Truthy(raw.popup)
    ensures m.popup.Some? ==> m.popup.value == raw.popup
    ensures m.clickRow.Some? <==>
              Truthy(Lookup(raw.options, "markerId")) && ToText(Lookup(raw.options, "markerId")) in pageIds
  {
    var markerId := Lookup(raw.options, "markerId");
    Marker(CoordAt(raw.coordinates, 0), CoordAt(raw.coordinates, 1),
           MarkerOptions(ResolveIcon(raw.options), Truthy(Lookup(raw.options, "draggable"))),
           InGroup(layer),
           if Truthy(raw.popup) then Some(raw.popup) else None,
           if Truthy(markerId) && ToText(markerId) in pageIds then Some(ToText(markerId)) else None)
  }

  // ---------------------------------------------------------------------
  // Duplicate detection over the registry
  // ---------------------------------------------------------------------

  /** The first `i` registry entries are markers, none of them at (lat, lng). */
  predicate Clear(registry: seq<Option<Marker>>, i: nat, lat: Coord, lng: Coord)
    requires i <= |registry|
  {
    forall j :: 0 <= j < i ==> registry[j].Some? && !At(registry[j].value, lat, lng)
  }

  /**
   * `this.markers.some(m => m.getLatLng() matches)`: scans left to right,
   * stops at the first match, and throws on a `null` entry reached first.
   */
  function Scan(registry: seq<Option<Marker>>, lat: Coord, lng: Coord): Result<bool>
    decreases |registry|
  {
    if registry == [] then Ok(false)
    else match registry[0]
      case None => Err(TypeError("Cannot read properties of null (reading 'getLatLng')"))
      case Some(m) => if At(m, lat, lng) then Ok(true) else Scan(registry[1..], lat, lng)
  }

  lemma ClearShift(registry: seq<Option<Marker>>, i: nat, lat: Coord, lng: Coord)
    requires i < |registry|
    ensures Clear(registry, i + 1, lat, lng) <==>
              registry[0].Some? && !At(registry[0].value, lat, lng) && Clear(registry[1..], i, lat, lng)
  {
    if registry[0].Some? && !At(registry[0].value, lat, lng) && Clear(registry[1..], i, lat, lng) {
      forall j | 0 <= j < i + 1 ensures registry[j].Some? && !At(registry[j].value, lat, lng) {
        if j > 0 { assert registry[j] == registry[1..][j - 1]; }
      }
    }
  }

  /**
   * Where the scan stops: the first entry that is `null` or at (lat, lng),
   * or the end of the registry.
   */
  function FirstStop(registry: seq<Option<Marker>>, lat: Coord, lng: Coord): (k: nat)
    ensures k <= |registry| && Clear(registry, k, lat, lng)
    ensures k < |registry| ==> registry[k].None? || At(registry[k].value, lat, lng)
    decreases |registry|
  {
    if registry == [] || registry[0].None? || At(registry[0].value, lat, lng) then 0
    else
      var k := FirstStop(registry[1..], lat, lng);
      ClearShift(registry, k, lat, lng);
      assert k < |registry| - 1 ==> registry[k + 1] == registry[1..][k];
      k + 1
  }

  /** The scan's answer is decided by the entry it stops at. */
  lemma {:induction false} ScanStops(registry: seq<Option<Marker>>, lat: Coord, lng: Coord)
    ensures var k := FirstStop(registry, lat, lng);
      Scan(registry, lat, lng) == if k == |registry| then Ok(false)
                                  else if registry[k].None? then Err(TypeError("Cannot read properties of null (reading 'getLatLng')"))
                                  else Ok(true)
    decreases |registry|
  {
    if registry != [] && registry[0].Some? && !At(registry[0].value, lat, lng) {
      ScanStops(registry[1..], lat, lng);
      var k := FirstStop(registry[1..], lat, lng);
      assert k < |registry| - 1 ==> registry[k + 1] == registry[1..][k];
    }
  }

  /**
   * The three outcomes of the scan: a match preceded only by markers; a
   * `null` preceded only by non-matching markers (a TypeError); or a registry
   * made only of non-matching markers.
   */
  lemma ScanSpec(registry: seq<Option<Marker>>, lat: Coord, lng: Coord)
    ensures Scan(registry, lat, lng) == Ok(true) <==>
              exists i :: 0 <= i < |registry| && Clear(registry, i, lat, lng)
                          && registry[i].Some? && At(registry[i].value, lat, lng)
    ensures Scan(registry, lat, lng).Err? <==>
              exists i :: 0 <= i < |registry| && Clear(registry, i, lat, lng) && registry[i].None?
    ensures Scan(registry, lat, lng) == Ok(false) <==> Clear(registry, |registry|, lat, lng)
  {
    var k := FirstStop(registry, lat, lng);
    ScanStops(registry, lat, lng);
    forall i | 0 <= i < |registry| && Clear(registry, i, lat, lng)
                 && (registry[i].None? || At(registry[i].value, lat, lng))
      ensures i == k
    {
    }
    if k < |registry| {
      assert !Clear(registry, |registry|, lat, lng) by {
        assert !(registry[k].Some? && !At(registry[k].value, lat, lng));
      }
    }
  }

  /** Scanning a longer registry: the old prefix decides unless it was clear. */
  lemma {:induction false} ScanAppend(a: seq<Option<Marker>>, b: seq<Option<Marker>>, lat: Coord, lng: Coord)
    ensures Scan(a + b, lat, lng) == if Scan(a, lat, lng) == Ok(false) then Scan(b, lat, lng) else Scan(a, lat, lng)
    decreases |a|
  {
    if a == [] {
      assert a + b == b;
    } else {
      assert (a + b)[0] == a[0];
      assert (a + b)[1..] == a[1..] + b;
      ScanAppend(a[1..], b, lat, lng);
    }
  }

  /**
   * `addMarker(map, layer, rawMarker)`: null for a coordinate already in the
   * registry, a TypeError when the scan reaches a `null` entry first, and
   * otherwise a new marker in `layer`. It never changes the registry.
   */
  function AddMarker(registry: seq<Option<Marker>>, layer: LayerGroup, raw: RawMarker, pageIds: set<string>)
    : (r: Result<Option<Marker>>)
    ensures r.Err? <==> Scan(registry, CoordAt(raw.coordinates, 0), CoordAt(raw.coordinates, 1)).Err?
    ensures r == Ok(None) <==> Scan(registry, CoordAt(raw.coordinates, 0), CoordAt(raw.coordinates, 1)) == Ok(true)
    ensures r.Ok? && r.value.Some? ==> r.value.value == NewMarker(raw, layer, pageIds)
  {
    match Scan(registry, CoordAt(raw.coordinates, 0), CoordAt(raw.coordinates, 1))
    case Err(f) => Err(f)
    case Ok(found) => if found then Ok(None) else Ok(Some(NewMarker(raw, layer, pageIds)))
  }

  /** In a registry without `null` entries, any entry at the coordinates makes `addMarker` return null. */
  lemma DuplicateRefused(registry: seq<Option<Marker>>, layer: LayerGroup, raw: RawMarker, pageIds: set<string>, k: nat)
    requires forall i :: 0 <= i < |registry| ==> registry[i].Some?
    requires k < |registry| && At(registry[k].value, CoordAt(raw.coordinates, 0), CoordAt(raw.coordinates, 1))
    ensures AddMarker(registry, layer, raw, pageIds) == Ok(None)
  {
    var lat, lng := CoordAt(raw.coordinates, 0), CoordAt(raw.coordinates, 1);
    ScanSpec(registry, lat, lng);
    assert !Clear(registry, |registry|, lat, lng);
  }

  /**
   * A `null` in the registry poisons it: `addMarker` for a coordinate that no
   * registered marker holds throws instead of placing the marker.
   */
  lemma NullPoisonsRegistry(registry: seq<Option<Marker>>, layer: LayerGroup, raw: RawMarker, pageIds: set<string>, k: nat)
    requires k < |registry| && registry[k].None?
    requires forall i :: 0 <= i < |registry| && registry[i].Some? ==>
               !At(registry[i].value, CoordAt(raw.coordinates, 0), CoordAt(raw.coordinates, 1))
    ensures AddMarker(registry, layer, raw, pageIds).Err?
  {
    var lat, lng := CoordAt(raw.coordinates, 0), CoordAt(raw.coordinates, 1);
    ScanSpec(registry, lat, lng);
    var i := 0;
    while i < |registry| && registry[i].Some?
      invariant 0 <= i <= k
      invariant Clear(registry, i, lat, lng)
    {
      i := i + 1;
    }
    assert Clear(registry, i, lat, lng) && registry[i].None?;
  }

  // ---------------------------------------------------------------------
  // The controller's bookkeeping as a value, and its steps
  // ---------------------------------------------------------------------

  /** `layers`, `markers`, and how many layer groups have been created so far. */
  datatype Bookkeeping = Bookkeeping(layers: map<string, LayerGroup>, markers: seq<Option<Marker>>, created: nat)

  /** Every group in the table was created before the next one will be. */
  predicate WellFormed(b: Bookkeeping) {
    forall k :: k in b.layers ==> b.layers[k].serial < b.created
  }

  /**
   * `getLayer(key)`: the group under `key`, created (fresh) and stored first
   * when the key is missing. Nothing else changes.
   */
  function GetLayerStep(b: Bookkeeping, key: string): (r: (Bookkeeping, LayerGroup))
    ensures key in r.0.layers && r.1 == r.0.layers[key]
    ensures r.0.markers == b.markers
    ensures key in b.layers ==> r.0 == b && r.1 == b.layers[key]
    ensures key !in b.layers ==>
              r.0.layers == b.layers[key := r.1] && r.1 == LayerGroup(b.created) && r.0.created == b.created + 1
    ensures WellFormed(b) ==> WellFormed(r.0)
    ensures WellFormed(b) && key !in b.layers ==> r.1 !in b.layers.Values
  {
    if key in b.layers then (b, b.layers[key])
    else
      var g := LayerGroup(b.created);
      (b.(layers := b.layers[key := g], created := b.created + 1), g)
  }

  /** A second `getLayer` with the same key returns the same group and changes nothing. */
  lemma GetLayerIdempotent(b: Bookkeeping, key: string)
    ensures GetLayerStep(GetLayerStep(b, key).0, key) == (GetLayerStep(b, key).0, GetLayerStep(b, key).1)
  {
  }

  /** `removeLayer(key)`: drops that key only; the registry is not pruned. */
  function RemoveLayerStep(b: Bookkeeping, key: string): (r: Bookkeeping)
    ensures r.layers == b.layers - {key}
    ensures r.markers == b.markers && r.created == b.created
    ensures key !in b.layers ==> r == b
    ensures WellFormed(b) ==> WellFormed(r)
  {
    if key in b.layers then b.(layers := b.layers - {key}) else b
  }

  // ---------------------------------------------------------------------
  // addMarkersFromDatagrids, as a specification
  // ---------------------------------------------------------------------

  /** The state after a step, and the exception that stopped it, if any. */
  datatype Outcome = Outcome(st: Bookkeeping, fault: Option<Fault>)

  /** The descriptor placed for a row: its parsed marker with the row's popups joined in order. */
  function RowMarker(row: Row): (r: Option<RawMarker>)
    ensures r.Some? <==> row.marker.Some?
    ensures r.Some? ==> r.value.coordinates == row.marker.value.coordinates
                        && r.value.options == row.marker.value.options
                        && r.value.popup == JStr(Join(row.popups, ""))
  {
    match row.marker
    case None => None
    case Some(raw) => Some(raw.(popup := JStr(Join(row.popups, ""))))
  }

  /**
   * One row: skipped without a marker; otherwise the datagrid's group is
   * fetched (created if missing) and `addMarker`'s result, marker or null,
   * is pushed onto the registry.
   */
  function PlaceRow(b: Bookkeeping, datagridId: string, row: Row, pageIds: set<string>): Outcome {
    match RowMarker(row)
    case None => Outcome(b, None)
    case Some(raw) =>
      var (b1, g) := GetLayerStep(b, datagridId);
      match AddMarker(b1.markers, g, raw, pageIds)
      case Err(f) => Outcome(b1, Some(f))
      case Ok(entry) => Outcome(b1.(markers := b1.markers + [entry]), None)
  }

  /** The rows of one datagrid, in document order, stopping at the first exception. */
  function PlaceRows(b: Bookkeeping, datagridId: string, rows: seq<Row>, pageIds: set<string>): Outcome
    decreases |rows|
  {
    if rows == [] then Outcome(b, None)
    else
      var o := PlaceRow(b, datagridId, rows[0], pageIds);
      if o.fault.Some? then o else PlaceRows(o.st, datagridId, rows[1..], pageIds)
  }

  /**
   * The datagrids in order: each one's layer is removed, then (when the
   * element exists; otherwise a TypeError) its rows are placed.
   */
  function Rebuild(b: Bookkeeping, datagrids: seq<string>, dom: map<string, seq<Row>>, pageIds: set<string>): Outcome
    decreases |datagrids|
  {
    if datagrids == [] then Outcome(b, None)
    else
      var b1 := RemoveLayerStep(b, datagrids[0]);
      if datagrids[0] !in dom then Outcome(b1, Some(TypeError("Cannot read properties of null (reading 'querySelectorAll')")))
      else
        var o := PlaceRows(b1, datagrids[0], dom[datagrids[0]], pageIds);
        if o.fault.Some? then o else Rebuild(o.st, datagrids[1..], dom, pageIds)
  }

  /** Continue a rebuild from an outcome. */
  function Then(o: Outcome, datagrids: seq<string>, dom: map<string, seq<Row>>, pageIds: set<string>): Outcome {
    if o.fault.Some? then o else Rebuild(o.st, datagrids, dom, pageIds)
  }

  /** Rows that carry a marker attribute. */
  function MarkerRows(rows: seq<Row>): nat
    decreases |rows|
  {
    if rows == [] then 0 else (if rows[0].marker.Some? then 1 else 0) + MarkerRows(rows[1..])
  }

  /** Marker rows over all the datagrids that exist. */
  function AllMarkerRows(datagrids: seq<string>, dom: map<string, seq<Row>>): nat
    decreases |datagrids|
  {
    if datagrids == [] then 0
    else (if datagrids[0] in dom then MarkerRows(dom[datagrids[0]]) else 0) + AllMarkerRows(datagrids[1..], dom)
  }

  /** No two registered markers share a coordinate pair. */
  predicate Distinct(registry: seq<Option<Marker>>) {
    forall i, j :: 0 <= i < j < |registry| && registry[i].Some? && registry[j].Some? ==>
      !At(registry[j].value, registry[i].value.lat, registry[i].value.lng)
  }

  /**
   * One row appends exactly one registry entry when it carries a marker and
   * none otherwise; the entry is null exactly when the coordinate was
   * already registered; the registry never shrinks and stays duplicate-free.
   */
  lemma PlaceRowSpec(b: Bookkeeping, datagridId: string, row: Row, pageIds: set<string>)
    ensures var o := PlaceRow(b, datagridId, row, pageIds);
      && b.markers <= o.st.markers
      && b.created <= o.st.created
      && (row.marker.None? ==> o == Outcome(b, None))
      && (row.marker.Some? && o.fault.None? ==>
            |o.st.markers| == |b.markers| + 1
            && (o.st.markers[|b.markers|].None? <==>
                  Scan(b.markers, CoordAt(row.marker.value.coordinates, 0),
                       CoordAt(row.marker.value.coordinates, 1)) == Ok(true)))
      && (Distinct(b.markers) ==> Distinct(o.st.markers))
      && (WellFormed(b) ==> WellFormed(o.st))
  {
    var o := PlaceRow(b, datagridId, row, pageIds);
    if row.marker.Some? {
      var raw := RowMarker(row).value;
      var (b1, g) := GetLayerStep(b, datagridId);
      var lat, lng := CoordAt(raw.coordinates, 0), CoordAt(raw.coordinates, 1);
      var r := AddMarker(b1.markers, g, raw, pageIds);
      if r.Ok? && r.value.Some? && Distinct(b.markers) {
        ScanSpec(b.markers, lat, lng);
        var reg := o.st.markers;
        assert reg == b.markers + [r.value];
        forall i, j | 0 <= i < j < |reg| && reg[i].Some? && reg[j].Some?
          ensures !At(reg[j].value, reg[i].value.lat, reg[i].value.lng)
        {
          if j == |b.markers| {
            assert Clear(b.markers, |b.markers|, lat, lng);
            assert !At(b.markers[i].value, lat, lng);
          } else {
            assert reg[i] == b.markers[i] && reg[j] == b.markers[j];
          }
        }
      }
    }
  }

  lemma {:induction false} PlaceRowsSpec(b: Bookkeeping, datagridId: string, rows: seq<Row>, pageIds: set<string>)
    ensures var o := PlaceRows(b, datagridId, rows, pageIds);
      && b.markers <= o.st.markers
      && b.created <= o.st.created
      && (o.fault.None? ==> |o.st.markers| == |b.markers| + MarkerRows(rows))
      && (Distinct(b.markers) ==> Distinct(o.st.markers))
      && (WellFormed(b) ==> WellFormed(o.st))
      && (forall k :: k != datagridId ==> (k in o.st.layers <==> k in b.layers))
      && (forall k :: k != datagridId && k in b.layers ==> o.st.layers[k] == b.layers[k])
      && (datagridId in o.st.layers <==> datagridId in b.layers || (o.fault.None? && MarkerRows(rows) > 0)
                                         || o.fault.Some?)
      && (datagridId in o.st.layers && datagridId !in b.layers ==> o.st.layers[datagridId].serial >= b.created)
      && (datagridId in b.layers ==> datagridId in o.st.layers && o.st.layers[datagridId] == b.layers[datagridId])
    decreases |rows|
  {
    if rows != [] {
      PlaceRowSpec(b, datagridId, rows[0], pageIds);
      var o := PlaceRow(b, datagridId, rows[0], pageIds);
      if o.fault.None? {
        PlaceRowsSpec(o.st, datagridId, rows[1..], pageIds);
      }
    }
  }

  /**
   * What a rebuild guarantees: the registry only grows (by one entry per
   * marker row when nothing is thrown), stays duplicate-free, and the layer
   * of any key that is not one of the rebuilt datagrids is left as it was.
   */
  lemma {:induction false} RebuildSpec(b: Bookkeeping, datagrids: seq<string>, dom: map<string, seq<Row>>, pageIds: set<string>)
    ensures var o := Rebuild(b, datagrids, dom, pageIds);
      && b.markers <= o.st.markers
      && b.created <= o.st.created
      && (o.fault.None? ==> |o.st.markers| == |b.markers| + AllMarkerRows(datagrids, dom))
      && (Distinct(b.markers) ==> Distinct(o.st.markers))
      && (WellFormed(b) ==> WellFormed(o.st))
      && (forall k :: k !in datagrids ==> (k in o.st.layers <==> k in b.layers))
      && (forall k :: k !in datagrids && k in b.layers ==> o.st.layers[k] == b.layers[k])
    decreases |datagrids|
  {
    if datagrids != [] {
      var d := datagrids[0];
      var b1 := RemoveLayerStep(b, d);
      if d in dom {
        PlaceRowsSpec(b1, d, dom[d], pageIds);
        var o := PlaceRows(b1, d, dom[d], pageIds);
        if o.fault.None? {
          RebuildSpec(o.st, datagrids[1..], dom, pageIds);
          assert forall k :: k !in datagrids ==> k !in datagrids[1..] && k != d;
        }
      }
    }
  }

  /** Rebuilding `a + b` is rebuilding `a`, then `b`: datagrids are visited in list order. */
  lemma {:induction false} RebuildAppend(b: Bookkeeping, a: seq<string>, c: seq<string>, dom: map<string, seq<Row>>, pageIds: set<string>)
    ensures Rebuild(b, a + c, dom, pageIds) == Then(Rebuild(b, a, dom, pageIds), c, dom, pageIds)
    decreases |a|
  {
    if a == [] {
      assert a + c == c;
    } else {
      assert (a + c)[0] == a[0] && (a + c)[1..] == a[1..] + c;
      var b1 := RemoveLayerStep(b, a[0]);
      if a[0] in dom {
        var o := PlaceRows(b1, a[0], dom[a[0]], pageIds);
        if o.fault.None? {
          RebuildAppend(o.st, a[1..], c, dom, pageIds);
        }
      }
    }
  }

  /**
   * Rebuilding one datagrid removes its group before placing anything: when
   * nothing is thrown, the datagrid has a group afterwards exactly when one
   * of its rows carries a marker, and that group is a new one.
   */
  lemma RebuildOne(b: Bookkeeping, datagridId: string, dom: map<string, seq<Row>>, pageIds: set<string>)
    requires WellFormed(b)
    ensures var o := Rebuild(b, [datagridId], dom, pageIds);
      o.fault.None? ==>
        && (datagridId in o.st.layers <==> MarkerRows(dom[datagridId]) > 0)
        && (datagridId in o.st.layers ==> o.st.layers[datagridId] !in b.layers.Values)
  {
    var b1 := RemoveLayerStep(b, datagridId);
    if datagridId in dom {
      PlaceRowsSpec(b1, datagridId, dom[datagridId], pageIds);
      var o := PlaceRows(b1, datagridId, dom[datagridId], pageIds);
      assert Rebuild(b, [datagridId], dom, pageIds) == Then(o, [], dom, pageIds);
    }
  }

  /**
   * A coordinate the registry refuses before a rebuild is still refused
   * after it, even when the rebuild removed the layer whose marker held it.
   */
  lemma RefusalSurvivesRebuild(b: Bookkeeping, datagrids: seq<string>, dom: map<string, seq<Row>>, pageIds: set<string>,
                               lat: Coord, lng: Coord)
    requires Scan(b.markers, lat, lng) == Ok(true)
    ensures Scan(Rebuild(b, datagrids, dom, pageIds).st.markers, lat, lng) == Ok(true)
  {
    RebuildSpec(b, datagrids, dom, pageIds);
    var after := Rebuild(b, datagrids, dom, pageIds).st.markers;
    assert after == b.markers + after[|b.markers|..];
    ScanAppend(b.markers, after[|b.markers|..], lat, lng);
  }

  // ---------------------------------------------------------------------
  // setVertex's writes
  // ---------------------------------------------------------------------

  /** The eight assignments of `setVertex(mapId)`, in order, `_zoom` last. */
  function VertexWrites(mapId: string, vp: Viewport): (w: seq<(string, string)>)
    ensures |w| == |VertexSuffixes|
    ensures forall i :: 0 <= i < |w| ==> w[i].0 == mapId + VertexSuffixes[i]
  {
    [(mapId + "_ne_lat", vp.neLat), (mapId + "_ne_lng", vp.neLng),
     (mapId + "_sw_lat", vp.swLat), (mapId + "_sw_lng", vp.swLng),
     (mapId + "_center", vp.center),
     (mapId + "_cnt_lat", vp.cntLat), (mapId + "_cnt_lng", vp.cntLng),
     (mapId + "_zoom", vp.zoom)]
  }

  /**
   * The `setView` centre: a non-empty `_center` field is cut at its commas
   * into comma-free fields that join back into the field's text, losing
   * nothing; otherwise the start coordinates are used as they are.
   */
  function ViewCenterOf(center: Prop<seq<Coord>>): (v: ViewCenter)
    ensures center.FromField? ==>
              && v.SplitField?
              && |v.fields| >= 1
              && Join(v.fields, [',']) == center.text
              && forall i :: 0 <= i < |v.fields| ==> ',' !in v.fields[i]
    ensures center.Fallback? ==> v.StartCoordinates? && v.coords == center.value
  {
    match center
    case FromField(text) =>
      JoinSplit(text, ',');
      SplitField(Split(text, ','))
    case Fallback(coords) => StartCoordinates(coords)
  }

  // ---------------------------------------------------------------------
  // The controller object
  // ---------------------------------------------------------------------

  class LeafletMapBox {
    const containerId: string
    const viewCenter: ViewCenter
    const viewZoom: Prop<Js>
    var datagrids: seq<string>
    var layers: map<string, LayerGroup>
    var markers: seq<Option<Marker>>
    var created: nat

    function Snapshot(): Bookkeeping
      reads this
    {
      Bookkeeping(layers, markers, created)
    }

    predicate Valid()
      reads this
    {
      WellFormed(Snapshot())
    }

    /** The field initialisers and `this.map = mapFactory(...)`. */
    constructor (containerId: string, viewCenter: ViewCenter, viewZoom: Prop<Js>)
      ensures Valid()
      ensures this.containerId == containerId && this.viewCenter == viewCenter && this.viewZoom == viewZoom
      ensures datagrids == [] && layers == map[] && markers == [] && created == 0
    {
      this.containerId := containerId;
      this.viewCenter := viewCenter;
      this.viewZoom := viewZoom;
      datagrids := [];
      layers := map[];
      markers := [];
      created := 0;
    }

    /** Records the ids of the datagrids that name this map, in document order. */
    method AssocDatagridsToMapBox(containerId: string, divs: seq<Div>)
      modifies this
      ensures datagrids == old(datagrids) + MatchingIds(divs, containerId)
      ensures Snapshot() == old(Snapshot())
    {
      var i := 0;
      while i < |divs|
        invariant 0 <= i <= |divs|
        invariant datagrids == old(datagrids) + MatchingIds(divs[..i], containerId)
        invariant Snapshot() == old(Snapshot())
      {
        MatchingIdsAppend(divs[..i], [divs[i]], containerId);
        assert divs[..i + 1] == divs[..i] + [divs[i]];
        if divs[i].mapgrid == Some(containerId) {
          datagrids := datagrids + [divs[i].id];
        }
        i := i + 1;
      }
      assert divs[..i] == divs;
    }

    method GetLayer(key: string) returns (g: LayerGroup)
      requires Valid()
      modifies this
      ensures Valid()
      ensures (Snapshot(), g) == GetLayerStep(old(Snapshot()), key)
      ensures datagrids == old(datagrids)
    {
      if key !in layers {
        layers := layers[key := LayerGroup(created)];
        created := created + 1;
      }
      g := layers[key];
    }

    method RemoveLayer(key: string)
      requires Valid()
      modifies this
      ensures Valid()
      ensures Snapshot() == RemoveLayerStep(old(Snapshot()), key)
      ensures datagrids == old(datagrids)
    {
      if key in layers {
        layers := layers - {key};
      }
    }

    /** The `forEach` over one datagrid's rows. */
    method AddRowMarkers(datagridId: string, rows: seq<Row>, pageIds: set<string>) returns (fault: Option<Fault>)
      requires Valid()
      modifies this
      ensures Valid()
      ensures datagrids == old(datagrids)
      ensures Outcome(Snapshot(), fault) == PlaceRows(old(Snapshot()), datagridId, rows, pageIds)
    {
      var j := 0;
      while j < |rows|
        invariant 0 <= j <= |rows|
        invariant Valid() && datagrids == old(datagrids)
        invariant PlaceRows(old(Snapshot()), datagridId, rows, pageIds)
                  == PlaceRows(Snapshot(), datagridId, rows[j..], pageIds)
      {
        assert rows[j..][0] == rows[j] && rows[j..][1..] == rows[j + 1..];
        match RowMarker(rows[j]) {
          case None =>
          case Some(raw) =>
            var g := GetLayer(datagridId);
            var r := AddMarker(markers, g, raw, pageIds);
            if r.Err? {
              fault := Some(r.fault);
              return;
            }
            markers := markers + [r.value];
        }
        j := j + 1;
      }
      fault := None;
    }

    /**
     * Rebuilds every associated datagrid's markers from its rows. `dom`
     * gives the rows of each datagrid element present on the page and
     * `pageIds` the ids of all elements (for `markerId` links).
     */
    method AddMarkersFromDatagrids(dom: map<string, seq<Row>>, pageIds: set<string>) returns (fault: Option<Fault>)
      requires Valid()
      modifies this
      ensures Valid()
      ensures datagrids == old(datagrids)
      ensures Outcome(Snapshot(), fault) == Rebuild(old(Snapshot()), datagrids, dom, pageIds)
    {
      var i := 0;
      while i < |datagrids|
        invariant 0 <= i <= |datagrids|
        invariant Valid() && datagrids == old(datagrids)
        invariant Rebuild(old(Snapshot()), datagrids, dom, pageIds) == Rebuild(Snapshot(), datagrids[i..], dom, pageIds)
      {
        var datagridId := datagrids[i];
        assert datagrids[i..][0] == datagridId && datagrids[i..][1..] == datagrids[i + 1..];
        RemoveLayer(datagridId);
        if datagridId !in dom {
          fault := Some(TypeError("Cannot read properties of null (reading 'querySelectorAll')"));
          return;
        }
        fault := AddRowMarkers(datagridId, dom[datagridId], pageIds);
        if fault.Some? {
          return;
        }
        i := i + 1;
      }
      fault := None;
    }
  }

  /**
   * The constructor, with its exceptions: a container without the
   * `osy-leaflet-mapbox` class is refused, a missing `data-center` fails on
   * `start.coordinates`, and a missing hidden field fails inside
   * `setVertex`. The start marker goes to the "center" group but is not
   * pushed onto the registry.
   */
  method Create(box: BoxElement, doc: Document, divs: seq<Div>, vp: Viewport, pageIds: set<string>)
    returns (r: Result<LeafletMapBox>)
    modifies doc
    ensures MapBoxClass !in box.classes ==>
              r == Err(ConfigError("Element isn't mapgrid-leaflet element")) && doc.inputs == old(doc.inputs)
    ensures MapBoxClass in box.classes && box.dataCenter.None? ==>
              r.Err? && r.fault.TypeError? && doc.inputs == old(doc.inputs)
    ensures MapBoxClass in box.classes && box.dataCenter.Some? ==>
              var w := ApplyWrites(old(doc.inputs), VertexWrites(box.id, vp));
              && doc.inputs == w.0
              && (r.Err? <==> w.1.Some?)
              && (r.Ok? ==>
                    && fresh(r.value)
                    && r.value.Valid()
                    && r.value.containerId == box.id
                    && r.value.viewCenter == ViewCenterOf(GetMapBoxProperty(old(doc.inputs), box.id, "center",
                                                                            box.dataCenter.value.coordinates))
                    && r.value.viewZoom == GetMapBoxProperty(old(doc.inputs), box.id, "zoom",
                                                             if box.zoomLevel.Some? then box.zoomLevel.value else JNum(10))
                    && r.value.datagrids == MatchingIds(divs, box.id)
                    && r.value.layers.Keys == {"center"}
                    && r.value.markers == [])
  {
    if MapBoxClass !in box.classes {
      return Err(ConfigError("Element isn't mapgrid-leaflet element"));
    }
    var containerId := box.id;
    if box.dataCenter.None? {
      return Err(TypeError("Cannot read properties of null (reading 'coordinates')"));
    }
    var start := box.dataCenter.value;
    var center := GetMapBoxProperty(doc.inputs, containerId, "center", start.coordinates);
    var zoom := GetMapBoxProperty(doc.inputs, containerId, "zoom",
                                  if box.zoomLevel.Some? then box.zoomLevel.value else JNum(10));
    var m := new LeafletMapBox(containerId, ViewCenterOf(center), zoom);
    m.AssocDatagridsToMapBox(containerId, divs);
    var g := m.GetLayer("center");
    // the start marker is placed in the "center" group; its handle is dropped
    ghost var startMarker := AddMarker(m.markers, g, start, pageIds);
    assert startMarker.Ok? && startMarker.value.Some?;
    var fault := doc.WriteFields(VertexWrites(containerId, vp));
    if fault.Some? {
      return Err(fault.value);
    }
    return Ok(m);
  }
}

/**
 * The older `LeafletMapBox` of assets/Ocl/MapLeafletBox/script.js. Here the
 * state lives on the container element itself: `mapBoxFactory` grafts the
 * map and a `datagrids` list onto it, and `addMarker` creates the registry
 * `markerlist` on the element the first time it runs. Markers go straight
 * onto the map (no layer groups), descriptors are comma-separated strings,
 * and the glyph icon is assigned after the raster one, so it wins.
 */
module OclMapLeafletBox {
  import opened JsValues
  import opened Leaflet
  import opened Dom

  /** The class `initAll` selects. */
  const InitClass := "osy-mapgrid-leaflet"

  /** The hidden fields this `setVertex` writes, in order; `_zoom` is not among them. */
  const VertexSuffixes: seq<string> :=
    ["_ne_lat", "_ne_lng", "_sw_lat", "_sw_lng", "_center", "_cnt_lat", "_cnt_lng"]

  /**
   * A `div.row` of a datagrid: its `marker` attribute (None when absent) and
   * the innerHTML of its first child element (None when it has none).
   */
  datatype Row = Row(marker: Option<string>, firstChildHtml: Option<string>)

  /** What the mapping library reports for the current view, rendered as field values. */
  datatype Viewport = Viewport(
    neLat: string, neLng: string, swLat: string, swLng: string,
    center: string, cntLat: string, cntLng: string)

  /** The view `mapBoxFactory` sets: the centre fields and the zoom. */
  datatype View = View(center: seq<string>, zoom: Prop<Js>)

  // ---------------------------------------------------------------------
  // Marker construction and duplicate detection (pure)
  // ---------------------------------------------------------------------

  /**
   * The icon this `addMarker` ends up with: the glyph (red by default)
   * whenever `awesomeIcon` is truthy, even when `iconUrl` is set too; else
   * the raster icon when `iconUrl` is truthy; else the library default.
   */
  function FinalIcon(options: map<string, Js>): (r: Option<Icon>)
    ensures (r.Some? && r.value.DivIcon?) <==> Truthy(Lookup(options, "awesomeIcon"))
    ensures (r.Some? && r.value.RasterIcon?) <==>
              !Truthy(Lookup(options, "awesomeIcon")) && Truthy(Lookup(options, "iconUrl"))
    ensures r.Some? && r.value.DivIcon? ==> r.value == GlyphIcon(options, "red")
    ensures r.Some? && r.value.RasterIcon? ==> r.value == RasterIconFor(options)
  {
    if Truthy(Lookup(options, "awesomeIcon")) then Some(GlyphIcon(options, "red"))
    else if Truthy(Lookup(options, "iconUrl")) then Some(RasterIconFor(options))
    else None
  }

  /**
   * The marker placed on the map: draggable only when that option is
   * truthy, with a popup bound only when `options.popup` is truthy.
   */
  function MarkerFor(lat: Coord, lng: Coord, options: map<string, Js>): (m: Marker)
    ensures At(m, lat, lng) && m.parent == OnMap && m.clickRow.None?
    ensures m.options.icon == FinalIcon(options)
    ensures m.options.draggable <==> Truthy(Lookup(options, "draggable"))
    ensures m.popup.Some? <==> Truthy(Lookup(options, "popup"))
    ensures m.popup.Some? ==> m.popup.value == options["popup"]
  {
    var popup := Lookup(options, "popup");
    Marker(lat, lng, MarkerOptions(FinalIcon(options), Truthy(Lookup(options, "draggable"))),
           OnMap, if Truthy(popup) then Some(popup) else None, None)
  }

  /** `markerlist.some(...)`: some registered marker is at (lat, lng). */
  function Holds(list: seq<Marker>, lat: Coord, lng: Coord): (r: bool)
    ensures r <==> exists i :: 0 <= i < |list| && At(list[i], lat, lng)
    decreases |list|
  {
    if list == [] then false
    else
      assert forall i :: 0 < i < |list| ==> list[i] == list[1..][i - 1];
      At(list[0], lat, lng) || Holds(list[1..], lat, lng)
  }

  /** The registry as `addMarker` sees it after creating it when missing. */
  function ListOf(markerlist: Option<seq<Marker>>): seq<Marker> {
    if markerlist.Some? then markerlist.value else []
  }

  /** `addMarker`'s effect: the marker it returns (None for a duplicate) and the registry afterwards. */
  function Admit(markerlist: Option<seq<Marker>>, lat: Coord, lng: Coord, options: map<string, Js>)
    : (Option<Marker>, seq<Marker>)
  {
    var list := ListOf(markerlist);
    if Holds(list, lat, lng) then (None, list) else (Some(MarkerFor(lat, lng, options)), list + [MarkerFor(lat, lng, options)])
  }

  /** No two registered markers share a coordinate pair. */
  predicate Distinct(list: seq<Marker>) {
    forall i, j :: 0 <= i < j < |list| ==> !At(list[j], list[i].lat, list[i].lng)
  }

  /**
   * A duplicate leaves the registry as it was (created empty if missing); a
   * new coordinate appends exactly one marker, the one returned. Either way
   * the registry stays duplicate-free.
   */
  lemma AdmitSpec(markerlist: Option<seq<Marker>>, lat: Coord, lng: Coord, options: map<string, Js>)
    ensures var (m, list) := Admit(markerlist, lat, lng, options);
      && ((exists i :: 0 <= i < |ListOf(markerlist)| && At(ListOf(markerlist)[i], lat, lng)) ==>
            m.None? && list == ListOf(markerlist))
      && (!(exists i :: 0 <= i < |ListOf(markerlist)| && At(ListOf(markerlist)[i], lat, lng)) ==>
            m.Some? && At(m.value, lat, lng) && list == ListOf(markerlist) + [m.value])
      && (Distinct(ListOf(markerlist)) ==> Distinct(list))
  {
    var old_ := ListOf(markerlist);
    var (m, list) := Admit(markerlist, lat, lng, options);
    if m.Some? && Distinct(old_) {
      forall i, j | 0 <= i < j < |list| ensures !At(list[j], list[i].lat, list[i].lng) {
        if j == |old_| {
          assert !At(old_[i], lat, lng);
        } else {
          assert list[i] == old_[i] && list[j] == old_[j];
        }
      }
    }
  }

  // ---------------------------------------------------------------------
  // Descriptors
  // ---------------------------------------------------------------------

  /**
   * A row's `marker` string split on ',': latitude from field 0, longitude
   * from field 1 and `awesomeIcon` from field 2 (undefined when missing);
   * the popup is the first child's markup. Nothing of a string with up to
   * three fields is lost: its parts join back into it.
   */
  function RowDescriptor(marker: string, popup: string): (d: (Coord, Coord, map<string, Js>))
    ensures d.2.Keys == {"awesomeIcon", "popup"} && d.2["popup"] == JStr(popup)
    ensures d.0.CStr? && ',' !in d.0.s
    ensures var n := |Split(marker, ',')|;
      && (n == 1 ==> d.0 == CStr(marker) && d.1 == CUndefined && d.2["awesomeIcon"] == JUndefined)
      && (n >= 2 ==> d.1.CStr? && ',' !in d.1.s)
      && (n == 2 ==> d.2["awesomeIcon"] == JUndefined && Join([d.0.s, d.1.s], ",") == marker)
      && (n >= 3 ==> d.2["awesomeIcon"].JStr? && ',' !in d.2["awesomeIcon"].s)
      && (n == 3 ==> Join([d.0.s, d.1.s, d.2["awesomeIcon"].s], ",") == marker)
      && (n > 3 ==> var p := Join([d.0.s, d.1.s, d.2["awesomeIcon"].s], ",");
                    p < marker && marker[|p|] == ',')
  {
    var dat := Split(marker, ',');
    JoinFields(marker);
    (CStr(dat[0]), if |dat| > 1 then CStr(dat[1]) else CUndefined,
     map["awesomeIcon" := if |dat| > 2 then JStr(dat[2]) else JUndefined, "popup" := JStr(popup)])
  }

  /** A string of one, two or three comma-separated fields is the join of those fields. */
  lemma JoinFields(s: string)
    ensures var f := Split(s, ',');
      && (|f| == 1 ==> f[0] == s)
      && (|f| == 2 ==> Join([f[0], f[1]], ",") == s)
      && (|f| == 3 ==> Join([f[0], f[1], f[2]], ",") == s)
      && (|f| > 3 ==> var p := Join([f[0], f[1], f[2]], ","); p < s && s[|p|] == ',')
  {
    var f := Split(s, ',');
    JoinSplit(s, ',');
    if |f| == 2 {
      assert f == [f[0], f[1]];
    } else if |f| == 3 {
      assert f == [f[0], f[1], f[2]];
    } else if |f| > 3 {
      var p := Join([f[0], f[1], f[2]], ",");
      assert [f[0], f[1], f[2]][1..] == [f[1], f[2]] && [f[1], f[2]][1..] == [f[2]];
      assert Join([f[1], f[2]], ",") == f[1] + "," + Join([f[2]], ",");
      assert p == f[0] + "," + (f[1] + "," + f[2]);
      assert f[1..][1..] == f[2..] && f[2..][1..] == f[3..];
      assert Join(f, ",") == f[0] + "," + Join(f[1..], ",");
      assert Join(f[1..], ",") == f[1] + "," + Join(f[2..], ",");
      assert Join(f[2..], ",") == f[2] + "," + Join(f[3..], ",");
      assert s == p + "," + Join(f[3..], ",");
    }
  }

  /** A "lat,lng,icon" string gives back its three parts. */
  lemma RowDescriptorRoundTrip(lat: string, lng: string, icon: string, popup: string)
    requires ',' !in lat && ',' !in lng && ',' !in icon
    ensures RowDescriptor(Join([lat, lng, icon], ","), popup)
            == (CStr(lat), CStr(lng), map["awesomeIcon" := JStr(icon), "popup" := JStr(popup)])
  {
    SplitJoin([lat, lng, icon], ',');
  }

  /** A "lat,lng" string carries no icon, so its marker gets the library's default icon. */
  lemma TwoFieldRowHasDefaultIcon(lat: string, lng: string, popup: string)
    requires ',' !in lat && ',' !in lng
    ensures var d := RowDescriptor(Join([lat, lng], ","), popup);
      d.0 == CStr(lat) && d.1 == CStr(lng) && FinalIcon(d.2).None?
  {
    SplitJoin([lat, lng], ',');
  }

  /**
   * The start marker of `initMapBox`: `coostart` split on ','; its icon
   * goes under the key `awesoneIcon`, which no icon branch reads, so the
   * start marker always shows the library's default icon. A missing
   * `coostart` fails on `split`. The coordinates and icon of a `coostart`
   * with up to three fields join back into it.
   */
  function StartMarker(coostart: Option<string>): (r: Result<(Coord, Coord, map<string, Js>)>)
    ensures coostart.None? <==> r.Err?
    ensures r.Ok? ==> r.value.2.Keys == {"awesoneIcon"} && FinalIcon(r.value.2).None?
    ensures r.Ok? ==>
      var n := |Split(coostart.value, ',')|;
      && r.value.0.CStr? && ',' !in r.value.0.s
      && (n == 1 ==> r.value.0 == CStr(coostart.value) && r.value.1 == CUndefined)
      && (n >= 2 ==> r.value.1.CStr? && ',' !in r.value.1.s)
      && (n < 3 ==> r.value.2["awesoneIcon"] == JStr("map-marker"))
      && (n == 2 ==> Join([r.value.0.s, r.value.1.s], ",") == coostart.value)
      && (n >= 3 ==> r.value.2["awesoneIcon"].JStr? && ',' !in r.value.2["awesoneIcon"].s)
      && (n == 3 ==> Join([r.value.0.s, r.value.1.s, r.value.2["awesoneIcon"].s], ",") == coostart.value)
      && (n > 3 ==> var p := Join([r.value.0.s, r.value.1.s, r.value.2["awesoneIcon"].s], ",");
                    p < coostart.value && coostart.value[|p|] == ',')
  {
    match coostart
    case None => Err(TypeError("Cannot read properties of null (reading 'split')"))
    case Some(s) =>
      var start := Split(s, ',');
      JoinFields(s);
      var opts := map["awesoneIcon" := if |start| > 2 then JStr(start[2]) else JStr("map-marker")];
      assert "awesomeIcon" !in opts by { assert "awesomeIcon"[5] != "awesoneIcon"[5]; }
      assert "iconUrl" !in opts;
      Ok((CStr(start[0]), if |start| > 1 then CStr(start[1]) else CUndefined, opts))
  }

  // ---------------------------------------------------------------------
  // addMarkersFromDatagrids, as a specification
  // ---------------------------------------------------------------------

  /** The registry after a step, and the exception that stopped it, if any. */
  datatype Outcome = Outcome(markerlist: Option<seq<Marker>>, fault: Option<Fault>)

  /**
   * The rows in order. Each row's first child is read before its `marker`
   * attribute is tested, so a row without children throws; rows whose
   * attribute is absent or empty are otherwise skipped.
   */
  function PlaceRows(markerlist: Option<seq<Marker>>, rows: seq<Row>): Outcome
    decreases |rows|
  {
    if rows == [] then Outcome(markerlist, None)
    else if rows[0].firstChildHtml.None? then
      Outcome(markerlist, Some(TypeError("Cannot read properties of null (reading 'innerHTML')")))
    else if rows[0].marker.None? || rows[0].marker.value == "" then PlaceRows(markerlist, rows[1..])
    else
      var (lat, lng, options) := RowDescriptor(rows[0].marker.value, rows[0].firstChildHtml.value);
      PlaceRows(Some(Admit(markerlist, lat, lng, options).1), rows[1..])
  }

  /** The datagrids in order; a datagrid missing from the page throws. No layer is removed. */
  function Rebuild(markerlist: Option<seq<Marker>>, datagrids: seq<string>, dom: map<string, seq<Row>>): Outcome
    decreases |datagrids|
  {
    if datagrids == [] then Outcome(markerlist, None)
    else if datagrids[0] !in dom then
      Outcome(markerlist, Some(TypeError("Cannot read properties of null (reading 'querySelectorAll')")))
    else
      var o := PlaceRows(markerlist, dom[datagrids[0]]);
      if o.fault.Some? then o else Rebuild(o.markerlist, datagrids[1..], dom)
  }

  /** Rows that carry a non-empty `marker` attribute. */
  function MarkerRows(rows: seq<Row>): nat
    decreases |rows|
  {
    if rows == [] then 0
    else (if rows[0].marker.Some? && rows[0].marker.value != "" then 1 else 0) + MarkerRows(rows[1..])
  }

  /**
   * Placing rows only appends to the registry, at most one marker per
   * marker row, keeps it duplicate-free, and never discards an existing
   * registry.
   */
  lemma {:induction false} PlaceRowsSpec(markerlist: Option<seq<Marker>>, rows: seq<Row>)
    ensures var o := PlaceRows(markerlist, rows);
      && ListOf(markerlist) <= ListOf(o.markerlist)
      && |ListOf(o.markerlist)| <= |ListOf(markerlist)| + MarkerRows(rows)
      && (markerlist.Some? ==> o.markerlist.Some?)
      && (MarkerRows(rows) == 0 ==> o.markerlist == markerlist)
      && (Distinct(ListOf(markerlist)) ==> Distinct(ListOf(o.markerlist)))
    decreases |rows|
  {
    if rows != [] && rows[0].firstChildHtml.Some? {
      if rows[0].marker.None? || rows[0].marker.value == "" {
        PlaceRowsSpec(markerlist, rows[1..]);
      } else {
        var (lat, lng, options) := RowDescriptor(rows[0].marker.value, rows[0].firstChildHtml.value);
        AdmitSpec(markerlist, lat, lng, options);
        PlaceRowsSpec(Some(Admit(markerlist, lat, lng, options).1), rows[1..]);
      }
    }
  }

  /** The same guarantees over all the datagrids. */
  lemma {:induction false} RebuildSpec(markerlist: Option<seq<Marker>>, datagrids: seq<string>, dom: map<string, seq<Row>>)
    ensures var o := Rebuild(markerlist, datagrids, dom);
      && ListOf(markerlist) <= ListOf(o.markerlist)
      && (markerlist.Some? ==> o.markerlist.Some?)
      && (Distinct(ListOf(markerlist)) ==> Distinct(ListOf(o.markerlist)))
    decreases |datagrids|
  {
    if datagrids != [] && datagrids[0] in dom {
      PlaceRowsSpec(markerlist, dom[datagrids[0]]);
      var o := PlaceRows(markerlist, dom[datagrids[0]]);
      if o.fault.None? {
        RebuildSpec(o.markerlist, datagrids[1..], dom);
      }
    }
  }

  // ---------------------------------------------------------------------
  // setVertex's writes
  // ---------------------------------------------------------------------

  /** The seven assignments of `setVertex`, in order. */
  function VertexWrites(mapId: string, vp: Viewport): (w: seq<(string, string)>)
    ensures |w| == |VertexSuffixes|
    ensures forall i :: 0 <= i < |w| ==> w[i].0 == mapId + VertexSuffixes[i]
  {
    [(mapId + "_ne_lat", vp.neLat), (mapId + "_ne_lng", vp.neLng),
     (mapId + "_sw_lat", vp.swLat), (mapId + "_sw_lng", vp.swLng),
     (mapId + "_center", vp.center),
     (mapId + "_cnt_lat", vp.cntLat), (mapId + "_cnt_lng", vp.cntLng)]
  }

  /** `setVertex` leaves the `_zoom` field as it was, whatever the map id. */
  lemma SetVertexKeepsZoom(inputs: map<string, string>, mapId: string, vp: Viewport)
    requires mapId + "_zoom" in inputs
    ensures ApplyWrites(inputs, VertexWrites(mapId, vp)).0[mapId + "_zoom"] == inputs[mapId + "_zoom"]
  {
    var w := VertexWrites(mapId, vp);
    forall i | 0 <= i < |w| ensures w[i].0 != mapId + "_zoom" {
      assert (mapId + VertexSuffixes[i])[|mapId|..] == VertexSuffixes[i];
      assert (mapId + "_zoom")[|mapId|..] == "_zoom";
    }
  }

  // ---------------------------------------------------------------------
  // The container element with the fields grafted onto it
  // ---------------------------------------------------------------------

  class MapBoxElement {
    const id: string
    /** The `coostart` attribute, if present. */
    const coostart: Option<string>
    /** The attribute read as `dataDrawPlugin` (HTML attribute names are case-insensitive). */
    const dataDrawPlugin: Option<string>
    var view: Option<View>
    var datagrids: seq<string>
    var markerlist: Option<seq<Marker>>
    var drawEnabled: bool

    /** The element as the page delivers it: nothing grafted yet. */
    constructor (id: string, coostart: Option<string>, dataDrawPlugin: Option<string>)
      ensures this.id == id && this.coostart == coostart && this.dataDrawPlugin == dataDrawPlugin
      ensures view.None? && datagrids == [] && markerlist.None? && !drawEnabled
    {
      this.id := id;
      this.coostart := coostart;
      this.dataDrawPlugin := dataDrawPlugin;
      view := None;
      datagrids := [];
      markerlist := None;
      drawEnabled := false;
    }

    /**
     * Creates `markerlist` when missing, refuses a coordinate already in it,
     * and otherwise builds the marker options by successive assignments
     * (raster icon, then glyph icon over it, then `draggable`) and appends
     * the marker.
     */
    method AddMarker(lat: Coord, lng: Coord, options: map<string, Js>) returns (m: Option<Marker>)
      modifies this
      ensures (m, markerlist) == (Admit(old(markerlist), lat, lng, options).0,
                                  Some(Admit(old(markerlist), lat, lng, options).1))
      ensures view == old(view) && datagrids == old(datagrids) && drawEnabled == old(drawEnabled)
    {
      if markerlist.None? {
        markerlist := Some([]);
      }
      if Holds(markerlist.value, lat, lng) {
        return None;
      }
      var icon: Option<Icon> := None;
      if Truthy(Lookup(options, "iconUrl")) {
        icon := Some(RasterIconFor(options));
      }
      if Truthy(Lookup(options, "awesomeIcon")) {
        icon := Some(GlyphIcon(options, "red"));
      }
      var draggable := false;
      if Truthy(Lookup(options, "draggable")) {
        draggable := true;
      }
      var popup: Option<Js> := None;
      if Truthy(Lookup(options, "popup")) {
        popup := Some(Lookup(options, "popup"));
      }
      var marker := Marker(lat, lng, MarkerOptions(icon, draggable), OnMap, popup, None);
      markerlist := Some(markerlist.value + [marker]);
      m := Some(marker);
    }

    /** Appends the ids of the datagrids that name this element, in document order. */
    method AssocDatagridsToMapBox(divs: seq<Div>)
      modifies this
      ensures datagrids == old(datagrids) + MatchingIds(divs, id)
      ensures view == old(view) && markerlist == old(markerlist) && drawEnabled == old(drawEnabled)
    {
      var i := 0;
      while i < |divs|
        invariant 0 <= i <= |divs|
        invariant datagrids == old(datagrids) + MatchingIds(divs[..i], id)
        invariant view == old(view) && markerlist == old(markerlist) && drawEnabled == old(drawEnabled)
      {
        MatchingIdsAppend(divs[..i], [divs[i]], id);
        assert divs[..i + 1] == divs[..i] + [divs[i]];
        if divs[i].mapgrid == Some(id) {
          datagrids := datagrids + [divs[i].id];
        }
        i := i + 1;
      }
      assert divs[..i] == divs;
    }

    /** The `forEach` over one datagrid's rows. */
    method AddRowMarkers(rows: seq<Row>) returns (fault: Option<Fault>)
      modifies this
      ensures Outcome(markerlist, fault) == PlaceRows(old(markerlist), rows)
      ensures view == old(view) && datagrids == old(datagrids) && drawEnabled == old(drawEnabled)
    {
      var j := 0;
      while j < |rows|
        invariant 0 <= j <= |rows|
        invariant PlaceRows(old(markerlist), rows) == PlaceRows(markerlist, rows[j..])
        invariant view == old(view) && datagrids == old(datagrids) && drawEnabled == old(drawEnabled)
      {
        assert rows[j..][0] == rows[j] && rows[j..][1..] == rows[j + 1..];
        var mrk := rows[j].marker;
        if rows[j].firstChildHtml.None? {
          fault := Some(TypeError("Cannot read properties of null (reading 'innerHTML')"));
          return;
        }
        var popup := rows[j].firstChildHtml.value;
        if mrk.Some? && mrk.value != "" {
          var dat := Split(mrk.value, ',');
          var lat := CStr(dat[0]);
          var lng := if |dat| > 1 then CStr(dat[1]) else CUndefined;
          var icon := if |dat| > 2 then JStr(dat[2]) else JUndefined;
          var _ := AddMarker(lat, lng, map["awesomeIcon" := icon, "popup" := JStr(popup)]);
        }
        j := j + 1;
      }
      fault := None;
    }

    /** Places the markers of every associated datagrid, in order. */
    method AddMarkersFromDatagrids(dom: map<string, seq<Row>>) returns (fault: Option<Fault>)
      modifies this
      ensures Outcome(markerlist, fault) == Rebuild(old(markerlist), datagrids, dom)
      ensures view == old(view) && datagrids == old(datagrids) && drawEnabled == old(drawEnabled)
    {
      var i := 0;
      while i < |datagrids|
        invariant 0 <= i <= |datagrids|
        invariant Rebuild(old(markerlist), datagrids, dom) == Rebuild(markerlist, datagrids[i..], dom)
        invariant view == old(view) && datagrids == old(datagrids) && drawEnabled == old(drawEnabled)
      {
        assert datagrids[i..][0] == datagrids[i] && datagrids[i..][1..] == datagrids[i + 1..];
        if datagrids[i] !in dom {
          fault := Some(TypeError("Cannot read properties of null (reading 'querySelectorAll')"));
          return;
        }
        fault := AddRowMarkers(dom[datagrids[i]]);
        if fault.Some? {
          return;
        }
        i := i + 1;
      }
      fault := None;
    }

    /** Writes the seven viewport fields of this element's map. */
    method SetVertex(doc: Document, vp: Viewport) returns (fault: Option<Fault>)
      modifies doc
      ensures (doc.inputs, fault) == ApplyWrites(old(doc.inputs), VertexWrites(id, vp))
    {
      fault := doc.WriteFields(VertexWrites(id, vp));
    }

    /**
     * `mapBoxFactory` and the association step: the view centred on the
     * `_center` field (else `coostart`) at the `_zoom` field (else 10), and
     * the datagrid list started afresh.
     */
    method SetUpView(inputs: map<string, string>, divs: seq<Div>, coostart: string)
      modifies this
      ensures var center := GetMapBoxProperty(inputs, id, "center", coostart);
              view == Some(View(Split(if center.FromField? then center.text else center.value, ','),
                                GetMapBoxProperty(inputs, id, "zoom", JNum(10))))
      ensures datagrids == MatchingIds(divs, id)
      ensures markerlist == old(markerlist) && drawEnabled == old(drawEnabled)
    {
      var center := GetMapBoxProperty(inputs, id, "center", coostart);
      var mapCenter := Split(if center.FromField? then center.text else center.value, ',');
      var zoomLevel := GetMapBoxProperty(inputs, id, "zoom", JNum(10));
      view := Some(View(mapCenter, zoomLevel));
      datagrids := [];
      AssocDatagridsToMapBox(divs);
    }

    /**
     * `initMapBox`: reads `coostart` (throwing when it is missing), sets up
     * the view, associates the datagrids, writes the viewport fields,
     * enables drawing when the attribute is non-empty, and finally places
     * the start marker.
     */
    method InitMapBox(doc: Document, divs: seq<Div>, vp: Viewport) returns (fault: Option<Fault>)
      modifies this, doc
      ensures coostart.None? ==>
                fault.Some? && fault.value.TypeError? && doc.inputs == old(doc.inputs)
                && view == old(view) && datagrids == old(datagrids) && markerlist == old(markerlist)
                && drawEnabled == old(drawEnabled)
      ensures coostart.Some? ==>
                var center := GetMapBoxProperty(old(doc.inputs), id, "center", coostart.value);
                && view == Some(View(Split(if center.FromField? then center.text else center.value, ','),
                                     GetMapBoxProperty(old(doc.inputs), id, "zoom", JNum(10))))
                && datagrids == MatchingIds(divs, id)
      ensures coostart.Some? ==>
                var w := ApplyWrites(old(doc.inputs), VertexWrites(id, vp));
                && doc.inputs == w.0
                && (w.1.Some? ==> fault == w.1 && markerlist == old(markerlist) && drawEnabled == old(drawEnabled))
                && (w.1.None? ==>
                      && fault.None?
                      && drawEnabled == (old(drawEnabled) || (dataDrawPlugin.Some? && dataDrawPlugin.value != ""))
                      && var start := StartMarker(coostart).value;
                         markerlist == Some(Admit(old(markerlist), start.0, start.1, start.2).1))
    {
      if coostart.None? {
        return Some(TypeError("Cannot read properties of null (reading 'split')"));
      }
      SetUpView(doc.inputs, divs, coostart.value);
      fault := Finish(doc, vp, StartMarker(coostart).value);
    }

    /**
     * The rest of `initMapBox` once the view is set up: the viewport fields,
     * then (unless that threw) the draw control and the start marker.
     */
    method Finish(doc: Document, vp: Viewport, start: (Coord, Coord, map<string, Js>)) returns (fault: Option<Fault>)
      modifies this, doc
      ensures var w := ApplyWrites(old(doc.inputs), VertexWrites(id, vp));
              && (doc.inputs, fault) == w
              && view == old(view) && datagrids == old(datagrids)
              && (w.1.Some? ==> markerlist == old(markerlist) && drawEnabled == old(drawEnabled))
              && (w.1.None? ==>
                    && drawEnabled == (old(drawEnabled) || (dataDrawPlugin.Some? && dataDrawPlugin.value != ""))
                    && markerlist == Some(Admit(old(markerlist), start.0, start.1, start.2).1))
    {
      fault := SetVertex(doc, vp);
      if fault.Some? {
        return;
      }
      if dataDrawPlugin.Some? && dataDrawPlugin.value != "" {
        drawEnabled := true;
      }
      var _ := AddMarker(start.0, start.1, start.2);
    }
  }
}

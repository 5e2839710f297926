/**
 * How the PHP component's markup meets the two scripts. The component
 * renders a container with class "osy-mapgrid osy-mapgrid-leaflet", a
 * JSON `data-center`, an optional `zoomLevel` attribute and eight hidden
 * inputs; these lemmas state what each script makes of that page.
 */
module MapBoxIntegration {
  import opened JsValues
  import opened Leaflet
  import opened Dom
  import ML = MapLeaflet
  import Ocl = OclMapLeafletBox
  import Php = MapBoxComponent

  /**
   * The container the newer script is handed for a rendered component:
   * its `data-center` is the centre record after a JSON round trip (the
   * coordinates stay strings) and `zoomLevel` is present once set. It
   * carries the older script's class but not the newer one's.
   */
  function BoxFor(id: string, c: Php.Center, zoomLevel: Option<Js>): (box: ML.BoxElement)
    ensures box.id == id
    ensures ML.MapBoxClass !in box.classes && Ocl.InitClass in box.classes
    ensures box.dataCenter.Some?
    ensures CoordAt(box.dataCenter.value.coordinates, 0) == CStr(c.lat)
            && CoordAt(box.dataCenter.value.coordinates, 1) == CStr(c.lng)
    ensures box.dataCenter.value.options == c.options && box.dataCenter.value.popup == c.popup
  {
    ML.BoxElement(id, Php.MapClasses, Some(ML.RawMarker([CStr(c.lat), CStr(c.lng)], c.options, c.popup)), zoomLevel)
  }

  /**
   * The component's class list lacks `osy-leaflet-mapbox`, the class the
   * newer `initAll` selects and its constructor insists on: that script
   * never picks the container up, and constructing it directly throws the
   * configuration error. The older script's `initAll` selector does match.
   */
  lemma NewScriptRejectsPhpMarkup()
    ensures ML.MapBoxClass !in Php.MapClasses
    ensures Ocl.InitClass in Php.MapClasses
  {
  }

  /**
   * The newer script's constructor run on the component's container:
   * refused with the configuration error before any field is written.
   */
  method NewScriptOnPhpMarkup(id: string, c: Php.Center, zoomLevel: Option<Js>, doc: Document,
                              divs: seq<Div>, vp: ML.Viewport, pageIds: set<string>)
    returns (r: Result<ML.LeafletMapBox>)
    modifies doc
    ensures r == Err(ConfigError("Element isn't mapgrid-leaflet element"))
    ensures doc.inputs == old(doc.inputs)
  {
    r := ML.Create(BoxFor(id, c, zoomLevel), doc, divs, vp, pageIds);
  }

  /** Where each field the newer `setVertex` writes sits among the component's hidden inputs. */
  function HiddenSlot(i: nat): (k: nat)
    requires i < |ML.VertexSuffixes|
    ensures k < |Php.HiddenSuffixes| && Php.HiddenSuffixes[k] == ML.VertexSuffixes[i]
  {
    [0, 1, 2, 3, 6, 4, 5, 7][i]
  }

  /**
   * The hidden inputs the component renders are exactly the fields the
   * newer `setVertex` writes; the older `setVertex` writes all of them but
   * `_zoom`.
   */
  lemma HiddenInputsMatchVertexFields()
    ensures forall s :: s in Php.HiddenSuffixes <==> s in ML.VertexSuffixes
    ensures forall s :: s in Ocl.VertexSuffixes <==> s in Php.HiddenSuffixes && s != "_zoom"
  {
  }

  /**
   * On a page where the component's hidden inputs exist, neither script's
   * `setVertex` can fail on a missing input.
   */
  lemma VertexWritesSucceedOnPhpPage(inputs: map<string, string>, name: string,
                                     vp: ML.Viewport, oldVp: Ocl.Viewport)
    requires forall id :: id in Php.HiddenIds(name) ==> id in inputs
    ensures ApplyWrites(inputs, ML.VertexWrites(name, vp)).1.None?
    ensures ApplyWrites(inputs, Ocl.VertexWrites(name, oldVp)).1.None?
  {
    var ids := Php.HiddenIds(name);
    var w := ML.VertexWrites(name, vp);
    forall i | 0 <= i < |w| ensures w[i].0 in inputs {
      assert ids[HiddenSlot(i)] == w[i].0;
    }
    var v := Ocl.VertexWrites(name, oldVp);
    forall i | 0 <= i < |v| ensures v[i].0 in inputs {
      assert Ocl.VertexSuffixes[i] == ML.VertexSuffixes[i];
      assert ids[HiddenSlot(i)] == v[i].0;
    }
  }

  /**
   * The default centre spells its icon key `awsomeIcon`, so the newer
   * script places it with the library's default pin and binds no popup.
   */
  lemma DefaultCenterShowsDefaultPin(layer: LayerGroup, pageIds: set<string>)
    ensures ML.ResolveIcon(Php.DefaultCenter.options).None?
    ensures var m := ML.NewMarker(BoxFor("", Php.DefaultCenter, None).dataCenter.value, layer, pageIds);
            m.options.icon.None? && m.popup.None?
  {
    var opts := Php.DefaultCenter.options;
    assert "awesomeIcon" !in opts by { assert "awesomeIcon"[3] != "awsomeIcon"[3]; }
    assert "iconUrl" !in opts;
  }

  /**
   * A centre set with `setCenter`'s defaults is drawn by the newer script
   * as a blue `map-marker` glyph of size `fa-3x`.
   */
  lemma SetCenterDefaultsGiveBlueGlyph()
    ensures var opts := Php.IconOptions(Php.DefaultGlyph, Php.DefaultIconColor, Php.DefaultIconSize);
            && ML.ResolveIcon(opts).Some?
            && ML.ResolveIcon(opts).value.DivIcon?
            && ML.ResolveIcon(opts).value.html == GlyphHtml(Php.DefaultGlyph, Php.DefaultIconSize, Php.DefaultIconColor)
  {
  }

  /**
   * The component never sets `coostart` (nor the attribute the older script
   * reads as `dataDrawPlugin`), so the older `initMapBox` throws on its
   * markup before placing anything and never enables drawing.
   */
  lemma OldScriptFindsNoStart(m: Php.MapBox)
    requires m.Valid()
    ensures "coostart" !in m.mapAttrs && "datadrawplugin" !in m.mapAttrs
  {
  }

  /** An attribute as the page shows it: absent, or its rendered text. */
  function RenderedAttr(rendered: map<string, string>, name: string): (v: Option<string>)
    ensures v.Some? <==> name in rendered
  {
    if name in rendered then Some(rendered[name]) else None
  }

  /**
   * The older script run on the component's container: `rendered` holds the
   * text of each attribute the component set (how each value is encoded is
   * left open; only which attributes exist matters). `initMapBox` throws,
   * writes no field, places no marker and leaves drawing off.
   */
  method OldScriptOnPhpMarkup(m: Php.MapBox, rendered: map<string, string>,
                              doc: Document, divs: seq<Div>, vp: Ocl.Viewport)
    returns (e: Ocl.MapBoxElement, fault: Option<Fault>)
    requires m.Valid() && rendered.Keys == m.mapAttrs.Keys
    modifies doc
    ensures fresh(e) && e.id == m.id && e.coostart.None? && e.dataDrawPlugin.None?
    ensures fault.Some? && fault.value.TypeError?
    ensures doc.inputs == old(doc.inputs)
    ensures e.view.None? && e.datagrids == [] && e.markerlist.None? && !e.drawEnabled
  {
    OldScriptFindsNoStart(m);
    e := new Ocl.MapBoxElement(m.id, RenderedAttr(rendered, "coostart"), RenderedAttr(rendered, "datadrawplugin"));
    fault := e.InitMapBox(doc, divs, vp);
  }

  /**
   * When the request carried no `_center`, the hidden input shows the seeded
   * value, and both scripts centre the view on the component's two
   * coordinates (given they contain no comma).
   */
  lemma SeededCenterReachesScripts(params: map<string, string>, inputs: map<string, string>,
                                   name: string, c: Php.Center, start: seq<Coord>, coostart: string)
    requires ',' !in c.lat && ',' !in c.lng
    requires Php.PhpEmpty(params, name + "_center")
    requires name + "_center" in inputs
    requires inputs[name + "_center"] == Php.SeedCenter(params, name + "_center", c)[name + "_center"]
    ensures ML.ViewCenterOf(GetMapBoxProperty(inputs, name, "center", start)) == ML.SplitField([c.lat, c.lng])
    ensures var p := GetMapBoxProperty(inputs, name, "center", coostart);
            p.FromField? && Split(p.text, ',') == [c.lat, c.lng]
  {
    Php.SeedCenterRoundTrip(params, name + "_center", c);
    assert name + "_" + "center" == name + "_center";
  }
}

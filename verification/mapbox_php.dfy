/**
 * The server side of the map: the `MapBox` component of src/MapBox.php. It
 * renders a container `div` carrying the map's settings as attributes and
 * eight hidden inputs for the viewport the scripts report back, and on
 * `preBuild` seeds the request's `_center` value from the configured centre.
 */
module MapBoxComponent {
  import opened JsValues

  /** The classes of the map container (its class attribute is "osy-mapgrid osy-mapgrid-leaflet"). */
  const MapClasses: seq<string> := ["osy-mapgrid", "osy-mapgrid-leaflet"]

  /** The inline style of the map container. */
  const MapStyle := "width: 100%; min-height: 600px;"

  /** The hidden inputs the constructor adds after the map, in order. */
  const HiddenSuffixes: seq<string> :=
    ["_ne_lat", "_ne_lng", "_sw_lat", "_sw_lng", "_cnt_lat", "_cnt_lng", "_center", "_zoom"]

  /** The attribute names this component ever sets on the map container. */
  const KnownAttributes: set<string> :=
    {"style", "data-draw-plugin", "data-routing-plugin", "zoomLevel", "data-center", "data-datagrid-parent"}

  /**
   * The `center` record: two coordinates, an option bag for the marker icon
   * and a popup (PHP `false` when none was given).
   */
  datatype Center = Center(lat: string, lng: string, options: map<string, Js>, popup: Js)

  /**
   * The centre a new component starts with (Rome). Its icon option is
   * spelled `awsomeIcon`.
   */
  const DefaultCenter: Center :=
    Center("41.9002300", "12.4922260",
           map["awsomeIcon" := JStr("map-marker"), "iconSize" := JStr("fa-3x"), "iconColor" := JStr("blue")],
           JStr(""))

  /** `setCenter`'s default glyph, colour and size. */
  const DefaultGlyph: Js := JStr("map-marker")
  const DefaultIconColor: Js := JStr("blue")
  const DefaultIconSize: Js := JStr("fa-3x")

  /** The option bag `setCenter` stores: the glyph under `awesomeIcon`, its size and colour. */
  function IconOptions(awesomeIcon: Js, iconColor: Js, iconSize: Js): (opts: map<string, Js>)
    ensures opts.Keys == {"awesomeIcon", "iconSize", "iconColor"}
    ensures opts["awesomeIcon"] == awesomeIcon && opts["iconSize"] == iconSize && opts["iconColor"] == iconColor
  {
    map["awesomeIcon" := awesomeIcon, "iconSize" := iconSize, "iconColor" := iconColor]
  }

  /** An entry of the datagrid-parent list: a CSS id selector and whether moves refresh it. */
  datatype GridParent = GridParent(selector: string, refresh: bool)

  /** An attribute value of the map container, before JSON encoding. */
  datatype Attr =
    | Flag(on: bool)
    | Text(text: string)
    | Level(level: Js)
    | CenterJson(center: Center)
    | ParentsJson(parents: seq<GridParent>)

  /** The ids of the hidden inputs for a component named `name`. */
  function HiddenIds(name: string): (ids: seq<string>)
    ensures |ids| == |HiddenSuffixes|
    ensures forall i :: 0 <= i < |ids| ==> ids[i] == name + HiddenSuffixes[i]
  {
    seq(|HiddenSuffixes|, i requires 0 <= i < |HiddenSuffixes| => name + HiddenSuffixes[i])
  }

  /** PHP `empty($a[$key])` on a request of strings: unset, "" or "0". */
  predicate PhpEmpty(params: map<string, string>, key: string) {
    key !in params || params[key] == "" || params[key] == "0"
  }

  /** `implode(',', coordinates)` of a centre. */
  function CenterText(c: Center): string {
    Join([c.lat, c.lng], ",")
  }

  /**
   * The `_center` step of `preBuild`: when the request value is PHP-empty
   * it becomes the centre's coordinates joined with ','; otherwise the
   * request is left alone.
   */
  function SeedCenter(params: map<string, string>, key: string, c: Center): (r: map<string, string>)
    ensures key in r && !PhpEmpty(r, key)
    ensures PhpEmpty(params, key) ==> r == params[key := CenterText(c)]
    ensures !PhpEmpty(params, key) ==> r == params
  {
    var text := CenterText(c);
    assert [c.lat, c.lng][1..] == [c.lng];
    assert Join([c.lng], ",") == c.lng;
    assert text == c.lat + "," + c.lng;
    assert text[|c.lat|] == ',';
    if PhpEmpty(params, key) then params[key := text] else params
  }

  /** Seeding twice is seeding once. */
  lemma SeedCenterIdempotent(params: map<string, string>, key: string, c: Center)
    ensures SeedCenter(SeedCenter(params, key, c), key, c) == SeedCenter(params, key, c)
  {
  }

  /**
   * When the centre's coordinates contain no comma, a seeded `_center`
   * value splits back into exactly those two coordinates; a non-empty
   * value the request already carried is what the scripts will read.
   */
  lemma {:induction false} SeedCenterRoundTrip(params: map<string, string>, key: string, c: Center)
    requires ',' !in c.lat && ',' !in c.lng
    ensures PhpEmpty(params, key) ==> Split(SeedCenter(params, key, c)[key], ',') == [c.lat, c.lng]
    ensures !PhpEmpty(params, key) ==> SeedCenter(params, key, c)[key] == params[key]
  {
    SplitJoin([c.lat, c.lng], ',');
  }

  /** `$_REQUEST`, the request parameters `preBuild` reads and writes. */
  class Request {
    var params: map<string, string>

    constructor (params: map<string, string>)
      ensures this.params == params
    {
      this.params := params;
    }
  }

  class MapBox {
    /** The component id, which is also the id of the map container. */
    const id: string
    /** The ids of the hidden inputs added after the map. */
    const hiddenInputs: seq<string>
    var center: Center
    var dataGridParent: seq<GridParent>
    /** The attributes of the map container other than its id and class. */
    var mapAttrs: map<string, Attr>

    /** The container carries its style and only attributes this component knows. */
    predicate Valid()
      reads this
    {
      mapAttrs.Keys <= KnownAttributes && "style" in mapAttrs && mapAttrs["style"] == Text(MapStyle)
    }

    /**
     * The container `div` (classes `MapClasses`), the draw and routing flags
     * when requested, and the eight hidden inputs; the centre is the
     * default one.
     */
    constructor (name: string, draw: bool := true, routing: bool := true)
      ensures Valid()
      ensures id == name && hiddenInputs == HiddenIds(name)
      ensures center == DefaultCenter && dataGridParent == []
      ensures mapAttrs.Keys == {"style"} + (if draw then {"data-draw-plugin"} else {})
                                         + (if routing then {"data-routing-plugin"} else {})
      ensures draw ==> mapAttrs["data-draw-plugin"] == Flag(true)
      ensures routing ==> mapAttrs["data-routing-plugin"] == Flag(true)
    {
      id := name;
      center := DefaultCenter;
      dataGridParent := [];
      var attrs := map["style" := Text(MapStyle)];
      if draw {
        attrs := attrs["data-draw-plugin" := Flag(true)];
      }
      if routing {
        attrs := attrs["data-routing-plugin" := Flag(true)];
      }
      mapAttrs := attrs;
      var inputs: seq<string> := [];
      var i := 0;
      while i < |HiddenSuffixes|
        invariant 0 <= i <= |HiddenSuffixes|
        invariant inputs == HiddenIds(name)[..i]
      {
        inputs := inputs + [name + HiddenSuffixes[i]];
        i := i + 1;
      }
      hiddenInputs := inputs;
    }

    /** Registers a datagrid whose rows feed this map, as the selector `#<gridId>`. */
    method SetGridParent(gridId: string, refreshOnMove: bool := true)
      modifies this
      ensures dataGridParent == old(dataGridParent) + [GridParent("#" + gridId, refreshOnMove)]
      ensures center == old(center) && mapAttrs == old(mapAttrs)
    {
      dataGridParent := dataGridParent + [GridParent("#" + gridId, refreshOnMove)];
    }

    /**
     * Replaces the centre. Its option bag uses the key `awesomeIcon`, with
     * the glyph `map-marker`, colour `blue` and size `fa-3x` unless given.
     */
    method SetCenter(latitude: string, longitude: string, popup: Js := JBool(false),
                     awesomeIcon: Js := DefaultGlyph, iconColor: Js := DefaultIconColor,
                     iconSize: Js := DefaultIconSize)
      modifies this
      ensures center.lat == latitude && center.lng == longitude && center.popup == popup
      ensures center.options == IconOptions(awesomeIcon, iconColor, iconSize)
      ensures dataGridParent == old(dataGridParent) && mapAttrs == old(mapAttrs)
    {
      center := Center(latitude, longitude, IconOptions(awesomeIcon, iconColor, iconSize), popup);
    }

    /** Sets the `zoomLevel` attribute the newer script falls back on. */
    method SetZoomLevel(level: Js)
      requires Valid()
      modifies this
      ensures Valid()
      ensures mapAttrs == old(mapAttrs)["zoomLevel" := Level(level)]
      ensures center == old(center) && dataGridParent == old(dataGridParent)
    {
      mapAttrs := mapAttrs["zoomLevel" := Level(level)];
    }

    /**
     * Before rendering: the centre goes into `data-center` (the centre
     * record is never empty, so always), the request's `_center` is seeded
     * from it, and the datagrid-parent list goes into `data-datagrid-parent`.
     */
    method PreBuild(request: Request)
      requires Valid()
      modifies this, request
      ensures Valid()
      ensures mapAttrs == old(mapAttrs)["data-center" := CenterJson(center)]
                                       ["data-datagrid-parent" := ParentsJson(dataGridParent)]
      ensures request.params == SeedCenter(old(request.params), id + "_center", center)
      ensures center == old(center) && dataGridParent == old(dataGridParent)
    {
      mapAttrs := mapAttrs["data-center" := CenterJson(center)];
      if PhpEmpty(request.params, id + "_center") {
        request.params := request.params[id + "_center" := CenterText(center)];
      }
      mapAttrs := mapAttrs["data-datagrid-parent" := ParentsJson(dataGridParent)];
    }
  }
}

/**
 * The mapping library, seen from the map scripts: layer groups and markers
 * are opaque handles, and an icon is the option bag the scripts hand to
 * `L.divIcon` / `L.icon`. Both scripts build their icons from the same
 * template; only the default glyph colour differs between them.
 */
module Leaflet {
  import opened JsValues

  /** A handle returned by `L.layerGroup()`; every call yields a new serial. */
  datatype LayerGroup = LayerGroup(serial: nat)

  /** Where `addTo` put a marker: straight on the map, or in a layer group. */
  datatype Parent = OnMap | InGroup(group: LayerGroup)

  /** The option bag given to `L.divIcon` (a glyph) or `L.icon` (a raster image). */
  datatype Icon =
    | DivIcon(html: string, className: string, iconSize: Js, iconAnchor: Js, popupAnchor: Js)
    | RasterIcon(iconUrl: Js, iconSize: Js, iconAnchor: Js, popupAnchor: Js)

  /** The option bag given to `L.marker`: an icon (library default when absent) and `draggable`. */
  datatype MarkerOptions = MarkerOptions(icon: Option<Icon>, draggable: bool)

  /**
   * A handle returned by `L.marker(...)`. It carries the coordinates it was
   * created with, which `getLatLng()` is taken to return unchanged; the popup
   * bound with `bindPopup`, if any; and the id of the row element whose click
   * opens that popup, if one was wired.
   */
  datatype Marker = Marker(
    lat: Coord,
    lng: Coord,
    options: MarkerOptions,
    parent: Parent,
    popup: Option<Js>,
    clickRow: Option<string>)

  /** `ll.lat === lat && ll.lng === lng` on the marker's `getLatLng()`. */
  predicate At(m: Marker, lat: Coord, lng: Coord) {
    m.lat == lat && m.lng == lng
  }

  /** A two-element numeric array such as `[30, 42]`. */
  function Pair(a: int, b: int): Js {
    JArr([JNum(a), JNum(b)])
  }

  /** The markup of a glyph marker: `<i class="fa fa-ICON SIZE" style="color:COLOR"></i>`. */
  function GlyphHtml(icon: Js, size: Js, color: Js): string {
    "<i class=\"fa fa-" + ToText(icon) + " " + ToText(size) + "\" style=\"color:" + ToText(color) + "\"></i>"
  }

  /**
   * The `L.divIcon` options built for a glyph marker. Size and colour fall
   * back to "fa-3x" and the caller's default colour; the geometry options
   * fall back to a 30x42 box anchored at its bottom centre.
   */
  function GlyphIcon(options: map<string, Js>, defaultColor: string): (r: Icon)
    ensures r.DivIcon? && r.className == "custom-fa-marker"
    ensures r.html == GlyphHtml(Lookup(options, "awesomeIcon"),
                                Or(Lookup(options, "iconSize"), JStr("fa-3x")),
                                Or(Lookup(options, "iconColor"), JStr(defaultColor)))
    ensures Truthy(Lookup(options, "divIconSize")) ==> r.iconSize == options["divIconSize"]
    ensures !Truthy(Lookup(options, "divIconSize")) ==> r.iconSize == Pair(30, 42)
    ensures Truthy(Lookup(options, "iconAnchor")) ==> r.iconAnchor == options["iconAnchor"]
    ensures !Truthy(Lookup(options, "iconAnchor")) ==> r.iconAnchor == Pair(15, 42)
    ensures Truthy(Lookup(options, "popupAnchor")) ==> r.popupAnchor == options["popupAnchor"]
    ensures !Truthy(Lookup(options, "popupAnchor")) ==> r.popupAnchor == Pair(0, -42)
  {
    var color := Or(Lookup(options, "iconColor"), JStr(defaultColor));
    var size := Or(Lookup(options, "iconSize"), JStr("fa-3x"));
    var icon := Lookup(options, "awesomeIcon");
    DivIcon(GlyphHtml(icon, size, color),
            "custom-fa-marker",
            Or(Lookup(options, "divIconSize"), Pair(30, 42)),
            Or(Lookup(options, "iconAnchor"), Pair(15, 42)),
            Or(Lookup(options, "popupAnchor"), Pair(0, -42)))
  }

  /**
   * The `L.icon` options built for a raster marker, with a 25x41 box anchored
   * at (12, 41) unless the caller overrides each value.
   */
  function RasterIconFor(options: map<string, Js>): (r: Icon)
    ensures r.RasterIcon? && r.iconUrl == Lookup(options, "iconUrl")
    ensures Truthy(Lookup(options, "iconSize")) ==> r.iconSize == options["iconSize"]
    ensures !Truthy(Lookup(options, "iconSize")) ==> r.iconSize == Pair(25, 41)
    ensures Truthy(Lookup(options, "iconAnchor")) ==> r.iconAnchor == options["iconAnchor"]
    ensures !Truthy(Lookup(options, "iconAnchor")) ==> r.iconAnchor == Pair(12, 41)
    ensures Truthy(Lookup(options, "popupAnchor")) ==> r.popupAnchor == options["popupAnchor"]
    ensures !Truthy(Lookup(options, "popupAnchor")) ==> r.popupAnchor == Pair(0, -41)
  {
    RasterIcon(Lookup(options, "iconUrl"),
               Or(Lookup(options, "iconSize"), Pair(25, 41)),
               Or(Lookup(options, "iconAnchor"), Pair(12, 41)),
               Or(Lookup(options, "popupAnchor"), Pair(0, -41)))
  }

  /**
   * With string-valued glyph options, the markup is exactly the documented
   * template; an absent or empty size gives "fa-3x" and an absent or empty
   * colour gives the caller's default.
   */
  lemma GlyphMarkup(options: map<string, Js>, defaultColor: string, icon: string, size: string, color: string)
    requires Lookup(options, "awesomeIcon") == JStr(icon)
    requires if Truthy(Lookup(options, "iconSize")) then options["iconSize"] == JStr(size) else size == "fa-3x"
    requires if Truthy(Lookup(options, "iconColor")) then options["iconColor"] == JStr(color) else color == defaultColor
    ensures GlyphIcon(options, defaultColor).html
            == "<i class=\"fa fa-" + icon + " " + size + "\" style=\"color:" + color + "\"></i>"
  {
  }
}

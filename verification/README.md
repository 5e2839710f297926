# Leaflet map box: marker and layer bookkeeping

A verified model of the map widget of the Osynapsy Leaflet package. The
widget has three parts, each modelled as written:

- **`LeafletMapBox`** (assets/Map/Leaflet/script.js), module `MapLeaflet`.
  This is the newer client controller. It keeps three things:
  - the list of associated datagrids;
  - a table from layer key to layer group;
  - a registry of placed markers used to refuse duplicate coordinates.

  It rebuilds each datagrid's markers from the rows' JSON `marker`
  attributes.
- **The older `LeafletMapBox`** (assets/Ocl/MapLeafletBox/script.js), module
  `OclMapLeafletBox`. It grafts its state onto the container element and
  creates the registry `markerlist` lazily. It places markers straight on
  the map. Each row's marker comes from a comma-separated string.
- **The `MapBox` PHP component** (src/MapBox.php), module
  `MapBoxComponent`. It renders the container and eight hidden viewport
  inputs. It keeps a centre record and a datagrid-parent list, and it seeds
  the request's `_center` value.

Supporting modules:

- `JsValues`: JavaScript values, truthiness, `||`, and `split`/`join`/`implode`.
- `Leaflet`: mapping-library handles and the icon option bags.
- `Dom`: input fields, `data-mapgrid` lookup and `getMapBoxProperty`.
- `MapBoxIntegration`: how the PHP markup meets each script.

Objects whose fields the source mutates are classes, with `modifies` clauses:

- the newer controller;
- the older container element;
- the PHP component and the request;
- the page's input fields.

Each state-changing method is proved equal to a specification function on
values, or states its new state directly. Examples of the first kind are `GetLayerStep`, `RemoveLayerStep`, `Rebuild`, `Admit`
and `SeedCenter`. Lemmas state what those functions guarantee.

Quirks of the source that the model keeps:

- **The newer script's registry:**
  - `addMarkersFromDatagrids` pushes `addMarker`'s `null` for a duplicate into `markers`. The next duplicate scan that reaches that entry throws.
  - `removeLayer` does not prune `markers`, so a rebuilt layer cannot re-admit its old coordinates.
  - The constructor never registers the start marker.
- **The older script:**
  - The glyph icon is assigned after the raster one, so it wins.
  - Its start marker passes its icon under the key `awesoneIcon`, so that icon never applies.
  - `setVertex` never writes `_zoom`.
- **The PHP component:**
  - Its default centre spells its icon key `awsomeIcon`.
  - Its container's classes are `osy-mapgrid osy-mapgrid-leaflet`. The newer script selects and requires `osy-leaflet-mapbox`.
  - It never emits the `coostart` attribute that the older script reads.

Modelling assumptions:

- A marker's `getLatLng()` returns the coordinates it was created with, unchanged. The scripts compare coordinates with `===`, which this makes exact.
- `Osynapsy.isEmpty` holds exactly for `null` and `""`.
- Numbers in option bags are integers.
- The component's id equals the `$name` its constructor is given. The hidden inputs are named from `$this->id` (src/MapBox.php:49-56) and the container gets `$name` (src/MapBox.php:38, 61). These agree only if the framework's component constructor sets the id from its second argument; that class is not part of this model.
- The `_center` hidden input is assumed to show the request's `_center` value as `preBuild` seeded it. The inputs are built in the constructor, before `preBuild` seeds the request, so this holds only if `InputHidden` reads the request when it renders rather than when it is built. `InputHidden` is not part of this model.
- JSON attributes arrive already parsed.
- The page's elements are given as values: rows per datagrid, input values by id, and the `div`s that carry `data-mapgrid`.

## Model

| member | source | states |
|---|---|---|
| JsValues.Split | assets/Ocl/MapLeafletBox/script.js:110 | `split(',')` yields at least one field and no field contains the separator |
| JsValues.JoinSplit | assets/Ocl/MapLeafletBox/script.js:110 | joining the fields of a split with the same separator gives the string back |
| JsValues.SplitJoin | src/MapBox.php:114 | `implode(',', parts)` of comma-free parts splits back into exactly those parts |
| Leaflet.GlyphIcon | assets/Map/Leaflet/script.js:96-106 | glyph icon: class `custom-fa-marker`; html `<i class="fa fa-ICON SIZE" style="color:COLOR">`, size defaulting to `fa-3x` and colour to the caller's default; geometry [30,42], [15,42], [0,-42] each only when its option is falsy |
| Leaflet.RasterIconFor | assets/Map/Leaflet/script.js:107-113 | raster icon: the given `iconUrl`; size [25,41], anchor [12,41], popup anchor [0,-41] each only when its option is falsy |
| Leaflet.GlyphMarkup | assets/Map/Leaflet/script.js:101 | with string options, the markup is exactly the template, with `fa-3x` and the default colour when those options are absent or empty |
| Dom.MatchingIds | assets/Map/Leaflet/script.js:56-58 | the datagrid ids collected are exactly those of the `div`s whose `data-mapgrid` names the map, never more than there are `div`s |
| Dom.MatchingIdsAppend | assets/Ocl/MapLeafletBox/script.js:72-74 | collection follows document order: two stretches of the page give their ids one after the other |
| Dom.ApplyWrites | assets/Map/Leaflet/script.js:155-162 | successive `getElementById(id).value = v`: a TypeError exactly when some id is missing; no input is created; unwritten inputs keep their values; on success each written input holds its last value |
| Dom.FirstMissing | assets/Map/Leaflet/script.js:155-162 | the index of the first assignment whose element is missing: every earlier id exists, and the one at that index does not |
| Dom.ApplyWritesPrefix | assets/Map/Leaflet/script.js:155-162 | the assignments before the first missing id take effect and no others do: the fields end exactly as the successful run of that prefix leaves them, and the run fails iff such an id exists |
| Dom.Document.WriteFields | assets/Map/Leaflet/script.js:155-162 | the loop of assignments leaves the inputs and the fault that `ApplyWrites` describes |
| Dom.GetMapBoxProperty | assets/Map/Leaflet/script.js:166-172 | the default exactly when the `<id>_<property>` input is missing or empty, else that input's value |
| MapLeaflet.ResolveIcon | assets/Map/Leaflet/script.js:96-114 | glyph (green default) iff `awesomeIcon` is truthy, whatever `iconUrl` holds; raster iff `awesomeIcon` is falsy and `iconUrl` truthy; no icon otherwise |
| MapLeaflet.NewMarker | assets/Map/Leaflet/script.js:115-128 | the marker sits at coordinates[0], coordinates[1] in the given group; draggable iff that option is truthy; popup bound iff the popup is truthy; click link iff `markerId` is truthy and names an element |
| MapLeaflet.FirstStop | assets/Map/Leaflet/script.js:86-89 | the scan stops at the first entry that is null or at the coordinates; every entry before it is a non-matching marker |
| MapLeaflet.ScanSpec | assets/Map/Leaflet/script.js:86-89 | `some` answers true iff a match precedes every null; throws iff a null precedes every match; false iff all entries are non-matching markers |
| MapLeaflet.ScanAppend | assets/Map/Leaflet/script.js:86-89 | scanning a longer registry: a prefix that already answers or throws decides the result |
| MapLeaflet.AddMarker | assets/Map/Leaflet/script.js:83-129 | null exactly when a marker at the coordinates comes before every null entry; a TypeError exactly when the scan meets a null first; otherwise the new marker; the registry is an input only, never changed |
| MapLeaflet.DuplicateRefused | assets/Map/Leaflet/script.js:86-94 | in a registry without nulls, any entry at the coordinates makes `addMarker` return null |
| MapLeaflet.NullPoisonsRegistry | assets/Map/Leaflet/script.js:77 | a null in the registry makes `addMarker` throw for every coordinate no registered marker holds |
| MapLeaflet.GetLayerStep | assets/Map/Leaflet/script.js:131-137 | after `getLayer(k)`, `k` is present and the result is its group; an existing key changes nothing; a missing key gets a fresh group not in the table; the registry is untouched |
| MapLeaflet.GetLayerIdempotent | assets/Map/Leaflet/script.js:131-137 | a repeated `getLayer(k)` returns the same group and changes nothing |
| MapLeaflet.RemoveLayerStep | assets/Map/Leaflet/script.js:139-146 | `removeLayer(k)` deletes only `k`, is a no-op when `k` is absent, and leaves the registry alone |
| MapLeaflet.RowMarker | assets/Map/Leaflet/script.js:74-76 | a row yields a descriptor iff it has a marker; the descriptor's popup is the row's `.popup` markups joined in order |
| MapLeaflet.PlaceRowSpec | assets/Map/Leaflet/script.js:73-78 | a row without a marker changes nothing; a marker row appends exactly one entry, null exactly when the coordinate was registered; the registry stays duplicate-free |
| MapLeaflet.PlaceRowsSpec | assets/Map/Leaflet/script.js:73-78 | a datagrid's rows add one registry entry per marker row; only that datagrid's layer key can change, and it exists afterwards iff it did before or some row carries a marker (`getLayer` runs before the duplicate scan, so an all-duplicate datagrid still gets a group) |
| MapLeaflet.RebuildSpec | assets/Map/Leaflet/script.js:67-81 | a rebuild only appends to the registry, one entry per marker row when nothing throws; it keeps it duplicate-free and leaves layers of keys outside the datagrid list as they were |
| MapLeaflet.RebuildAppend | assets/Map/Leaflet/script.js:70 | datagrids are visited in list order: rebuilding `a + c` is rebuilding `a`, then `c` unless `a` threw |
| MapLeaflet.RebuildOne | assets/Map/Leaflet/script.js:71-72 | the layer is removed before any marker is placed: afterwards the datagrid has a group iff one of its rows has a marker, and that group is new |
| MapLeaflet.RefusalSurvivesRebuild | assets/Map/Leaflet/script.js:139-146 | since `removeLayer` does not prune the registry, a coordinate refused before a rebuild is still refused after it |
| MapLeaflet.VertexWrites | assets/Map/Leaflet/script.js:155-162 | `setVertex` writes eight fields: `_ne_lat`, `_ne_lng`, `_sw_lat`, `_sw_lng`, `_center`, `_cnt_lat`, `_cnt_lng`, `_zoom`, in that order |
| MapLeaflet.ViewCenterOf | assets/Map/Leaflet/script.js:40 | a `_center` field value is cut into at least one comma-free field, and the fields join back into the value with ','; otherwise the start coordinates are used as they are |
| MapLeaflet.LeafletMapBox.constructor | assets/Map/Leaflet/script.js:13-17 | a new controller has no datagrids, no layers and an empty registry |
| MapLeaflet.LeafletMapBox.AssocDatagridsToMapBox | assets/Map/Leaflet/script.js:53-65 | appends the matching datagrid ids in document order; layers and registry unchanged |
| MapLeaflet.LeafletMapBox.GetLayer | assets/Map/Leaflet/script.js:131-137 | the table update and result of `GetLayerStep`; every group's serial stays below the creation counter |
| MapLeaflet.LeafletMapBox.RemoveLayer | assets/Map/Leaflet/script.js:139-146 | the table update of `RemoveLayerStep` |
| MapLeaflet.LeafletMapBox.AddRowMarkers | assets/Map/Leaflet/script.js:73-78 | the row loop ends in the state and fault `PlaceRows` describes |
| MapLeaflet.LeafletMapBox.AddMarkersFromDatagrids | assets/Map/Leaflet/script.js:67-81 | the datagrid loop ends in the state and fault `Rebuild` describes, including the TypeError for a datagrid missing from the page, raised after its layer was removed |
| MapLeaflet.Create | assets/Map/Leaflet/script.js:19-34 | throws the configuration error without `osy-leaflet-mapbox`, and a TypeError without `data-center`; otherwise it centres on `_center` (else the start coordinates) at `_zoom` (else `zoomLevel`, else 10); it associates the datagrids and creates only the `center` layer; the registry stays empty; it fails iff a viewport input is missing |
| OclMapLeafletBox.FinalIcon | assets/Ocl/MapLeafletBox/script.js:133-153 | glyph (red default) iff `awesomeIcon` is truthy, even when `iconUrl` is set; raster iff only `iconUrl` is truthy; none otherwise |
| OclMapLeafletBox.MarkerFor | assets/Ocl/MapLeafletBox/script.js:133-160 | the marker goes on the map at the coordinates; draggable iff `draggable` is truthy; popup bound iff `options.popup` is truthy |
| OclMapLeafletBox.Holds | assets/Ocl/MapLeafletBox/script.js:124-127 | `markerlist.some(...)` holds iff some registered marker is at the coordinates |
| OclMapLeafletBox.AdmitSpec | assets/Ocl/MapLeafletBox/script.js:117-163 | a duplicate leaves `markerlist` unchanged and gives null; otherwise exactly the returned marker is appended; the list stays duplicate-free |
| OclMapLeafletBox.RowDescriptor | assets/Ocl/MapLeafletBox/script.js:107-111 | the options hold exactly `awesomeIcon` and the first child's markup as `popup`; latitude, longitude and icon are comma-free strings that join back into a `marker` of up to three fields, and with more fields they join into the part of `marker` before its third comma, so they are fields 0, 1 and 2; a one-field string has no longitude and no icon, a two-field one no icon |
| OclMapLeafletBox.RowDescriptorRoundTrip | assets/Ocl/MapLeafletBox/script.js:110-111 | a string "lat,lng,icon" of comma-free parts gives back those three parts |
| OclMapLeafletBox.TwoFieldRowHasDefaultIcon | assets/Ocl/MapLeafletBox/script.js:111 | a string "lat,lng" carries no icon, so its marker gets the library's default icon |
| OclMapLeafletBox.StartMarker | assets/Ocl/MapLeafletBox/script.js:36-46 | a missing `coostart` throws; otherwise the options hold only `awesoneIcon` (`map-marker` with fewer than three fields), so the start marker never gets the glyph or a raster icon; the coordinates and icon are comma-free and join back into a `coostart` of up to three fields; with more fields they join into the part before its third comma, so they are fields 0, 1 and 2 |
| OclMapLeafletBox.PlaceRowsSpec | assets/Ocl/MapLeafletBox/script.js:106-113 | rows only append to `markerlist`, at most one marker per marker row; an existing list is kept; rows without a marker change nothing; the list stays duplicate-free |
| OclMapLeafletBox.RebuildSpec | assets/Ocl/MapLeafletBox/script.js:101-115 | across datagrids `markerlist` only grows, an existing list is kept, and it stays duplicate-free |
| OclMapLeafletBox.VertexWrites | assets/Ocl/MapLeafletBox/script.js:91-97 | `setVertex` writes seven fields: `_ne_lat`, `_ne_lng`, `_sw_lat`, `_sw_lng`, `_center`, `_cnt_lat`, `_cnt_lng`, in that order |
| OclMapLeafletBox.SetVertexKeepsZoom | assets/Ocl/MapLeafletBox/script.js:85-99 | `setVertex` never writes `_zoom`: the field keeps its value for any map id |
| OclMapLeafletBox.MapBoxElement.constructor | assets/Ocl/MapLeafletBox/script.js:119-121 | a container before initialisation has no view, no datagrids and no `markerlist` |
| OclMapLeafletBox.MapBoxElement.AddMarker | assets/Ocl/MapLeafletBox/script.js:117-163 | the successive option assignments give `Admit`'s result: `markerlist` is created only when missing; a duplicate returns null; otherwise `MarkerFor`'s marker is appended and returned |
| OclMapLeafletBox.MapBoxElement.AssocDatagridsToMapBox | assets/Ocl/MapLeafletBox/script.js:70-75 | appends the matching datagrid ids in document order |
| OclMapLeafletBox.MapBoxElement.AddRowMarkers | assets/Ocl/MapLeafletBox/script.js:106-113 | the row loop ends in the `markerlist` and fault `PlaceRows` describes; a row without children throws |
| OclMapLeafletBox.MapBoxElement.AddMarkersFromDatagrids | assets/Ocl/MapLeafletBox/script.js:101-115 | the datagrid loop ends in the `markerlist` and fault `Rebuild` describes; no layer is removed |
| OclMapLeafletBox.MapBoxElement.SetVertex | assets/Ocl/MapLeafletBox/script.js:85-99 | writes the seven viewport inputs, failing at a missing one |
| OclMapLeafletBox.MapBoxElement.SetUpView | assets/Ocl/MapLeafletBox/script.js:37-41 | the view is centred on `_center` (else `coostart`) split on ',' at `_zoom` (else 10); the datagrid list restarts with the matching ids |
| OclMapLeafletBox.MapBoxElement.InitMapBox | assets/Ocl/MapLeafletBox/script.js:31-47 | a missing `coostart` throws before anything changes; otherwise the view and datagrids are set up and the viewport written; unless that throws, drawing is enabled iff the attribute is non-empty, and the start marker is admitted |
| OclMapLeafletBox.MapBoxElement.Finish | assets/Ocl/MapLeafletBox/script.js:42-46 | viewport writes first; a failure there skips the draw control and the start marker |
| MapBoxComponent.HiddenIds | src/MapBox.php:49-56 | eight hidden input ids: the component id with `_ne_lat`, `_ne_lng`, `_sw_lat`, `_sw_lng`, `_cnt_lat`, `_cnt_lng`, `_center`, `_zoom` |
| MapBoxComponent.SeedCenter | src/MapBox.php:113-115 | an empty (unset, "" or "0") `_center` becomes the comma-joined coordinates; a non-empty one is kept; afterwards it is never empty |
| MapBoxComponent.SeedCenterIdempotent | src/MapBox.php:113-115 | seeding twice is seeding once |
| MapBoxComponent.SeedCenterRoundTrip | src/MapBox.php:114 | a seeded value splits back into the two coordinates |
| MapBoxComponent.MapBox.constructor | src/MapBox.php:35-57 | the default centre, no grid parents, the eight hidden inputs in order; `data-draw-plugin` iff `$draw`; `data-routing-plugin` iff `$routing` |
| MapBoxComponent.MapBox.SetGridParent | src/MapBox.php:119-122 | appends exactly one entry (`#<gridId>`, refresh flag) and keeps the earlier ones |
| MapBoxComponent.MapBox.SetCenter | src/MapBox.php:124-138 | replaces the whole centre; options under `awesomeIcon`, `iconSize`, `iconColor` with defaults `map-marker`, `fa-3x`, `blue`; popup `false` by default |
| MapBoxComponent.MapBox.SetZoomLevel | src/MapBox.php:140-143 | sets the `zoomLevel` attribute only |
| MapBoxComponent.MapBox.PreBuild | src/MapBox.php:108-117 | sets `data-center` to the centre and `data-datagrid-parent` to the list; seeds the request's `_center` as `SeedCenter` says; the container keeps only known attributes |
| MapBoxIntegration.BoxFor | src/MapBox.php:111 | the container the newer script is handed lacks `osy-leaflet-mapbox` but carries the older script's class; its `data-center` gives the component's latitude and longitude as `coordinates[0]` and `[1]`, with its options and popup |
| MapBoxIntegration.NewScriptRejectsPhpMarkup | src/MapBox.php:61 | the rendered classes lack `osy-leaflet-mapbox`, which the newer script requires; the older `initAll` selector matches them |
| MapBoxIntegration.NewScriptOnPhpMarkup | assets/Map/Leaflet/script.js:21-23 | the newer constructor, given the component's container, throws its configuration error before writing any field |
| MapBoxIntegration.HiddenSlot | src/MapBox.php:49-56 | each field the newer `setVertex` writes has a hidden input |
| MapBoxIntegration.HiddenInputsMatchVertexFields | src/MapBox.php:49-56 | the hidden inputs are exactly the newer script's viewport fields; the older script's fields are those minus `_zoom` |
| MapBoxIntegration.VertexWritesSucceedOnPhpPage | src/MapBox.php:49-56 | with the component's hidden inputs on the page, neither `setVertex` fails |
| MapBoxIntegration.DefaultCenterShowsDefaultPin | src/MapBox.php:22-33 | because of the `awsomeIcon` key, the default centre would get the library's default pin and no popup, once the container reaches the newer script |
| MapBoxIntegration.SetCenterDefaultsGiveBlueGlyph | src/MapBox.php:124 | a centre with `setCenter`'s defaults would be drawn as a blue `map-marker` glyph of size `fa-3x`, once the container reaches the newer script |
| MapBoxIntegration.OldScriptFindsNoStart | src/MapBox.php:35-57 | the component's attributes never include `coostart` or `dataDrawPlugin` |
| MapBoxIntegration.OldScriptOnPhpMarkup | assets/Ocl/MapLeafletBox/script.js:31-36 | the older `initMapBox`, run on an element carrying the component's attributes, throws a TypeError before writing any field, placing any marker or enabling drawing |
| MapBoxIntegration.SeededCenterReachesScripts | src/MapBox.php:113-115 | a seeded `_center` would make either script centre the view on the component's two coordinates, once the container reaches it |

## Left out

- Leaflet itself is not modelled. This covers map creation, `setView`, tiles, `addTo`, `bindPopup`, `openPopup` and bounds. Markers and layer groups are handles that carry their coordinates and options.
- Floating-point viewport values are not modelled: the bounds, the averaged centre, `LatLng.toString()` munging and `Number` parsing of the centre. The viewport's field values are given as strings.
- Event plumbing is not modelled: `afterRefresh` listeners, `moveend` and `zoomend` handlers, and `Osynapsy.refreshComponents`. `addMarkersFromDatagrids` is called directly.
- The draw and routing plugins are left out. The older script's choice to enable drawing is kept as a flag.
- `JSON.parse` and `json_encode` are left out, including their escaping flags. Malformed JSON is left out too. Attributes arrive parsed, and a parsed marker is assumed to carry an `options` object.
- DOM queries are given as values: rows per datagrid, input values by id, and the set of element ids.
- Some inputs are not handled: CSS selector escaping of ids, null datagrid ids, and numeric (not string) `setCenter` coordinates.
- PHP asset loading (`requireCss`, `requireJs`) is left out. So is the container's inline style beyond its value.
- Fields the scripts declare but never use are left out: `polylinelist` and `autocenter`, and the older script's `layers`, `markers`, `layermarker`, `datasets` and its own `this.markerlist = {}` (assets/Ocl/MapLeafletBox/script.js:15). That last one is distinct from the container's `map.box.markerlist` (lines 119-161), which is the registry the model's `markerlist` stands for.
- `getLatLng()` is assumed to return the coordinates unchanged. Leaflet's own normalisation is not visible.
- `Osynapsy.isEmpty` is assumed to hold exactly for null and "". The framework is not part of this model.
- JavaScript numbers in option bags are modelled as integers.
- The newer script's `layers` object is modelled as a plain map. Datagrid ids that clash with `Object.prototype` members behave differently in JavaScript: `__proto__` gives a fresh group on every `getLayer` and is never removed, and `hasOwnProperty` makes the next `getLayer` throw (assets/Map/Leaflet/script.js:131-146).
- Option values that are JSON objects cannot be represented, because `Js` has no object variant. In JavaScript such a value is truthy and renders as "[object Object]" in the icon templates.
- The `console.log` diagnostics are left out: they report a refused duplicate, a removed layer and the datagrid list, and change no state.
- The `_center` hidden input is assumed to show the seeded request value. That requires `InputHidden` to read the request when it renders, after `preBuild`, and not when the constructor builds it. `InputHidden` is not part of this model.
- OclMapLeafletBox.PlaceRowsSpec bounds the registry's growth by the number of marker rows. It does not count how many were duplicates; `AdmitSpec` states each step exactly.
- OclMapLeafletBox.RebuildSpec does not state a growth bound across datagrids, only that the registry is kept, extended and duplicate-free.
- MapBoxComponent.MapBox.PreBuild sets `data-center` unconditionally. The source's `!empty($this->center)` guard always holds, because the centre record always has its three keys.

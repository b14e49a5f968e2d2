/**
 * What `create_graph` draws, as a value: the base layer, one marker and one
 * label per city name that resolves (in input order), and the viewport set
 * with `set_extent`. The figure, projection objects and the image file are
 * rendering plumbing and do not appear here.
 */
module MapScene {
  import opened Wrappers
  import opened Gazetteer

  /** Degrees added around the resolved points on every side of the viewport. */
  const Margin: real := 2.0
  /** Offset of a label from its marker, in degrees along both axes. */
  const LabelOffset: real := 0.5
  /** `markersize=5`. */
  const MarkerSize: nat := 5
  /** Zoom level passed to `add_image` for the terrain tiles. */
  const TileZoom: nat := 8
  /** Defaults of `create_graph`'s keyword arguments. */
  const DefaultMarker: string := "ro"
  const DefaultBackground: string := "default"

  /** The cartopy features of the vector base layer. */
  datatype Feature = Land | Ocean | Coastline | Borders(lineStyle: string) | Lakes(alpha: real) | Rivers

  /** The six features `background_type='default'` adds, in the order they are added. */
  const VectorFeatures: seq<Feature> := [Land, Ocean, Coastline, Borders(":"), Lakes(0.5), Rivers]

  datatype BaseLayer =
    | Features(features: seq<Feature>)
    | TerrainTiles(zoom: nat)
    | NoBaseLayer

  /** `ax.plot(lng, lat, marker_color, markersize=5)`. */
  datatype Marker = Marker(lng: real, lat: real, style: string, size: nat)
  /** `ax.text(lng + 0.5, lat + 0.5, city)`. */
  datatype Label = Label(lng: real, lat: real, text: string)
  /** The marker and label drawn for one city. */
  datatype Pin = Pin(marker: Marker, caption: Label)

  /** `set_extent([west, east, south, north])` in plate carrée degrees. */
  datatype Viewport = Viewport(west: real, east: real, south: real, north: real)

  datatype Scene = Scene(base: BaseLayer, pins: seq<Pin>, extent: Option<Viewport>)

  /** A city name that resolved, with its coordinates. */
  datatype Place = Place(name: string, at: Coord)

  /** The base layer chosen by `background_type`; any other value draws none and is no error. */
  function BaseLayerFor(background: string): (r: BaseLayer)
    ensures r.Features? <==> background == "default"
    ensures r.TerrainTiles? <==> background == "image"
    ensures r.Features? ==> r.features == VectorFeatures
    ensures r.TerrainTiles? ==> r.zoom == TileZoom
  {
    if background == "default" then Features(VectorFeatures)
    else if background == "image" then TerrainTiles(TileZoom)
    else NoBaseLayer
  }

  /** The names that `get_coordinates` resolves, with their coordinates, in input order. */
  function Resolved(cities: seq<CityRow>, names: seq<string>): (r: seq<Place>)
    ensures |r| <= |names|
  {
    if names == [] then []
    else
      var name := names[|names| - 1];
      var init := Resolved(cities, names[..|names| - 1]);
      match GetCoordinates(cities, name)
      case Some(c) => init + [Place(name, c)]
      case None => init
  }

  function PinAt(p: Place, style: string): Pin {
    Pin(Marker(p.at.lng, p.at.lat, style, MarkerSize),
        Label(p.at.lng + LabelOffset, p.at.lat + LabelOffset, p.name))
  }

  function Pins(places: seq<Place>, style: string): (r: seq<Pin>)
    ensures |r| == |places|
  {
    seq(|places|, k requires 0 <= k < |places| => PinAt(places[k], style))
  }

  function Lats(places: seq<Place>): (r: seq<real>)
    ensures |r| == |places|
  {
    seq(|places|, k requires 0 <= k < |places| => places[k].at.lat)
  }

  function Lngs(places: seq<Place>): (r: seq<real>)
    ensures |r| == |places|
  {
    seq(|places|, k requires 0 <= k < |places| => places[k].at.lng)
  }

  /** Python's `min` over a non-empty list. */
  function MinOf(xs: seq<real>): (m: real)
    requires xs != []
    ensures m in xs
    ensures forall i :: 0 <= i < |xs| ==> m <= xs[i]
  {
    if |xs| == 1 then xs[0]
    else
      var rest := MinOf(xs[1..]);
      if xs[0] <= rest then xs[0] else rest
  }

  /** Python's `max` over a non-empty list. */
  function MaxOf(xs: seq<real>): (m: real)
    requires xs != []
    ensures m in xs
    ensures forall i :: 0 <= i < |xs| ==> xs[i] <= m
  {
    if |xs| == 1 then xs[0]
    else
      var rest := MaxOf(xs[1..]);
      if rest <= xs[0] then xs[0] else rest
  }

  /**
   * The viewport framing `places`, `[min lng - 2, max lng + 2, min lat - 2,
   * max lat + 2]`, or none when there is nothing to frame.
   */
  function Frame(places: seq<Place>): (r: Option<Viewport>)
    ensures r.None? <==> places == []
    ensures r.Some? ==> forall k :: 0 <= k < |places| ==>
              r.value.west + Margin <= places[k].at.lng <= r.value.east - Margin
              && r.value.south + Margin <= places[k].at.lat <= r.value.north - Margin
    ensures r.Some? ==>
              && (exists k :: 0 <= k < |places| && places[k].at.lng == r.value.west + Margin)
              && (exists k :: 0 <= k < |places| && places[k].at.lng == r.value.east - Margin)
              && (exists k :: 0 <= k < |places| && places[k].at.lat == r.value.south + Margin)
              && (exists k :: 0 <= k < |places| && places[k].at.lat == r.value.north - Margin)
  {
    var lats := Lats(places);
    var lngs := Lngs(places);
    if lats != [] && lngs != [] then
      assert forall k :: 0 <= k < |places| ==> lats[k] == places[k].at.lat && lngs[k] == places[k].at.lng;
      Some(Viewport(MinOf(lngs) - Margin, MaxOf(lngs) + Margin, MinOf(lats) - Margin, MaxOf(lats) + Margin))
    else
      None
  }

  /** The scene `create_graph(path, names, marker_color, background_type)` draws. */
  function SceneOf(cities: seq<CityRow>, names: seq<string>, markerColor: string, background: string): (s: Scene)
    ensures |s.pins| <= |names|
    ensures names == [] ==> s.pins == [] && s.extent == None
    ensures s.extent.Some? <==> s.pins != []
  {
    var placed := Resolved(cities, names);
    Scene(BaseLayerFor(background), Pins(placed, markerColor), if names != [] then Frame(placed) else None)
  }

  /** Only names that resolve are placed, each at the coordinates `get_coordinates` gives it. */
  lemma {:induction false} ResolvedSound(cities: seq<CityRow>, names: seq<string>, k: nat)
    requires k < |Resolved(cities, names)|
    ensures Resolved(cities, names)[k].name in names
    ensures GetCoordinates(cities, Resolved(cities, names)[k].name) == Some(Resolved(cities, names)[k].at)
  {
    var init := names[..|names| - 1];
    var name := names[|names| - 1];
    if k < |Resolved(cities, init)| {
      ResolvedSound(cities, init, k);
      assert Resolved(cities, names)[k] == Resolved(cities, init)[k];
    }
  }

  /** Unresolvable names are skipped without error: nothing is placed only when no name resolves. */
  lemma {:induction false} ResolvedEmptyIff(cities: seq<CityRow>, names: seq<string>)
    ensures Resolved(cities, names) == [] <==> forall i :: 0 <= i < |names| ==> GetCoordinates(cities, names[i]).None?
  {
    if names != [] {
      var init := names[..|names| - 1];
      ResolvedEmptyIff(cities, init);
      assert forall i :: 0 <= i < |init| ==> init[i] == names[i];
    }
  }

  /** Places keep the input order: resolving a concatenation concatenates the results. */
  lemma {:induction false} ResolvedAppend(cities: seq<CityRow>, a: seq<string>, b: seq<string>)
    ensures Resolved(cities, a + b) == Resolved(cities, a) + Resolved(cities, b)
  {
    if b == [] {
      assert a + b == a;
    } else {
      var init := b[..|b| - 1];
      ResolvedAppend(cities, a, init);
      assert (a + b)[..|a + b| - 1] == a + init;
      assert (a + b)[|a + b| - 1] == b[|b| - 1];
    }
  }

  /** When every name resolves, one place per name is drawn, name for name, duplicates included. */
  lemma {:induction false} ResolvedAllKnown(cities: seq<CityRow>, names: seq<string>)
    requires forall i :: 0 <= i < |names| ==> GetCoordinates(cities, names[i]).Some?
    ensures |Resolved(cities, names)| == |names|
    ensures forall k :: 0 <= k < |names| ==>
              Resolved(cities, names)[k] == Place(names[k], GetCoordinates(cities, names[k]).value)
  {
    if names != [] {
      var init := names[..|names| - 1];
      var last := names[|names| - 1];
      assert forall i :: 0 <= i < |init| ==> init[i] == names[i];
      ResolvedAllKnown(cities, init);
      var c := GetCoordinates(cities, last).value;
      assert Resolved(cities, names) == Resolved(cities, init) + [Place(last, c)];
    }
  }

  /** Unresolvable names are skipped silently: a viewport is set exactly when some name resolves. */
  lemma SceneExtentIff(cities: seq<CityRow>, names: seq<string>, markerColor: string, background: string)
    ensures SceneOf(cities, names, markerColor, background).extent.Some?
            <==> exists i :: 0 <= i < |names| && GetCoordinates(cities, names[i]).Some?
  {
    ResolvedEmptyIff(cities, names);
  }

  /**
   * Every pin of a scene is the marker of a resolved name at `(lng, lat)` in
   * the requested style with its label half a degree up and right, and it
   * sits at least `Margin` degrees inside every edge of the viewport.
   */
  lemma ScenePinsFramed(cities: seq<CityRow>, names: seq<string>, markerColor: string, background: string, k: nat)
    requires k < |SceneOf(cities, names, markerColor, background).pins|
    ensures var scene := SceneOf(cities, names, markerColor, background);
            var m := scene.pins[k].marker;
            var c := scene.pins[k].caption;
            && m.style == markerColor && m.size == MarkerSize
            && GetCoordinates(cities, c.text) == Some(Coord(m.lat, m.lng))
            && c.lng == m.lng + LabelOffset && c.lat == m.lat + LabelOffset
            && scene.extent.Some?
            && scene.extent.value.west + Margin <= m.lng <= scene.extent.value.east - Margin
            && scene.extent.value.south + Margin <= m.lat <= scene.extent.value.north - Margin
  {
    var placed := Resolved(cities, names);
    ResolvedSound(cities, names, k);
    assert SceneOf(cities, names, markerColor, background).pins[k] == PinAt(placed[k], markerColor);
  }

  /** A single known city is drawn alone, framed by a 4-by-4-degree viewport centred on it. */
  lemma SceneSingleCity(cities: seq<CityRow>, name: string, markerColor: string, background: string)
    requires GetCoordinates(cities, name).Some?
    ensures var c := GetCoordinates(cities, name).value;
            SceneOf(cities, [name], markerColor, background)
            == Scene(BaseLayerFor(background),
                     [Pin(Marker(c.lng, c.lat, markerColor, MarkerSize), Label(c.lng + 0.5, c.lat + 0.5, name))],
                     Some(Viewport(c.lng - 2.0, c.lng + 2.0, c.lat - 2.0, c.lat + 2.0)))
  {
    var c := GetCoordinates(cities, name).value;
    assert [name][..0] == [];
    var placed := Resolved(cities, [name]);
    assert placed == [Place(name, c)];
    assert Lngs(placed) == [c.lng];
    assert Lats(placed) == [c.lat];
  }

  /**
   * The background choice is closed over two names: `'default'` draws the six
   * vector features, `'image'` terrain tiles at zoom 8, anything else nothing.
   */
  lemma SceneBaseLayer(cities: seq<CityRow>, names: seq<string>, markerColor: string, background: string)
    ensures var base := SceneOf(cities, names, markerColor, background).base;
            && (base.Features? <==> background == "default")
            && (base.TerrainTiles? <==> background == "image")
            && (base.Features? ==> |base.features| == 6 && Borders(":") in base.features && Lakes(0.5) in base.features)
            && (base.TerrainTiles? ==> base.zoom == 8)
  {
  }

  /** Two places, in either order, are framed by the smaller and larger of their coordinates, widened by the margin. */
  lemma FrameOfTwo(p: Place, q: Place)
    ensures var (a, b) := (p.at, q.at);
            Frame([p, q])
            == Some(Viewport((if a.lng <= b.lng then a.lng else b.lng) - Margin,
                             (if a.lng <= b.lng then b.lng else a.lng) + Margin,
                             (if a.lat <= b.lat then a.lat else b.lat) - Margin,
                             (if a.lat <= b.lat then b.lat else a.lat) + Margin))
  {
    var lngs, lats := Lngs([p, q]), Lats([p, q]);
    assert lngs == [p.at.lng, q.at.lng] && lngs[1..] == [q.at.lng];
    assert lats == [p.at.lat, q.at.lat] && lats[1..] == [q.at.lat];
  }

  /** Moscow and Tokyo resolve in input order and the unknown Berlin between them is skipped. */
  lemma ResolvedSkipsUnknown(cities: seq<CityRow>)
    requires cities == [CityRow(1, "Moscow", 55.75, 37.62), CityRow(2, "Tokyo", 35.68, 139.69)]
    ensures Resolved(cities, ["Moscow", "Berlin", "Tokyo"])
            == [Place("Moscow", Coord(55.75, 37.62)), Place("Tokyo", Coord(35.68, 139.69))]
  {
    GetCoordinatesFirstRow(cities, "Moscow", 0);
    GetCoordinatesFirstRow(cities, "Tokyo", 1);
    assert GetCoordinates(cities, "Berlin").None?;
    var moscow := Place("Moscow", Coord(55.75, 37.62));
    assert ["Moscow"][..0] == [];
    assert Resolved(cities, ["Moscow"]) == [moscow];
    assert ["Moscow", "Berlin"][..1] == ["Moscow"];
    assert Resolved(cities, ["Moscow", "Berlin"]) == [moscow];
    assert ["Moscow", "Berlin", "Tokyo"][..2] == ["Moscow", "Berlin"];
  }

  /** Moscow and Tokyo: the viewport is `[37.62 - 2, 139.69 + 2, 35.68 - 2, 55.75 + 2]`. */
  lemma SceneTwoCities()
    ensures var cities := [CityRow(1, "Moscow", 55.75, 37.62), CityRow(2, "Tokyo", 35.68, 139.69)];
            SceneOf(cities, ["Moscow", "Berlin", "Tokyo"], DefaultMarker, DefaultBackground).extent
            == Some(Viewport(35.62, 141.69, 33.68, 57.75))
  {
    var cities := [CityRow(1, "Moscow", 55.75, 37.62), CityRow(2, "Tokyo", 35.68, 139.69)];
    ResolvedSkipsUnknown(cities);
    FrameOfTwo(Place("Moscow", Coord(55.75, 37.62)), Place("Tokyo", Coord(35.68, 139.69)));
  }
}

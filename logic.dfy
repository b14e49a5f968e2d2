/**
 * `DB_Map`, the bot's store and map builder: the `cities` table it reads and
 * the `users_cities` table it creates and appends to, with the storage
 * methods and the parameterised `create_graph`.
 */
module Logic {
  import opened Wrappers
  import opened Gazetteer
  import opened MapScene

  /** What sqlite3 raises when `users_cities` is queried before it is created. */
  datatype StoreError = NoSuchTable

  class DbMap {
    /** Rows of `cities`, seeded outside the bot. */
    var cities: seq<CityRow>
    /** Rows of `users_cities`, in insertion order. */
    var links: seq<Link>
    /** Whether `users_cities` exists in the database file. */
    var hasLinksTable: bool

    /** A table that does not exist holds no rows. */
    ghost predicate Valid()
      reads this
    {
      !hasLinksTable ==> links == []
    }

    /** Opens a database holding `cities` and, if it already exists, a `users_cities` table with `existing` rows. */
    constructor (cities: seq<CityRow>, existing: Option<seq<Link>>)
      ensures Valid()
      ensures this.cities == cities
      ensures hasLinksTable == existing.Some?
      ensures links == if existing.Some? then existing.value else []
    {
      this.cities := cities;
      hasLinksTable := existing.Some?;
      links := if existing.Some? then existing.value else [];
    }

    /** `CREATE TABLE IF NOT EXISTS users_cities`: afterwards the table exists, and rows already in it stay. */
    method CreateUserTable()
      requires Valid()
      modifies this
      ensures Valid() && hasLinksTable
      ensures links == old(links) && cities == old(cities)
    {
      if !hasLinksTable {
        hasLinksTable := true;
        links := [];
      }
    }

    /**
     * `add_city`: looks the name up and, only if a row has exactly that name,
     * appends one link from `userId` to the first such row's id and answers
     * true; otherwise answers false and writes nothing. Inserting into a
     * missing `users_cities` raises.
     */
    method AddCity(userId: int, cityName: string) returns (r: Result<bool, StoreError>)
      requires Valid()
      modifies this
      ensures Valid()
      ensures cities == old(cities) && hasLinksTable == old(hasLinksTable)
      ensures FirstIndex(cities, cityName).None? ==> r == Success(false) && links == old(links)
      ensures FirstIndex(cities, cityName).Some? && !hasLinksTable ==> r == Failure(NoSuchTable) && links == old(links)
      ensures FirstIndex(cities, cityName).Some? && hasLinksTable ==>
                r == Success(true) && links == old(links) + [Link(userId, cities[FirstIndex(cities, cityName).value].id)]
    {
      match FirstIndex(cities, cityName)
      case None =>
        r := Success(false);
      case Some(k) =>
        if !hasLinksTable {
          r := Failure(NoSuchTable);
        } else {
          links := links + [Link(userId, cities[k].id)];
          r := Success(true);
        }
    }

    /** `select_cities`: the names of the cities linked to `userId`; raises when `users_cities` is missing. */
    function SelectCities(userId: int): (r: Result<seq<string>, StoreError>)
      reads this
      ensures r.Failure? <==> !hasLinksTable
      ensures r.Success? ==> forall s :: s in r.value ==>
                exists i, k :: 0 <= i < |links| && 0 <= k < |cities| && links[i].userId == userId
                               && cities[k].id == links[i].cityId && cities[k].name == s
      ensures r.Success? ==> forall i, k ::
                (0 <= i < |links| && 0 <= k < |cities| && links[i].userId == userId && cities[k].id == links[i].cityId)
                ==> cities[k].name in r.value
    {
      if !hasLinksTable then Failure(NoSuchTable)
      else
        var names := Join(cities, links, userId);
        assert forall s :: s in names ==>
          exists i, k :: 0 <= i < |links| && 0 <= k < |cities| && links[i].userId == userId
                         && cities[k].id == links[i].cityId && cities[k].name == s
        by {
          forall s | s in names
            ensures exists i, k :: 0 <= i < |links| && 0 <= k < |cities| && links[i].userId == userId
                                   && cities[k].id == links[i].cityId && cities[k].name == s
          {
            JoinSound(cities, links, userId, s);
          }
        }
        assert forall i, k ::
                 (0 <= i < |links| && 0 <= k < |cities| && links[i].userId == userId && cities[k].id == links[i].cityId)
                 ==> cities[k].name in names
        by {
          forall i, k | 0 <= i < |links| && 0 <= k < |cities| && links[i].userId == userId
                        && cities[k].id == links[i].cityId
            ensures cities[k].name in names
          {
            JoinComplete(cities, links, userId, i, k);
          }
        }
        Success(names)
    }

    /**
     * `create_graph`: picks the base layer, then walks the names in order and
     * draws a marker and a label for each one `get_coordinates` resolves,
     * then frames the drawn cities.
     */
    method CreateGraph(names: seq<string>, markerColor: string, background: string) returns (scene: Scene)
      ensures scene == SceneOf(cities, names, markerColor, background)
    {
      var base: BaseLayer;
      if background == "default" {
        base := Features(VectorFeatures);
      } else if background == "image" {
        base := TerrainTiles(TileZoom);
      } else {
        base := NoBaseLayer;
      }

      var pins: seq<Pin> := [];
      var i := 0;
      while i < |names|
        invariant 0 <= i <= |names|
        invariant pins == Pins(Resolved(cities, names[..i]), markerColor)
      {
        assert names[..i + 1][..i] == names[..i];
        var coordinates := GetCoordinates(cities, names[i]);
        if coordinates.Some? {
          pins := pins + [PinAt(Place(names[i], coordinates.value), markerColor)];
        }
        i := i + 1;
      }
      assert names[..i] == names;

      var extent: Option<Viewport> := None;
      if names != [] {
        extent := Frame(Resolved(cities, names));
      }
      scene := Scene(base, pins, extent);
    }
  }

  /**
   * Moscow and Tokyo are seeded; chat 1 saves Moscow, fails to save the
   * unseeded Berlin, and its list and map hold Moscow alone.
   */
  method StoreScenario() returns (saved: Result<bool, StoreError>, unknown: Result<bool, StoreError>,
                                  listed: Result<seq<string>, StoreError>, scene: Scene)
    ensures saved == Success(true) && unknown == Success(false)
    ensures listed == Success(["Moscow"])
    ensures scene.extent == Some(Viewport(35.62, 39.62, 53.75, 57.75))
  {
    var moscow := CityRow(1, "Moscow", 55.75, 37.62);
    var seeded := [moscow, CityRow(2, "Tokyo", 35.68, 139.69)];
    assert Join(seeded, [Link(1, 1)], 1) == ["Moscow"] by {
      assert [Link(1, 1)][..0] == [];
      NamesWithIdOfRow(seeded, 0);
    }
    var store := new DbMap(seeded, None);
    store.CreateUserTable();
    saved := store.AddCity(1, "Moscow");
    assert saved == Success(true);
    unknown := store.AddCity(1, "Berlin");
    assert store.links == [Link(1, 1)] && store.cities == seeded && store.hasLinksTable;
    listed := store.SelectCities(1);
    scene := store.CreateGraph(["Moscow"], DefaultMarker, DefaultBackground);
    SceneSingleCity(store.cities, "Moscow", DefaultMarker, DefaultBackground);
  }
}

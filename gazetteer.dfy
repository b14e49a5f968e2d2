/**
 * The two tables of the bot's SQLite database and the read-only queries
 * over them: `cities(id, city, lat, lng)`, seeded outside the bot, and
 * `users_cities(user_id, city_id)`, which the bot only appends to.
 * Rows are kept in storage order; `fetchone()` yields the first matching row.
 */
module Gazetteer {
  import opened Wrappers

  /** One row of `cities`. */
  datatype CityRow = CityRow(id: int, name: string, lat: real, lng: real)

  /** One row of `users_cities`: a chat that remembered a city, by the city's id. */
  datatype Link = Link(userId: int, cityId: int)

  /** A `(lat, lng)` pair as `get_coordinates` returns it. */
  datatype Coord = Coord(lat: real, lng: real)

  function CoordOf(row: CityRow): Coord {
    Coord(row.lat, row.lng)
  }

  /** The `cities.id` column is a key: no two rows share an id. */
  predicate UniqueIds(cities: seq<CityRow>) {
    forall i, j :: 0 <= i < j < |cities| ==> cities[i].id != cities[j].id
  }

  /** No two rows share a name. */
  predicate UniqueNames(cities: seq<CityRow>) {
    forall i, j :: 0 <= i < j < |cities| ==> cities[i].name != cities[j].name
  }

  /** Position of the first row whose name equals `name` exactly (`WHERE city = ?` + `fetchone()`). */
  function FirstIndex(cities: seq<CityRow>, name: string): (r: Option<nat>)
    ensures r.None? <==> forall j :: 0 <= j < |cities| ==> cities[j].name != name
    ensures r.Some? ==> r.value < |cities| && cities[r.value].name == name
    ensures r.Some? ==> forall j :: 0 <= j < r.value ==> cities[j].name != name
  {
    if cities == [] then None
    else if cities[0].name == name then Some(0)
    else
      match FirstIndex(cities[1..], name)
      case None => None
      case Some(k) => Some(k + 1)
  }

  /**
   * `get_coordinates`: the coordinates of the first row named `name`, or
   * `None` when no row has exactly that name.
   */
  function GetCoordinates(cities: seq<CityRow>, name: string): (r: Option<Coord>)
    ensures r.None? <==> forall j :: 0 <= j < |cities| ==> cities[j].name != name
  {
    match FirstIndex(cities, name)
    case None => None
    case Some(k) => Some(CoordOf(cities[k]))
  }

  /** The row `get_coordinates` answers from is the first one whose name equals the argument exactly. */
  lemma GetCoordinatesFirstRow(cities: seq<CityRow>, name: string, k: nat)
    requires k < |cities| && cities[k].name == name
    requires forall j :: 0 <= j < k ==> cities[j].name != name
    ensures GetCoordinates(cities, name) == Some(CoordOf(cities[k]))
  {
    var r := FirstIndex(cities, name);
    assert r.Some? && r.value <= k;
  }

  /** With unique names, every registered city resolves to exactly its own row's coordinates. */
  lemma GetCoordinatesOfRow(cities: seq<CityRow>, k: nat)
    requires UniqueNames(cities) && k < |cities|
    ensures GetCoordinates(cities, cities[k].name) == Some(CoordOf(cities[k]))
  {
    GetCoordinatesFirstRow(cities, cities[k].name, k);
  }

  /** Names of the rows whose id is `id`, in storage order: the rows one link joins to. */
  function NamesWithId(cities: seq<CityRow>, id: int): (r: seq<string>)
    ensures |r| <= |cities|
    ensures forall s :: s in r ==> exists k :: 0 <= k < |cities| && cities[k].id == id && cities[k].name == s
  {
    if cities == [] then []
    else (if cities[0].id == id then [cities[0].name] else []) + NamesWithId(cities[1..], id)
  }

  /**
   * `select_cities`: `SELECT cities.city FROM users_cities JOIN cities ON
   * users_cities.city_id = cities.id WHERE users_cities.user_id = ?`,
   * ordered by link then by city row.
   */
  function Join(cities: seq<CityRow>, links: seq<Link>, user: int): (r: seq<string>)
    ensures forall s :: s in r ==> exists k :: 0 <= k < |cities| && cities[k].name == s
  {
    if links == [] then []
    else
      var last := links[|links| - 1];
      Join(cities, links[..|links| - 1], user)
        + (if last.userId == user then NamesWithId(cities, last.cityId) else [])
  }

  /** With unique ids, a link to row `k` joins to exactly that row's name. */
  lemma {:induction false} NamesWithIdOfRow(cities: seq<CityRow>, k: nat)
    requires UniqueIds(cities) && k < |cities|
    ensures NamesWithId(cities, cities[k].id) == [cities[k].name]
  {
    if k == 0 {
      NamesWithIdAbsent(cities[1..], cities[0].id);
    } else {
      assert cities[0].id != cities[k].id;
      assert cities[1..][k - 1] == cities[k];
      NamesWithIdOfRow(cities[1..], k - 1);
    }
  }

  lemma {:induction false} NamesWithIdAbsent(cities: seq<CityRow>, id: int)
    requires forall j :: 0 <= j < |cities| ==> cities[j].id != id
    ensures NamesWithId(cities, id) == []
  {
    if cities != [] {
      NamesWithIdAbsent(cities[1..], id);
    }
  }

  /** Every listed name is the name of a row that one of the user's links points to. */
  lemma {:induction false} JoinSound(cities: seq<CityRow>, links: seq<Link>, user: int, s: string)
    requires s in Join(cities, links, user)
    ensures exists i, k :: 0 <= i < |links| && 0 <= k < |cities| && links[i].userId == user
                           && cities[k].id == links[i].cityId && cities[k].name == s
  {
    var init := links[..|links| - 1];
    var last := links[|links| - 1];
    if s in Join(cities, init, user) {
      JoinSound(cities, init, user, s);
      var i, k :| 0 <= i < |init| && 0 <= k < |cities| && init[i].userId == user
                  && cities[k].id == init[i].cityId && cities[k].name == s;
      assert links[i] == init[i];
    } else {
      assert s in NamesWithId(cities, last.cityId);
      assert links[|links| - 1] == last;
    }
  }

  /** A link to an id lists the name of every row carrying that id. */
  lemma {:induction false} NamesWithIdHas(cities: seq<CityRow>, k: nat)
    requires k < |cities|
    ensures cities[k].name in NamesWithId(cities, cities[k].id)
  {
    if k > 0 {
      assert cities[1..][k - 1] == cities[k];
      NamesWithIdHas(cities[1..], k - 1);
    }
  }

  /** Every row one of the user's links points to has its name listed. */
  lemma {:induction false} JoinComplete(cities: seq<CityRow>, links: seq<Link>, user: int, i: nat, k: nat)
    requires i < |links| && k < |cities|
    requires links[i].userId == user && cities[k].id == links[i].cityId
    ensures cities[k].name in Join(cities, links, user)
  {
    var init := links[..|links| - 1];
    if i == |links| - 1 {
      NamesWithIdHas(cities, k);
    } else {
      assert init[i] == links[i];
      JoinComplete(cities, init, user, i, k);
    }
  }

  /** A user with no links has an empty list (`[]`, not an error). */
  lemma {:induction false} JoinNoLinks(cities: seq<CityRow>, links: seq<Link>, user: int)
    requires forall i :: 0 <= i < |links| ==> links[i].userId != user
    ensures Join(cities, links, user) == []
  {
    if links != [] {
      JoinNoLinks(cities, links[..|links| - 1], user);
    }
  }

  /** Another user's link never shows up in this user's list. */
  lemma JoinOtherUser(cities: seq<CityRow>, links: seq<Link>, user: int, l: Link)
    requires l.userId != user
    ensures Join(cities, links + [l], user) == Join(cities, links, user)
  {
    assert (links + [l])[..|links|] == links;
  }

  /** Appending a link of `user` to row `k` adds exactly that row's name to the user's list. */
  lemma JoinAppendOwn(cities: seq<CityRow>, links: seq<Link>, user: int, k: nat)
    requires UniqueIds(cities) && k < |cities|
    ensures multiset(Join(cities, links + [Link(user, cities[k].id)], user))
            == multiset(Join(cities, links, user)) + multiset{cities[k].name}
  {
    assert (links + [Link(user, cities[k].id)])[..|links|] == links;
    NamesWithIdOfRow(cities, k);
  }

  /** Not idempotent: the same link appended twice lists the name twice more. */
  lemma JoinDuplicateLink(cities: seq<CityRow>, links: seq<Link>, user: int, k: nat)
    requires UniqueIds(cities) && k < |cities|
    ensures var l := Link(user, cities[k].id);
            multiset(Join(cities, links + [l, l], user))[cities[k].name]
            == multiset(Join(cities, links, user))[cities[k].name] + 2
  {
    var l := Link(user, cities[k].id);
    var once := links + [l];
    assert links + [l, l] == once + [l];
    JoinAppendOwn(cities, links, user, k);
    JoinAppendOwn(cities, once, user, k);
  }
}

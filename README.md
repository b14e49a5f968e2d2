# City-map bot: the store, the map scene and the command replies

This project models the core of a small Telegram bot in Dafny. The bot looks up a city's
coordinates, remembers cities per chat and sends maps with the cities marked on them.
The model has three parts, one Dafny module or more each:

- **The city store (`DB_Map`)**.
  - `Gazetteer` holds the two SQLite tables as sequences of rows: `cities(id, city, lat, lng)`
    and `users_cities(user_id, city_id)`.
  - It also holds the read-only queries over them: `get_coordinates`, and the join behind
    `select_cities`.
  - `Logic.DbMap` is the class. Its fields are the two tables and a flag saying whether
    `users_cities` exists.
  - Its methods are `create_user_table` (create the links table if absent), `add_city`
    (append one link only when the name is found) and `select_cities`.
  - Querying or inserting into a missing `users_cities` raises in the source. In the model
    that is `Failure(NoSuchTable)`.
- **The map scene (`create_graph`)**.
  - `MapScene` describes what is drawn, as a value: the base layer, one marker plus one
    offset label per resolvable name in input order, and the viewport
    `[min lng - 2, max lng + 2, min lat - 2, max lat + 2]`.
  - `SceneOf` is the specification of that scene.
  - `Logic.DbMap.CreateGraph` is the loop that draws it, proved equal to `SceneOf`.
- **The command handlers (bot.py)**.
  - `CommandText` models Python's `str.split(maxsplit=1)`. It drops leading whitespace,
    takes the first word, drops the whitespace run after it, and keeps the rest whole,
    trailing whitespace included.
  - `Bot` holds the handlers `/show_city`, `/remember_city` and `/show_my_cities`. Each
    returns the reply it sends: a text or a photo of a scene, addressed to the message's
    chat.

The source defines `DB_Map` three times (logic.py:10-93, logic.py:110-150, bot.py:86-162).
The model merges them into one class:

- The storage methods come from logic.py:14-60.
- `create_graph` takes the parameterised form of logic.py:117-146. Called with its defaults
  `'ro'` and `'default'`, it draws exactly what the earlier forms at logic.py:62-89 and
  bot.py:135-162 draw.
- The bot.py copy of `add_city` (bot.py:100-112) returns `True`/`False` where logic.py
  returns `1`/`0`. Both are modelled by one `bool` result.

The model follows the code:

- An unrecognised `background_type` draws no base layer. It is not an error.
- A list with no resolvable name draws a map with no viewport set. It is not an error.
- `get_coordinates` returns the first row whose name matches; names need not be unique.
- Trailing whitespace after a city name is kept, so `"Moscow "` is an unknown city.

## Model

| member | source | states |
|---|---|---|
| `Gazetteer.FirstIndex` | logic.py:28-29 | `fetchone()` on `WHERE city = ?`: the first row whose name is exactly the given name, or none exactly when no row has that name |
| `Gazetteer.GetCoordinates` | logic.py:52-60 | `None` if and only if no row's name equals the argument exactly |
| `Gazetteer.GetCoordinatesFirstRow` | logic.py:56-60 | the answer is `(lat, lng)` of the first row whose name equals the argument exactly |
| `Gazetteer.GetCoordinatesOfRow` | logic.py:56-60 | with unique names, every registered city resolves to exactly its own row's coordinates |
| `Gazetteer.NamesWithId` | logic.py:43-46 | the rows one link joins to all carry the link's city id |
| `Gazetteer.NamesWithIdOfRow` | logic.py:45 | with unique ids, a link to a row joins to exactly that row's name |
| `Gazetteer.NamesWithIdAbsent` | logic.py:45 | a link to an id no row has joins to nothing |
| `Gazetteer.Join` | logic.py:43-48 | the join: every listed name is the name of some stored city |
| `Gazetteer.NamesWithIdHas` | logic.py:45 | a link to an id joins to the name of every row carrying that id |
| `Gazetteer.JoinComplete` | logic.py:43-48 | every row one of `u`'s links points to has its name in `u`'s list |
| `Gazetteer.JoinSound` | logic.py:39-49 | every name `select_cities(u)` lists is the name of a row that one of `u`'s links points to |
| `Gazetteer.JoinNoLinks` | logic.py:39-49 | a user with no links gets `[]`, not an error |
| `Gazetteer.JoinOtherUser` | logic.py:46 | a link of another user never appears in this user's list |
| `Gazetteer.JoinAppendOwn` | logic.py:32 | appending a link of `u` to a row adds exactly that row's name to `u`'s list, as multisets |
| `Gazetteer.JoinDuplicateLink` | logic.py:32 | not idempotent: the same link appended twice lists the name twice more |
| `Logic.DbMap.constructor` | logic.py:11-12 | opens a database with the given `cities` rows and, if it already exists, a `users_cities` table with its rows |
| `Logic.DbMap.CreateUserTable` | logic.py:14-22 | afterwards the links table exists and its rows and `cities` are what they were, so repeating it changes nothing |
| `Logic.DbMap.AddCity` | logic.py:24-36 | known name and table present: appends exactly one link from the user to the first matching row and answers true; unknown name: answers false and writes nothing; known name and no table: raises and writes nothing; `cities` never changes |
| `Logic.DbMap.SelectCities` | logic.py:39-49 | raises if and only if `users_cities` is missing; otherwise the listed names are exactly the names of the rows linked to the user: each listed name belongs to such a row, and each such row's name is listed |
| `Logic.StoreScenario` | logic.py:24-60 | with Moscow and Tokyo seeded, saving Moscow answers true, saving Berlin answers false, the chat's list is exactly `["Moscow"]` and its map's viewport is `[35.62, 39.62, 53.75, 57.75]` |
| `Logic.DbMap.CreateGraph` | logic.py:117-146 | the loop over the names builds exactly the scene `SceneOf` describes, whose properties the `Scene*` and `Resolved*` lemmas state |
| `MapScene.BaseLayerFor` | logic.py:121-130 | `'default'` and only it gives the vector features, `'image'` and only it gives terrain tiles at zoom 8 |
| `MapScene.SceneOf` | logic.py:117-146 | what `create_graph` draws: no more pins than names, nothing for an empty list, and a viewport exactly when some pin is drawn |
| `MapScene.Resolved` | logic.py:132-135 | no more places than names |
| `MapScene.MinOf` | logic.py:143 | `min`: an element of the list, no larger than any element |
| `MapScene.MaxOf` | logic.py:143 | `max`: an element of the list, no smaller than any element |
| `MapScene.Frame` | logic.py:139-143 | no viewport exactly when nothing resolved; otherwise every point is at least 2 degrees inside each edge and each edge is exactly 2 degrees beyond some point |
| `MapScene.ResolvedSound` | logic.py:132-135 | only names from the input that resolve are placed, each at the coordinates `get_coordinates` gives |
| `MapScene.ResolvedEmptyIff` | logic.py:132-135 | nothing is placed if and only if no name resolves, so unresolvable names are skipped without error |
| `MapScene.ResolvedAppend` | logic.py:132 | places keep the input order: resolving `a + b` gives the places of `a` then those of `b` |
| `MapScene.ResolvedAllKnown` | logic.py:132-137 | when every name resolves, one place per name, name for name, duplicates included |
| `MapScene.SceneExtentIff` | logic.py:139-143 | a viewport is set if and only if some name resolves; an empty list sets none |
| `MapScene.ScenePinsFramed` | logic.py:132-143 | each pin is a marker in `marker_color`, size 5, at a resolved name's `(lng, lat)`, labelled with that name at `(lng + 0.5, lat + 0.5)`, at least 2 degrees inside each viewport edge |
| `MapScene.SceneSingleCity` | logic.py:132-143 | a single known city is drawn alone with the viewport `[lng-2, lng+2, lat-2, lat+2]` |
| `MapScene.SceneBaseLayer` | logic.py:121-130 | `'default'` gives the six vector features (dotted borders, half-transparent lakes), `'image'` gives terrain tiles at zoom 8, and any other value gives no base layer |
| `MapScene.FrameOfTwo` | logic.py:140-143 | any two places, in either order, are framed by the smaller and the larger of their longitudes and latitudes, widened by 2 degrees |
| `MapScene.ResolvedSkipsUnknown` | logic.py:132-135 | Moscow and Tokyo resolve in input order; the unknown Berlin between them is skipped |
| `MapScene.SceneTwoCities` | logic.py:140-143 | Moscow and Tokyo with an unknown Berlin between them: the viewport is `[35.62, 141.69, 33.68, 57.75]` |
| `CommandText.IsSpace` | bot.py:31 | the separators of `split()`: space, tab and newline are whitespace, no printable ASCII character other than space is |
| `CommandText.SkipSpaces` | bot.py:31 | the whitespace run starting at a position: all whitespace, followed by a non-whitespace character or the end |
| `CommandText.SkipWord` | bot.py:31 | the word starting at a position: no whitespace, followed by whitespace or the end |
| `CommandText.SplitOnce` | bot.py:31 | at most two parts, none empty; the first is a word; the second starts with non-whitespace and is a suffix of the text |
| `CommandText.SkipSpacesTo` | bot.py:31 | a whitespace run ends exactly at the first non-whitespace character after its start |
| `CommandText.SkipWordTo` | bot.py:31 | a word ends exactly at the first whitespace character after its start |
| `CommandText.SplitOnceOfCommand` | bot.py:31 | whitespace, a command word, whitespace, then an argument: splits into exactly the command word and the whole argument |
| `CommandText.SplitOnceHasArgumentIff` | bot.py:31-32 | there is an argument if and only if the text holds a non-whitespace character, later a whitespace character and later again a non-whitespace one |
| `CommandText.SplitOnceOfWords` | bot.py:31 | a command word, one space and an argument starting with non-whitespace split into exactly that word and that whole argument |
| `CommandText.SplitOnceKeepsCityWhole` | bot.py:31 | `"/show_city New York"` gives the argument `"New York"` |
| `CommandText.SplitOnceKeepsTrailingSpace` | bot.py:50 | `"/remember_city Moscow "` gives the argument `"Moscow "`, trailing space kept |
| `Bot.CityArgument` | bot.py:31 | `split(maxsplit=1)[1:]` is empty or a single name starting with non-whitespace |
| `Bot.ShowCity` | bot.py:29-44 | no argument: only the usage prompt; a photo if and only if the name resolves, of the scene `create_graph` draws for that one name with the default marker and background; otherwise the unknown-city text; always to the sender's chat |
| `Bot.ShowCityPhoto` | bot.py:38-40 | the `/show_city` photo shows that city alone, a red marker over the vector base layer, with a viewport of ±2 degrees around it |
| `Bot.RememberCity` | bot.py:47-59 | no argument: only the usage prompt, store untouched; a known name: the link is saved under the chat id and the confirmation names the city; an unknown name: the unknown-city text and nothing saved |
| `Bot.ShowMyCities` | bot.py:61-71 | raises if and only if the links table is missing; the no-cities text if and only if the chat saved nothing; otherwise exactly the scene `create_graph` draws for the saved names with the default marker and background, whose pins are the saved names in order, duplicates included, with a viewport set |
| `Bot.SavedCitiesResolve` | bot.py:63-65 | every saved name resolves, so the map of saved cities skips none |
| `Bot.RememberedOnlyInSameChat` | bot.py:49-63 | saving a city in one chat adds it once to that chat's list and leaves every other chat's list as it was |

## Left out

- Telegram I/O is not modelled: `TeleBot`, `polling`, `send_message` and `send_photo`. Handlers return the reply instead of sending it.
- The `/start` and `/help` replies are not modelled. They are fixed texts.
- Rendering is not modelled: matplotlib/cartopy drawing, the plate carrée and geodetic transforms, `savefig`, `close`, and fetching the `StamenTerrain` tiles. A scene value stands in for the image.
- The image path and the temporary file's open and removal are file I/O and are not modelled.
- SQLite connection handling is not modelled. Of the storage errors, only the missing `users_cities` table is modelled. Other connection or I/O failures are left out.
- SQL type affinity (`city_id TEXT` against `cities.id`) is not modelled. Ids compare as integers.
- `fetchone()` returns the first matching row in storage order. SQL does not promise that order.
- Gazetteer.JoinAppendOwn: stated as multisets, because SQL leaves the order of join results unspecified. The model's `Join` orders results by link, then by city row.
- Coordinates are `real`, not IEEE floats. Only `min`, `max` and adding constants occur.
- `draw_distance` (logic.py:92-93, logic.py:149-150) is not modelled. It has no body.
- The `__main__` demo blocks and the `config` module are not modelled.
- Python's class shadowing is not modelled. At bot.py:76-77 the shadowing class from logic.py:110 lacks `create_user_table`, so that call would fail. The model merges the three `DB_Map` definitions into one class instead.
- Python's whitespace test (`str.isspace`) is modelled as a fixed list of characters.

/**
 * The command handlers of the bot, as the reply each one sends for a
 * message. Sending, the temporary image file and polling are the messaging
 * library's business and are not modelled; a reply names the chat it goes
 * to and either a text or the scene of the map photo.
 */
module Bot {
  import opened Wrappers
  import opened Gazetteer
  import opened MapScene
  import opened Logic
  import opened CommandText

  const UnknownCity: string := "Такого города я не знаю. Убедись, что он написан на английском!"
  const NoCitiesYet: string := "Вы еще не добавили ни одного города."

  /** The prompt sent when a command comes without a city name. */
  function UsagePrompt(command: string): string {
    "Введите название города после команды " + command
  }

  /** `f'Город {city_name} успешно сохранен!'`. */
  function SavedConfirmation(city: string): string {
    "Город " + city + " успешно сохранен!"
  }

  /** The parts of an incoming message the handlers use. */
  datatype Message = Message(chatId: int, text: string)

  datatype Reply =
    | SendMessage(chatId: int, text: string)
    | SendPhoto(chatId: int, scene: Scene)

  /** `message.text.split(maxsplit=1)[1:]`: empty, or the city name alone. */
  function CityArgument(text: string): (r: seq<string>)
    ensures |r| <= 1
    ensures r != [] ==> r[0] != [] && !IsSpace(r[0][0])
  {
    var parts := SplitOnce(text);
    if parts == [] then [] else parts[1..]
  }

  /**
   * `/show_city <name>`: the usage prompt when no name follows the command;
   * otherwise the single-city map when the name is known, else the
   * unknown-city message.
   */
  function ShowCity(store: DbMap, msg: Message): (r: Reply)
    reads store
    ensures r.chatId == msg.chatId
    ensures CityArgument(msg.text) == [] ==> r == SendMessage(msg.chatId, UsagePrompt("/show_city"))
    ensures r.SendPhoto? <==> CityArgument(msg.text) != [] && GetCoordinates(store.cities, CityArgument(msg.text)[0]).Some?
    ensures r.SendMessage? && CityArgument(msg.text) != [] ==> r.text == UnknownCity
    ensures r.SendPhoto? ==> r.scene == SceneOf(store.cities, CityArgument(msg.text), DefaultMarker, DefaultBackground)
  {
    var argument := CityArgument(msg.text);
    if argument == [] then
      SendMessage(msg.chatId, UsagePrompt("/show_city"))
    else if GetCoordinates(store.cities, argument[0]).Some? then
      SendPhoto(msg.chatId, SceneOf(store.cities, argument, DefaultMarker, DefaultBackground))
    else
      SendMessage(msg.chatId, UnknownCity)
  }

  /**
   * The `/show_city` map shows the named city alone, with the default red
   * marker over the vector base layer, in a viewport of 2 degrees around it.
   */
  lemma ShowCityPhoto(store: DbMap, msg: Message, name: string, c: Coord)
    requires CityArgument(msg.text) == [name] && GetCoordinates(store.cities, name) == Some(c)
    ensures ShowCity(store, msg)
            == SendPhoto(msg.chatId,
                         Scene(Features(VectorFeatures),
                               [Pin(Marker(c.lng, c.lat, DefaultMarker, MarkerSize), Label(c.lng + 0.5, c.lat + 0.5, name))],
                               Some(Viewport(c.lng - 2.0, c.lng + 2.0, c.lat - 2.0, c.lat + 2.0))))
  {
    SceneSingleCity(store.cities, name, DefaultMarker, DefaultBackground);
  }

  /**
   * `/remember_city <name>`: the usage prompt when no name follows the
   * command; otherwise saves the city for this chat and confirms by name when
   * it is known, else sends the unknown-city message and saves nothing.
   */
  method RememberCity(store: DbMap, msg: Message) returns (r: Result<Reply, StoreError>)
    requires store.Valid()
    modifies store
    ensures store.Valid()
    ensures store.cities == old(store.cities) && store.hasLinksTable == old(store.hasLinksTable)
    ensures CityArgument(msg.text) == [] ==>
              r == Success(SendMessage(msg.chatId, UsagePrompt("/remember_city"))) && store.links == old(store.links)
    ensures CityArgument(msg.text) != [] && FirstIndex(store.cities, CityArgument(msg.text)[0]).None? ==>
              r == Success(SendMessage(msg.chatId, UnknownCity)) && store.links == old(store.links)
    ensures CityArgument(msg.text) != [] && FirstIndex(store.cities, CityArgument(msg.text)[0]).Some? ==>
              var name := CityArgument(msg.text)[0];
              var row := store.cities[FirstIndex(store.cities, name).value];
              if store.hasLinksTable then
                r == Success(SendMessage(msg.chatId, SavedConfirmation(name)))
                && store.links == old(store.links) + [Link(msg.chatId, row.id)]
              else
                r == Failure(NoSuchTable) && store.links == old(store.links)
  {
    var argument := CityArgument(msg.text);
    if argument == [] {
      return Success(SendMessage(msg.chatId, UsagePrompt("/remember_city")));
    }
    var name := argument[0];
    var added := store.AddCity(msg.chatId, name);
    match added
    case Failure(e) =>
      r := Failure(e);
    case Success(true) =>
      r := Success(SendMessage(msg.chatId, SavedConfirmation(name)));
    case Success(false) =>
      r := Success(SendMessage(msg.chatId, UnknownCity));
  }

  /**
   * `/show_my_cities`: the map of every city saved in this chat, duplicates
   * included and in the listed order, or the no-cities message when nothing
   * is saved.
   */
  function ShowMyCities(store: DbMap, msg: Message): (r: Result<Reply, StoreError>)
    reads store
    ensures r.Failure? <==> !store.hasLinksTable
    ensures r.Success? ==> r.value.chatId == msg.chatId
    ensures r.Success? ==>
              var saved := Join(store.cities, store.links, msg.chatId);
              && (r.value.SendMessage? <==> saved == [])
              && (r.value.SendMessage? ==> r.value.text == NoCitiesYet)
              && (r.value.SendPhoto? ==>
                    && r.value.scene == SceneOf(store.cities, saved, DefaultMarker, DefaultBackground)
                    && r.value.scene.extent.Some?
                    && |r.value.scene.pins| == |saved|
                    && forall k :: 0 <= k < |saved| ==> r.value.scene.pins[k].caption.text == saved[k])
  {
    match store.SelectCities(msg.chatId)
    case Failure(e) => Failure(e)
    case Success(cities) =>
      if cities != [] then
        SavedCitiesResolve(store.cities, store.links, msg.chatId);
        ResolvedAllKnown(store.cities, cities);
        ResolvedEmptyIff(store.cities, cities);
        Success(SendPhoto(msg.chatId, SceneOf(store.cities, cities, DefaultMarker, DefaultBackground)))
      else
        Success(SendMessage(msg.chatId, NoCitiesYet))
  }

  /** Every saved name is the name of some city, so `get_coordinates` finds it. */
  lemma SavedCitiesResolve(cities: seq<CityRow>, links: seq<Link>, chat: int)
    ensures forall i :: 0 <= i < |Join(cities, links, chat)| ==>
              GetCoordinates(cities, Join(cities, links, chat)[i]).Some?
  {
    var saved := Join(cities, links, chat);
    forall i | 0 <= i < |saved|
      ensures GetCoordinates(cities, saved[i]).Some?
    {
      JoinSound(cities, links, chat, saved[i]);
    }
  }

  /**
   * Cities are saved and listed per chat: remembering a city in one chat
   * adds it once to that chat's list and leaves every other chat's list as
   * it was.
   */
  lemma RememberedOnlyInSameChat(cities: seq<CityRow>, links: seq<Link>, chat: int, other: int, k: nat)
    requires UniqueIds(cities) && k < |cities| && other != chat
    ensures var after := links + [Link(chat, cities[k].id)];
            && multiset(Join(cities, after, chat)) == multiset(Join(cities, links, chat)) + multiset{cities[k].name}
            && Join(cities, after, other) == Join(cities, links, other)
  {
    JoinAppendOwn(cities, links, chat, k);
    JoinOtherUser(cities, links, other, Link(chat, cities[k].id));
  }
}

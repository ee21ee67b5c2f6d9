/** The client of the presence service: four resources fetched on demand, three
    of them kept for the client's lifetime, and the choice of the primary home.
    The HTTP session is replaced by `RemoteApi`, a server whose resources are
    fields and which records every URL it is asked for. */
module Client {
  import opened Base
  import opened Models
  import Text
  import Dicts

  function HomeKey(h: Models.Home): string { h.id }
  function PersonKey(p: Person): string { p.id }
  function RoomKey(r: Room): string { r.id }

  /** Why the primary home could not be chosen; both kinds list the ids of
      the homes that do exist, in catalog order. */
  datatype HomeError =
    | HomeNotFound(requested: string, available: seq<string>)
    | AmbiguousHome(available: seq<string>)
  {
    /** The sentence before the list of available homes. */
    function Lead(): string {
      match this
      case HomeNotFound(requested, _) => "Home '" + requested + "' not found. Available homes: "
      case AmbiguousHome(_) =>
        "You have multiple homes, please specify the 'home_id' in the configuration. Available homes: "
    }

    /** The error's text: the lead sentence, then the available ids joined
        by ", ". */
    function Message(): (r: string)
      ensures |r| == |Lead()| + |Text.Join(available, ", ")|
      ensures r[..|Lead()|] == Lead() && r[|Lead()|..] == Text.Join(available, ", ")
    {
      Lead() + Text.Join(available, ", ")
    }
  }

  /** The message names every available home, and the requested one when a
      configured id was not found. */
  lemma MessageListsAvailableHomes(e: HomeError)
    ensures forall i :: 0 <= i < |e.available| ==> Text.IsInfix(e.available[i], e.Message())
    ensures e.HomeNotFound? ==> Text.IsInfix(e.requested, e.Message())
  {
    var joined := Text.Join(e.available, ", ");
    assert e.Message() == e.Lead() + joined + "";
    forall i | 0 <= i < |e.available|
      ensures Text.IsInfix(e.available[i], e.Message())
    {
      Text.JoinContainsEach(e.available, ", ", i);
      Text.InfixInContext(e.available[i], joined, e.Lead(), "");
    }
    if e.HomeNotFound? {
      var m := e.Message();
      assert m[6..6 + |e.requested|] == e.requested;
      assert Text.OccursAt(e.requested, m, 6);
    }
  }

  /** The primary home: the configured one when an id is configured, else the
      only home; otherwise an error listing the available ids. */
  function SelectHome(homeId: Option<string>, homes: Dicts.Dict<Models.Home>): (r: Result<Models.Home, HomeError>)
    requires homes.Valid()
    ensures r.Failure? ==> r.error.available == homes.keys
    ensures Truthy(homeId) ==> (r.Success? <==> homeId.value in homes.entries)
    ensures Truthy(homeId) && r.Success? ==> r.value == homes.entries[homeId.value]
    ensures Truthy(homeId) && r.Failure? ==> r.error == HomeNotFound(homeId.value, homes.keys)
    ensures !Truthy(homeId) ==> (r.Success? <==> |homes.keys| == 1)
    ensures !Truthy(homeId) && r.Success? ==> r.value == homes.entries[homes.keys[0]]
    ensures !Truthy(homeId) && r.Failure? ==> r.error == AmbiguousHome(homes.keys)
  {
    if Truthy(homeId) then
      if homeId.value !in homes.entries then Failure(HomeNotFound(homeId.value, homes.keys))
      else Success(homes.entries[homeId.value])
    else if |homes.keys| == 1 then Success(homes.entries[homes.keys[0]])
    else Failure(AmbiguousHome(homes.keys))
  }

  /** Choosing from a fetched catalog: a configured id is found exactly when a
      listed home has it, and then that home is chosen; with no id the choice
      succeeds exactly when all listed homes share one id; every error lists
      exactly the listed ids. */
  lemma SelectHomeFromCatalog(homeId: Option<string>, catalog: seq<Models.Home>)
    ensures var r := SelectHome(homeId, Dicts.FromList(catalog, HomeKey));
            && (r.Success? ==> r.value in catalog)
            && (Truthy(homeId) ==> (r.Success? <==> exists i :: 0 <= i < |catalog| && catalog[i].id == homeId.value))
            && (Truthy(homeId) && r.Success? ==> r.value.id == homeId.value)
            && (!Truthy(homeId) ==> (r.Success? <==> |catalog| > 0 && forall i :: 0 <= i < |catalog| ==> catalog[i].id == catalog[0].id))
            && (r.Failure? ==> forall k :: k in r.error.available <==> exists i :: 0 <= i < |catalog| && catalog[i].id == k)
  {
    var d := Dicts.FromList(catalog, HomeKey);
    var r := SelectHome(homeId, d);
    forall k ensures k in d.entries <==> exists i :: 0 <= i < |catalog| && HomeKey(catalog[i]) == k {
      Dicts.FromListKeys(catalog, HomeKey, k);
    }
    if r.Success? {
      var k := if Truthy(homeId) then homeId.value else d.keys[0];
      Dicts.FromListValues(catalog, HomeKey, k);
    }
    if !Truthy(homeId) {
      if |d.keys| == 1 {
        assert |catalog| > 0 by {
          assert d.keys[0] in d.entries;
        }
        forall i | 0 <= i < |catalog| ensures catalog[i].id == catalog[0].id {
          assert HomeKey(catalog[i]) in d.entries && HomeKey(catalog[0]) in d.entries;
          assert catalog[i].id in d.keys && catalog[0].id in d.keys;
        }
      }
      if |catalog| > 0 && forall i :: 0 <= i < |catalog| ==> catalog[i].id == catalog[0].id {
        Dicts.FromListSingleKey(catalog, HomeKey, catalog[0].id);
      }
    }
  }

  /** The service, seen from the client: the resources it serves and the log of
      the URLs it was asked for. */
  class RemoteApi {
    var me: Models.Connection
    var homes: seq<Models.Home>
    var people: seq<Person>
    var connectedPeople: seq<ConnectedPerson>
    var requests: seq<string>

    constructor (me: Models.Connection, homes: seq<Models.Home>, people: seq<Person>,
                 connectedPeople: seq<ConnectedPerson>)
      ensures this.me == me && this.homes == homes && this.people == people
      ensures this.connectedPeople == connectedPeople && requests == []
    {
      this.me := me;
      this.homes := homes;
      this.people := people;
      this.connectedPeople := connectedPeople;
      requests := [];
    }

    method GetMe(url: string) returns (c: Models.Connection)
      modifies this`requests
      ensures c == me && requests == old(requests) + [url]
    {
      c := me;
      requests := requests + [url];
    }

    method GetHomes(url: string) returns (hs: seq<Models.Home>)
      modifies this`requests
      ensures hs == homes && requests == old(requests) + [url]
    {
      hs := homes;
      requests := requests + [url];
    }

    method GetPeople(url: string) returns (ps: seq<Person>)
      modifies this`requests
      ensures ps == people && requests == old(requests) + [url]
    {
      ps := people;
      requests := requests + [url];
    }

    method GetConnectedPeople(url: string) returns (cs: seq<ConnectedPerson>)
      modifies this`requests
      ensures cs == connectedPeople && requests == old(requests) + [url]
    {
      cs := connectedPeople;
      requests := requests + [url];
    }
  }

  class WelkomClient {
    const id: string
    const url: string
    /** The configured home id, if any. */
    const homeId: Option<string>
    const api: RemoteApi

    // The caches; `None` until first use.
    var connection: Option<Models.Connection>
    var homes: Option<Dicts.Dict<Models.Home>>
    var home: Option<Models.Home>
    var rooms: Option<Dicts.Dict<Room>>
    var people: Option<Dicts.Dict<Person>>

    /** The caches agree with each other: a cached home is the one the cached
        catalog selects, and cached rooms are that home's rooms. */
    ghost predicate Valid()
      reads this
    {
      && (homes.Some? ==> homes.value.Valid())
      && (people.Some? ==> people.value.Valid())
      && (home.Some? ==> homes.Some? && SelectHome(homeId, homes.value) == Success(home.value))
      && (rooms.Some? ==> home.Some? && rooms.value == Dicts.FromList(home.value.rooms, RoomKey))
    }

    /** The home catalog as the client sees it: the cached one, or the one the
        next access would fetch. */
    ghost function HomesView(): (d: Dicts.Dict<Models.Home>)
      requires Valid()
      reads this, api`homes
      ensures d.Valid()
    {
      if homes.Some? then homes.value else Dicts.FromList(api.homes, HomeKey)
    }

    /** What the `home` property yields, now and on every later access. */
    ghost function PrimaryHome(): Result<Models.Home, HomeError>
      requires Valid()
      reads this, api`homes
    {
      SelectHome(homeId, HomesView())
    }

    /** What the `rooms` property yields: the primary home's rooms by id. */
    ghost function RoomsView(): Result<Dicts.Dict<Room>, HomeError>
      requires Valid()
      reads this, api`homes
    {
      match PrimaryHome()
      case Success(h) => Success(Dicts.FromList(h.rooms, RoomKey))
      case Failure(e) => Failure(e)
    }

    constructor (id: string, url: string, homeId: Option<string>, api: RemoteApi)
      ensures this.id == id && this.url == url && this.homeId == homeId && this.api == api
      ensures connection.None? && homes.None? && home.None? && rooms.None? && people.None?
      ensures Valid()
    {
      this.id := id;
      this.url := url;
      this.homeId := homeId;
      this.api := api;
      connection, homes, home, rooms, people := None, None, None, None, None;
    }

    /** `client_<id>`. */
    function UniqueId(): (r: string)
      ensures |r| == 7 + |id| && r[..7] == "client_" && r[7..] == id
    {
      "client_" + id
    }

    /** The `connection` property: fetched from `/api/me` once, then cached. */
    method Connection() returns (c: Models.Connection)
      modifies this`connection, api`requests
      ensures connection == Some(c)
      ensures old(connection).Some? ==> c == old(connection).value && api.requests == old(api.requests)
      ensures old(connection).None? ==> c == api.me && api.requests == old(api.requests) + [url + "/api/me"]
    {
      if connection.None? {
        var fetched := api.GetMe(url + "/api/me");
        connection := Some(fetched);
      }
      c := connection.value;
    }

    /** The `homes` property: the catalog from `/api/homes` keyed by id,
        fetched once, then cached. */
    method Homes() returns (r: Dicts.Dict<Models.Home>)
      requires Valid()
      modifies this`homes, api`requests
      ensures Valid()
      ensures r == old(HomesView()) && homes == Some(r)
      ensures api.requests == old(api.requests) + (if old(homes).None? then [url + "/api/homes"] else [])
    {
      if homes.None? {
        var fetched := api.GetHomes(url + "/api/homes");
        homes := Some(Dicts.FromList(fetched, HomeKey));
      }
      r := homes.value;
    }

    /** The `people` property: the people from `/api/people` keyed by id,
        fetched once, then cached. */
    method People() returns (r: Dicts.Dict<Person>)
      requires Valid()
      modifies this`people, api`requests
      ensures Valid()
      ensures people == Some(r)
      ensures old(people).Some? ==> r == old(people).value && api.requests == old(api.requests)
      ensures old(people).None? ==> r == Dicts.FromList(api.people, PersonKey)
      ensures old(people).None? ==> api.requests == old(api.requests) + [url + "/api/people"]
    {
      if people.None? {
        var fetched := api.GetPeople(url + "/api/people");
        people := Some(Dicts.FromList(fetched, PersonKey));
      }
      r := people.value;
    }

    /** The `home` property: the primary home, chosen once and then cached; a
        failed choice caches no home (the catalog fetched for it stays cached)
        and fails again on the next access. */
    method Home() returns (r: Result<Models.Home, HomeError>)
      requires Valid()
      modifies this`homes, this`home, api`requests
      ensures Valid()
      ensures r == old(PrimaryHome()) && PrimaryHome() == old(PrimaryHome())
      ensures home == (if r.Success? then Some(r.value) else old(home))
      ensures homes == (if old(home).Some? then old(homes) else Some(old(HomesView())))
      ensures api.requests == old(api.requests) +
                (if old(home).None? && old(homes).None? then [url + "/api/homes"] else [])
    {
      if home.None? {
        var catalog := Homes();
        var selected := SelectHome(homeId, catalog);
        if selected.Failure? {
          return selected;
        }
        home := Some(selected.value);
      }
      r := Success(home.value);
    }

    /** The `rooms` property: the primary home's rooms keyed by id, built once
        and then cached. */
    method Rooms() returns (r: Result<Dicts.Dict<Room>, HomeError>)
      requires Valid()
      modifies this`homes, this`home, this`rooms, api`requests
      ensures Valid()
      ensures r == old(RoomsView()) && RoomsView() == old(RoomsView())
      ensures rooms == (if r.Success? then Some(r.value) else old(rooms))
      ensures old(rooms).Some? ==>
                homes == old(homes) && home == old(home) && api.requests == old(api.requests)
      ensures old(rooms).None? ==>
                home == (if old(PrimaryHome()).Success? then Some(old(PrimaryHome()).value) else old(home))
      ensures old(rooms).None? ==>
                homes == (if old(home).Some? then old(homes) else Some(old(HomesView())))
      ensures old(rooms).None? ==>
                api.requests == old(api.requests) +
                  (if old(home).None? && old(homes).None? then [url + "/api/homes"] else [])
    {
      if rooms.None? {
        var h := Home();
        if h.Failure? {
          return Failure(h.error);
        }
        rooms := Some(Dicts.FromList(h.value.rooms, RoomKey));
      }
      r := Success(rooms.value);
    }

    /** The `connected_people` property: never cached, every access asks the
        service again and returns its list as it came. */
    method ConnectedPeople() returns (r: seq<ConnectedPerson>)
      modifies api`requests
      ensures r == api.connectedPeople
      ensures api.requests == old(api.requests) + [url + "/api/homes/people"]
    {
      r := api.GetConnectedPeople(url + "/api/homes/people");
    }
  }

  /** Caching as a client of this class sees it: repeated accesses to the
      cached resources ask the service once and give the same value, the
      live list is asked for every time. */
  method RepeatedAccess(client: WelkomClient)
    returns (homes1: Dicts.Dict<Models.Home>, homes2: Dicts.Dict<Models.Home>,
             people1: Dicts.Dict<Person>, people2: Dicts.Dict<Person>)
    requires client.Valid()
    modifies client`homes, client`people, client.api`requests
    ensures homes1 == homes2 && people1 == people2
    ensures client.api.requests == old(client.api.requests)
              + (if old(client.homes).None? then [client.url + "/api/homes"] else [])
              + (if old(client.people).None? then [client.url + "/api/people"] else [])
              + [client.url + "/api/homes/people", client.url + "/api/homes/people"]
  {
    homes1 := client.Homes();
    homes2 := client.Homes();
    people1 := client.People();
    people2 := client.People();
    ghost var cached := client.api.requests;
    var _ := client.ConnectedPeople();
    var _ := client.ConnectedPeople();
    assert client.api.requests == cached + [client.url + "/api/homes/people"] + [client.url + "/api/homes/people"];
  }
}

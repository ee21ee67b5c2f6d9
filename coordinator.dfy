/** The update coordinator: every 30 seconds it asks the client for the
    connected people and folds them into per-home, per-room and per-person
    data for the sensors and trackers. */
module Coordinator {
  import opened Base
  import opened Models
  import opened Aggregation
  import Client
  import Text
  import Dicts

  /** The coordinator's refresh period. */
  const UpdateIntervalSeconds := 30

  class WelkomCoordinator {
    const client: Client.WelkomClient
    const name: string
    const updateIntervalSeconds: int
    /** Listeners are told only when the data changed. */
    const alwaysUpdate: bool

    constructor (client: Client.WelkomClient)
      ensures this.client == client
      ensures name == "Welkom (" + client.id + ")"
      ensures updateIntervalSeconds == UpdateIntervalSeconds && !alwaysUpdate
    {
      this.client := client;
      name := "Welkom (" + client.id + ")";
      updateIntervalSeconds := UpdateIntervalSeconds;
      alwaysUpdate := false;
    }

    /** `_async_setup`: warm the client's home catalog and people caches
        (one after the other here; the source awaits both together). */
    method Setup()
      requires client.Valid()
      modifies client`homes, client`people, client.api`requests
      ensures client.Valid()
      ensures client.homes == Some(old(client.HomesView()))
      ensures client.people.Some?
      ensures old(client.people).Some? ==> client.people == old(client.people)
      ensures old(client.people).None? ==> client.people == Some(Dicts.FromList(client.api.people, Client.PersonKey))
      ensures client.api.requests == old(client.api.requests)
                + (if old(client.homes).None? then [client.url + "/api/homes"] else [])
                + (if old(client.people).None? then [client.url + "/api/people"] else [])
    {
      var _ := client.Homes();
      var _ := client.People();
    }

    /** `_update_area_data`: one more person in the area. The counter goes up
        by one and the name is appended to `people` and to the known or the
        unknown list. */
    method UpdateAreaData(area: AreaData, conn: ConnectedPerson) returns (updated: AreaData)
      ensures updated == AddPerson(area, conn)
    {
      updated := area;
      updated := updated.(peopleCount := updated.peopleCount + 1);
      updated := updated.(people := updated.people + [conn.person.displayName]);
      if conn.known {
        updated := updated.(knownPeopleCount := updated.knownPeopleCount + 1);
        updated := updated.(knownPeople := updated.knownPeople + [conn.person.displayName]);
      } else {
        updated := updated.(unknownPeopleCount := updated.unknownPeopleCount + 1);
        updated := updated.(unknownPeople := updated.unknownPeople + [conn.person.displayName]);
      }
    }

    /** `areas[key]` on a `defaultdict` (the default aggregate when the key
        is new), updated by `_update_area_data`. */
    method CountIn(areas: map<string, AreaData>, key: string, conn: ConnectedPerson)
      returns (updated: map<string, AreaData>)
      ensures updated == areas[key := AddPerson(Lookup(areas, key), conn)]
    {
      var area := if key in areas then areas[key] else EmptyArea;
      area := UpdateAreaData(area, conn);
      updated := areas[key := area];
    }

    /** `_zone_lat_longs`: the coordinates of the host's zones by case-folded
        name. The host's zone registry is the parameter. */
    method ZoneLatLongs(zones: seq<ZoneEntity>) returns (result: ZoneTable)
      ensures result == ZoneTableOf(zones)
    {
      result := map[];
      for i := 0 to |zones|
        invariant result == ZoneTableOf(zones[..i])
      {
        assert zones[..i + 1][..i] == zones[..i];
        var zone := zones[i];
        if zone.zone.None? || zone.zone.value.state == StateUnavailable {
          continue;
        }
        var lat, lon := zone.zone.value.latitude, zone.zone.value.longitude;
        if !CoordinateTruthy(lat) || !CoordinateTruthy(lon) {
          continue;
        }
        var zoneName := if zone.entityId == StateHome then StateHome else zone.zone.value.name;
        result := result[Text.CaseFold(zoneName) := (lat.value, lon.value)];
      }
      assert zones[..|zones|] == zones;
    }

    /** The record of one connection: the state (the room or "home" at the
        primary home, the other home's name with any room after a colon),
        the home and room ids, and the zone coordinates matching the state. */
    method PersonDataFor(conn: ConnectedPerson, main: Models.Home, zoneLatLongs: ZoneTable)
      returns (d: PersonData)
      ensures d == PersonRecord(conn, main, zoneLatLongs)
    {
      var home := conn.home.GetOr(main);
      var room := conn.room;

      var state: string;
      if home.Equals(main) {
        state := if room.Some? then room.value.displayName else StateHome;
      } else {
        state := home.displayName;
        if room.Some? {
          state := state + ": " + room.value.displayName;
        }
      }

      var key := Text.CaseFold(state);
      var lat, lon := None, None;
      if key in zoneLatLongs {
        lat, lon := Some(zoneLatLongs[key].0), Some(zoneLatLongs[key].1);
      }
      d := PersonData(Some(state), Some(home.id), if room.Some? then Some(room.value.id) else None, lat, lon);
    }

    /** The body of the refresh loop for one connection: the person's record,
        the count in the effective home and, at the primary home, the count
        in the room. */
    method RecordConnection(homes: map<string, AreaData>, rooms: map<string, AreaData>,
                            people: map<string, PersonData>, conn: ConnectedPerson,
                            main: Models.Home, zoneLatLongs: ZoneTable)
      returns (homes': map<string, AreaData>, rooms': map<string, AreaData>, people': map<string, PersonData>)
      ensures WelkomData(homes', rooms', people') == Step(WelkomData(homes, rooms, people), conn, main, zoneLatLongs)
    {
      var home := conn.home.GetOr(main);
      var room := conn.room;

      var record := PersonDataFor(conn, main, zoneLatLongs);
      people' := people[conn.person.id := record];

      // A home is always truthy, so every connection counts in its home.
      homes' := CountIn(homes, home.id, conn);

      rooms' := rooms;
      if home.Equals(main) && room.Some? {
        rooms' := CountIn(rooms, room.value.id, conn);
      }
    }

    /** `_async_update_data`: one refresh. The primary home is asked for on
        every iteration, so it is fetched (and can fail) only when somebody
        is connected. */
    method UpdateData(zones: seq<ZoneEntity>) returns (r: Result<WelkomData, Client.HomeError>)
      requires client.Valid()
      modifies client`homes, client`home, client.api`requests
      ensures client.Valid() && client.PrimaryHome() == old(client.PrimaryHome())
      ensures r == Refresh(client.api.connectedPeople, old(client.PrimaryHome()), ZoneTableOf(zones))
      ensures client.home == (if client.api.connectedPeople != [] && old(client.PrimaryHome()).Success?
                              then Some(old(client.PrimaryHome()).value) else old(client.home))
      ensures client.homes == (if client.api.connectedPeople != [] && old(client.home).None?
                               then Some(old(client.HomesView())) else old(client.homes))
      ensures client.api.requests == old(client.api.requests) + [client.url + "/api/homes/people"]
                + (if client.api.connectedPeople != [] && old(client.home).None? && old(client.homes).None?
                   then [client.url + "/api/homes"] else [])
    {
      var conns := client.ConnectedPeople();
      var zoneLatLongs := ZoneLatLongs(zones);
      r := CountConnections(conns, zoneLatLongs);
    }

    /** The loop of `_async_update_data` over the connections, with the
        dicts it fills starting empty. */
    method CountConnections(conns: seq<ConnectedPerson>, zoneLatLongs: ZoneTable)
      returns (r: Result<WelkomData, Client.HomeError>)
      requires client.Valid()
      modifies client`homes, client`home, client.api`requests
      ensures client.Valid() && client.PrimaryHome() == old(client.PrimaryHome())
      ensures r == Refresh(conns, old(client.PrimaryHome()), zoneLatLongs)
      ensures client.home == (if conns != [] && old(client.PrimaryHome()).Success?
                              then Some(old(client.PrimaryHome()).value) else old(client.home))
      ensures client.homes == (if conns != [] && old(client.home).None?
                               then Some(old(client.HomesView())) else old(client.homes))
      ensures client.api.requests == old(client.api.requests)
                + (if conns != [] && old(client.home).None? && old(client.homes).None?
                   then [client.url + "/api/homes"] else [])
    {
      var homes: map<string, AreaData> := map[];
      var rooms: map<string, AreaData> := map[];
      var people: map<string, PersonData> := map[];

      ghost var primary := client.PrimaryHome();
      ghost var afterFirstHomes := if client.home.None? then Some(client.HomesView()) else client.homes;
      ghost var afterFirst := client.api.requests
        + (if client.home.None? && client.homes.None? then [client.url + "/api/homes"] else []);

      for i := 0 to |conns|
        invariant client.Valid() && client.PrimaryHome() == primary
        invariant i == 0 ==> client.home == old(client.home) && client.homes == old(client.homes)
        invariant i == 0 ==> client.api.requests == old(client.api.requests)
        invariant i > 0 ==> primary.Success? && client.home == Some(primary.value)
        invariant i > 0 ==> client.api.requests == afterFirst
        invariant i > 0 ==> client.homes == afterFirstHomes
        invariant i == 0 ==> WelkomData(homes, rooms, people) == EmptyData
        invariant i > 0 ==> WelkomData(homes, rooms, people) == Aggregate(conns[..i], primary.value, zoneLatLongs)
      {
        var mainHome := client.Home();
        if mainHome.Failure? {
          return Failure(mainHome.error);
        }
        var main := mainHome.value;
        AggregateSnoc(conns, i, main, zoneLatLongs);
        homes, rooms, people := RecordConnection(homes, rooms, people, conns[i], main, zoneLatLongs);
      }

      assert conns[..|conns|] == conns;
      r := Success(WelkomData(homes, rooms, people));
    }
  }
}

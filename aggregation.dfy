/** What one refresh of the coordinator computes, as values: the occupancy
    tallies per home and per room, the record per person, and the table that
    turns zone names into coordinates. The coordinator's loops are proved to
    compute exactly these functions; the lemmas here say what they mean. */
module Aggregation {
  import opened Base
  import opened Models
  import Text
  import Client

  /** The host platform's state names for "at home" and "unavailable". */
  const StateHome := "home"
  const StateUnavailable := "unavailable"

  /** One area's aggregate (`AreaData`; `HomeData` and `RoomData` add
      nothing to it). */
  datatype AreaData = AreaData(
    peopleCount: int,
    people: seq<string>,
    knownPeopleCount: int,
    knownPeople: seq<string>,
    unknownPeopleCount: int,
    unknownPeople: seq<string>)

  /** The default aggregate: nobody there. */
  const EmptyArea := AreaData(0, [], 0, [], 0, [])

  /** Each counter is the length of its list, and everybody present is either
      known or unknown. */
  predicate Consistent(t: AreaData) {
    && t.peopleCount == |t.people|
    && t.knownPeopleCount == |t.knownPeople|
    && t.unknownPeopleCount == |t.unknownPeople|
    && t.peopleCount == t.knownPeopleCount + t.unknownPeopleCount
  }

  /** One more person in the area: the name is appended to `people` and to
      exactly one of `knownPeople`/`unknownPeople`, chosen by `known`. */
  function AddPerson(t: AreaData, c: ConnectedPerson): (r: AreaData)
    ensures Consistent(t) ==> Consistent(r)
    ensures r.peopleCount == t.peopleCount + 1 && r.people == t.people + [c.person.displayName]
    ensures r.knownPeopleCount + r.unknownPeopleCount == t.knownPeopleCount + t.unknownPeopleCount + 1
    ensures c.known <==> r.knownPeopleCount == t.knownPeopleCount + 1
    ensures c.known <==> r.unknownPeople == t.unknownPeople
    ensures c.known ==> r.knownPeople == t.knownPeople + [c.person.displayName]
                        && r.unknownPeopleCount == t.unknownPeopleCount
    ensures !c.known ==> r.unknownPeople == t.unknownPeople + [c.person.displayName]
                         && r.knownPeople == t.knownPeople && r.knownPeopleCount == t.knownPeopleCount
  {
    var name := c.person.displayName;
    if c.known then
      t.(peopleCount := t.peopleCount + 1, people := t.people + [name],
         knownPeopleCount := t.knownPeopleCount + 1, knownPeople := t.knownPeople + [name])
    else
      t.(peopleCount := t.peopleCount + 1, people := t.people + [name],
         unknownPeopleCount := t.unknownPeopleCount + 1, unknownPeople := t.unknownPeople + [name])
  }

  /** The aggregate built from the default by adding `cs` in order. */
  function Tally(cs: seq<ConnectedPerson>): AreaData
    decreases |cs|
  {
    if cs == [] then EmptyArea else AddPerson(Tally(cs[..|cs| - 1]), cs[|cs| - 1])
  }

  lemma TallySnoc(cs: seq<ConnectedPerson>, c: ConnectedPerson)
    ensures Tally(cs + [c]) == AddPerson(Tally(cs), c)
  {
    assert (cs + [c])[..|cs|] == cs;
  }

  function Names(cs: seq<ConnectedPerson>): (r: seq<string>)
    ensures |r| == |cs| && forall i :: 0 <= i < |cs| ==> r[i] == cs[i].person.displayName
  {
    seq(|cs|, i requires 0 <= i < |cs| => cs[i].person.displayName)
  }

  /** The connections of `cs` whose `known` flag is `known`, in order. */
  function WithKnown(cs: seq<ConnectedPerson>, known: bool): (r: seq<ConnectedPerson>)
    ensures |r| <= |cs|
    ensures forall i :: 0 <= i < |r| ==> r[i].known == known
    decreases |cs|
  {
    if cs == [] then []
    else
      var last := cs[|cs| - 1];
      WithKnown(cs[..|cs| - 1], known) + if last.known == known then [last] else []
  }

  lemma NamesSnoc(cs: seq<ConnectedPerson>, c: ConnectedPerson)
    ensures Names(cs + [c]) == Names(cs) + [c.person.displayName]
  {
  }

  /** The filter keeps exactly the connections with that flag. */
  lemma {:induction false} WithKnownMembers(cs: seq<ConnectedPerson>, known: bool)
    ensures forall c :: c in WithKnown(cs, known) <==> c in cs && c.known == known
    decreases |cs|
  {
    if cs != [] {
      var init, last := cs[..|cs| - 1], cs[|cs| - 1];
      WithKnownMembers(init, known);
      assert cs == init + [last];
    }
  }

  lemma WithKnownSnoc(cs: seq<ConnectedPerson>, c: ConnectedPerson, known: bool)
    ensures WithKnown(cs + [c], known) == WithKnown(cs, known) + if c.known == known then [c] else []
  {
    assert (cs + [c])[..|cs|] == cs;
  }

  /** An aggregate is a census of the connections it was built from: their
      number, their names in order, and the names of the known and of the
      unknown ones, so the counters always agree with the lists. */
  lemma {:induction false} TallyIsCensus(cs: seq<ConnectedPerson>)
    ensures Tally(cs) == AreaData(
              |cs|, Names(cs),
              |WithKnown(cs, true)|, Names(WithKnown(cs, true)),
              |WithKnown(cs, false)|, Names(WithKnown(cs, false)))
    ensures Consistent(Tally(cs))
    decreases |cs|
  {
    if cs != [] {
      var init, last := cs[..|cs| - 1], cs[|cs| - 1];
      TallyIsCensus(init);
      assert cs == init + [last];
      NamesSnoc(init, last);
      WithKnownSnoc(init, last, true);
      WithKnownSnoc(init, last, false);
      if last.known {
        NamesSnoc(WithKnown(init, true), last);
      } else {
        NamesSnoc(WithKnown(init, false), last);
      }
    }
  }

  /** The record kept per person. The refresh always sets `state` and
      `homeId`; the coordinates are missing when no zone matches. */
  datatype PersonData = PersonData(
    state: Option<string>,
    homeId: Option<string>,
    roomId: Option<string>,
    latitude: Option<real>,
    longitude: Option<real>)

  /** The result of one refresh. */
  datatype WelkomData = WelkomData(
    homes: map<string, AreaData>,
    rooms: map<string, AreaData>,
    people: map<string, PersonData>)

  const EmptyData := WelkomData(map[], map[], map[])

  /** Zone name (case-folded) to latitude and longitude. */
  type ZoneTable = map<string, (real, real)>

  /** `conn.home or main_home`. */
  function EffectiveHome(c: ConnectedPerson, main: Home): Home {
    c.home.GetOr(main)
  }

  /** The state shown for a person: the room (or "home") at the primary home,
      the other home's name (with the room after a colon) elsewhere. */
  function StateOf(home: Home, room: Option<Room>, main: Home): string {
    if home.Equals(main) then
      if room.Some? then room.value.displayName else StateHome
    else if room.Some? then home.displayName + ": " + room.value.displayName
    else home.displayName
  }

  /** The record one connection yields. */
  function PersonRecord(c: ConnectedPerson, main: Home, zones: ZoneTable): PersonData {
    var home := EffectiveHome(c, main);
    var state := StateOf(home, c.room, main);
    var key := Text.CaseFold(state);
    PersonData(
      Some(state),
      Some(home.id),
      if c.room.Some? then Some(c.room.value.id) else None,
      if key in zones then Some(zones[key].0) else None,
      if key in zones then Some(zones[key].1) else None)
  }

  /** `defaultdict` lookup: a missing area reads as the default aggregate. */
  function Lookup(m: map<string, AreaData>, k: string): AreaData {
    if k in m then m[k] else EmptyArea
  }

  /** The rooms of the primary home are tallied; a connection elsewhere, or
      without a room, adds to no room. */
  predicate CountsInRoom(c: ConnectedPerson, main: Home) {
    EffectiveHome(c, main).Equals(main) && c.room.Some?
  }

  /** The home tallies after one more connection: every connection is
      counted in its effective home (a home is always truthy). */
  function CountHome(homes: map<string, AreaData>, c: ConnectedPerson, main: Home): map<string, AreaData> {
    var h := EffectiveHome(c, main).id;
    homes[h := AddPerson(Lookup(homes, h), c)]
  }

  /** The room tallies after one more connection. */
  function CountRoom(rooms: map<string, AreaData>, c: ConnectedPerson, main: Home): map<string, AreaData> {
    if CountsInRoom(c, main)
    then rooms[c.room.value.id := AddPerson(Lookup(rooms, c.room.value.id), c)]
    else rooms
  }

  /** One iteration of the refresh loop. */
  function Step(s: WelkomData, c: ConnectedPerson, main: Home, zones: ZoneTable): WelkomData {
    WelkomData(
      CountHome(s.homes, c, main),
      CountRoom(s.rooms, c, main),
      s.people[c.person.id := PersonRecord(c, main, zones)])
  }

  /** The refresh loop over `conns` with the primary home `main`. */
  function Aggregate(conns: seq<ConnectedPerson>, main: Home, zones: ZoneTable): WelkomData
    decreases |conns|
  {
    if conns == [] then EmptyData
    else Step(Aggregate(conns[..|conns| - 1], main, zones), conns[|conns| - 1], main, zones)
  }

  lemma AggregateSnoc(conns: seq<ConnectedPerson>, i: nat, main: Home, zones: ZoneTable)
    requires i < |conns|
    ensures Aggregate(conns[..i + 1], main, zones) == Step(Aggregate(conns[..i], main, zones), conns[i], main, zones)
  {
    assert conns[..i + 1][..i] == conns[..i];
  }

  /** A whole refresh. The primary home is asked for inside the loop, so an
      empty list succeeds even when no primary home can be chosen. */
  function Refresh(conns: seq<ConnectedPerson>, primary: Result<Home, Client.HomeError>, zones: ZoneTable)
    : Result<WelkomData, Client.HomeError>
  {
    if conns == [] then Success(EmptyData)
    else if primary.Failure? then Failure(primary.error)
    else Success(Aggregate(conns, primary.value, zones))
  }

  /** The connections whose effective home has id `h`, in order. */
  function AtHome(conns: seq<ConnectedPerson>, main: Home, h: string): seq<ConnectedPerson>
    decreases |conns|
  {
    if conns == [] then []
    else
      var c := conns[|conns| - 1];
      AtHome(conns[..|conns| - 1], main, h) + if EffectiveHome(c, main).id == h then [c] else []
  }

  /** The connections at the primary home that report room `r`, in order. */
  function InRoom(conns: seq<ConnectedPerson>, main: Home, r: string): seq<ConnectedPerson>
    decreases |conns|
  {
    if conns == [] then []
    else
      var c := conns[|conns| - 1];
      InRoom(conns[..|conns| - 1], main, r) + if CountsInRoom(c, main) && c.room.value.id == r then [c] else []
  }

  /** A home's aggregate is the census of the connections whose effective home
      it is; a home nobody is at has no entry. */
  lemma {:induction false} HomeCensus(conns: seq<ConnectedPerson>, main: Home, zones: ZoneTable, h: string)
    ensures Lookup(Aggregate(conns, main, zones).homes, h) == Tally(AtHome(conns, main, h))
    ensures h in Aggregate(conns, main, zones).homes <==> AtHome(conns, main, h) != []
    decreases |conns|
  {
    if conns != [] {
      var init, c := conns[..|conns| - 1], conns[|conns| - 1];
      HomeCensus(init, main, zones, h);
      var before := Aggregate(init, main, zones).homes;
      assert Aggregate(conns, main, zones).homes == CountHome(before, c, main);
      if EffectiveHome(c, main).id == h {
        assert AtHome(conns, main, h) == AtHome(init, main, h) + [c];
        TallySnoc(AtHome(init, main, h), c);
      } else {
        assert AtHome(conns, main, h) == AtHome(init, main, h);
        assert Lookup(CountHome(before, c, main), h) == Lookup(before, h);
      }
    }
  }

  /** A room's aggregate is the census of the connections at the primary home
      in that room; no other connection creates or changes a room entry. */
  lemma {:induction false} RoomCensus(conns: seq<ConnectedPerson>, main: Home, zones: ZoneTable, r: string)
    ensures Lookup(Aggregate(conns, main, zones).rooms, r) == Tally(InRoom(conns, main, r))
    ensures r in Aggregate(conns, main, zones).rooms <==> InRoom(conns, main, r) != []
    decreases |conns|
  {
    if conns != [] {
      var init, c := conns[..|conns| - 1], conns[|conns| - 1];
      RoomCensus(init, main, zones, r);
      var before := Aggregate(init, main, zones).rooms;
      assert Aggregate(conns, main, zones).rooms == CountRoom(before, c, main);
      if CountsInRoom(c, main) && c.room.value.id == r {
        assert InRoom(conns, main, r) == InRoom(init, main, r) + [c];
        TallySnoc(InRoom(init, main, r), c);
      } else {
        assert InRoom(conns, main, r) == InRoom(init, main, r);
        assert Lookup(CountRoom(before, c, main), r) == Lookup(before, r);
      }
    }
  }

  /** Occupancy as the sensors read it: the people count of a home is the
      number of connections whose effective home has its id, every aggregate
      keeps its counters equal to its lists, and every room aggregate belongs
      to the primary home. */
  lemma Occupancy(conns: seq<ConnectedPerson>, main: Home, zones: ZoneTable)
    ensures var s := Aggregate(conns, main, zones);
            && (forall h :: h in s.homes ==> Consistent(s.homes[h]))
            && (forall h :: Lookup(s.homes, h).peopleCount == |AtHome(conns, main, h)|)
            && (forall r :: r in s.rooms ==> Consistent(s.rooms[r]))
            && (forall r :: Lookup(s.rooms, r).peopleCount == |InRoom(conns, main, r)|)
            && (forall r :: r in s.rooms ==> exists i :: 0 <= i < |conns| && CountsInRoom(conns[i], main)
                                                        && conns[i].room.value.id == r)
  {
    var s := Aggregate(conns, main, zones);
    forall h ensures Lookup(s.homes, h).peopleCount == |AtHome(conns, main, h)|
      && (h in s.homes ==> Consistent(s.homes[h]))
    {
      HomeCensus(conns, main, zones, h);
      TallyIsCensus(AtHome(conns, main, h));
    }
    forall r ensures Lookup(s.rooms, r).peopleCount == |InRoom(conns, main, r)|
      && (r in s.rooms ==> Consistent(s.rooms[r]))
      && (r in s.rooms ==> exists i :: 0 <= i < |conns| && CountsInRoom(conns[i], main) && conns[i].room.value.id == r)
    {
      RoomCensus(conns, main, zones, r);
      TallyIsCensus(InRoom(conns, main, r));
      if r in s.rooms {
        InRoomMembers(conns, main, r);
        var c := InRoom(conns, main, r)[0];
        assert c in InRoom(conns, main, r);
      }
    }
  }

  lemma {:induction false} InRoomMembers(conns: seq<ConnectedPerson>, main: Home, r: string)
    ensures forall c :: c in InRoom(conns, main, r) ==>
              exists i :: 0 <= i < |conns| && conns[i] == c && CountsInRoom(c, main) && c.room.value.id == r
    decreases |conns|
  {
    if conns != [] {
      var init := conns[..|conns| - 1];
      InRoomMembers(init, main, r);
      forall c | c in InRoom(conns, main, r)
        ensures exists i :: 0 <= i < |conns| && conns[i] == c && CountsInRoom(c, main) && c.room.value.id == r
      {
        if c in InRoom(init, main, r) {
          var i :| 0 <= i < |init| && init[i] == c && CountsInRoom(c, main) && c.room.value.id == r;
          assert conns[i] == c;
        } else {
          assert conns[|conns| - 1] == c;
        }
      }
    }
  }

  /** The ids of the people in `conns`. */
  function PersonIds(conns: seq<ConnectedPerson>): set<string>
    decreases |conns|
  {
    if conns == [] then {} else PersonIds(conns[..|conns| - 1]) + {conns[|conns| - 1].person.id}
  }

  /** An id is in `PersonIds` exactly when some connection carries it. */
  lemma {:induction false} PersonIdsMembers(conns: seq<ConnectedPerson>, k: string)
    ensures k in PersonIds(conns) <==> exists i :: 0 <= i < |conns| && conns[i].person.id == k
    decreases |conns|
  {
    if conns != [] {
      var init := conns[..|conns| - 1];
      PersonIdsMembers(init, k);
      if k in PersonIds(init) {
        var i :| 0 <= i < |init| && init[i].person.id == k;
        assert conns[i].person.id == k;
      }
      if exists i :: 0 <= i < |conns| && conns[i].person.id == k {
        var i :| 0 <= i < |conns| && conns[i].person.id == k;
        if i < |init| {
          assert init[i].person.id == k;
        }
      }
    }
  }

  /** Every connection leaves a record under its person's id, and there is
      no other record. */
  lemma {:induction false} PeopleKeys(conns: seq<ConnectedPerson>, main: Home, zones: ZoneTable)
    ensures Aggregate(conns, main, zones).people.Keys == PersonIds(conns)
    decreases |conns|
  {
    if conns != [] {
      PeopleKeys(conns[..|conns| - 1], main, zones);
    }
  }

  /** The last connection of a person decides that person's record. */
  lemma {:induction false} LastRecordWins(conns: seq<ConnectedPerson>, main: Home, zones: ZoneTable, i: nat)
    requires i < |conns|
    requires forall j :: i < j < |conns| ==> conns[j].person.id != conns[i].person.id
    ensures conns[i].person.id in Aggregate(conns, main, zones).people
    ensures Aggregate(conns, main, zones).people[conns[i].person.id] == PersonRecord(conns[i], main, zones)
    decreases |conns|
  {
    if i < |conns| - 1 {
      var init := conns[..|conns| - 1];
      assert init[i] == conns[i];
      LastRecordWins(init, main, zones, i);
    }
  }

  /** What a person's record says: the effective home, the room, the state in
      its three cases, and coordinates exactly when the case-folded state
      names a zone. */
  lemma PersonRecordMeaning(c: ConnectedPerson, main: Home, zones: ZoneTable)
    ensures var d := PersonRecord(c, main, zones);
            var home := EffectiveHome(c, main);
            && d.homeId == Some(home.id)
            && (c.home.Some? ==> d.homeId == Some(c.home.value.id))
            && (c.home.None? ==> d.homeId == Some(main.id))
            && (d.roomId.Some? <==> c.room.Some?)
            && (c.room.Some? ==> d.roomId == Some(c.room.value.id))
            && d.state.Some?
            && (home.id == main.id && c.room.Some? ==> d.state == Some(c.room.value.displayName))
            && (home.id == main.id && c.room.None? ==> d.state == Some(StateHome))
            && (home.id != main.id && c.room.None? ==> d.state == Some(home.displayName))
            && (home.id != main.id && c.room.Some? ==>
                  d.state == Some(home.displayName + ": " + c.room.value.displayName))
            && (d.latitude.Some? <==> Text.CaseFold(d.state.value) in zones)
            && (d.longitude.Some? <==> d.latitude.Some?)
            && (d.latitude.Some? ==> (d.latitude.value, d.longitude.value) == zones[Text.CaseFold(d.state.value)])
  {
  }

  /** One refresh over three connections: a known person in room `r` of the
      primary home `h`, an unknown person at an unspecified home (hence at
      `h`, without a room), and a known person at another home `o`. */
  lemma ThreePeopleScenario(h: Home, o: Home, r: Room, p1: Person, p2: Person, p3: Person,
                            role: Role, link: Connection, zones: ZoneTable)
    requires h.id != o.id && p1.id != p2.id && p1.id != p3.id && p2.id != p3.id
    ensures var conns := [ConnectedPerson(true, p1, Some(h), Some(r), role, link),
                          ConnectedPerson(false, p2, None, None, role, link),
                          ConnectedPerson(true, p3, Some(o), None, role, link)];
            var s := Aggregate(conns, h, zones);
            && s.homes == map[h.id := AreaData(2, [p1.displayName, p2.displayName], 1, [p1.displayName], 1, [p2.displayName]),
                              o.id := AreaData(1, [p3.displayName], 1, [p3.displayName], 0, [])]
            && s.rooms == map[r.id := AreaData(1, [p1.displayName], 1, [p1.displayName], 0, [])]
            && s.people.Keys == {p1.id, p2.id, p3.id}
            && s.people[p1.id].state == Some(r.displayName) && s.people[p1.id].roomId == Some(r.id)
            && s.people[p2.id].state == Some(StateHome) && s.people[p2.id].homeId == Some(h.id)
            && s.people[p3.id].state == Some(o.displayName) && s.people[p3.id].homeId == Some(o.id)
  {
    var c1 := ConnectedPerson(true, p1, Some(h), Some(r), role, link);
    var c2 := ConnectedPerson(false, p2, None, None, role, link);
    var c3 := ConnectedPerson(true, p3, Some(o), None, role, link);
    var n1, n2, n3 := p1.displayName, p2.displayName, p3.displayName;
    AggregateOfThree(c1, c2, c3, h, zones);

    var a1 := AreaData(1, [n1], 1, [n1], 0, []);
    assert AddPerson(EmptyArea, c1) == a1 by {
      assert [] + [n1] == [n1];
    }
    var s1 := Step(EmptyData, c1, h, zones);
    assert s1.homes == map[h.id := a1];
    assert s1.rooms == map[r.id := a1];

    var s2 := Step(s1, c2, h, zones);
    assert AddPerson(a1, c2) == AreaData(2, [n1, n2], 1, [n1], 1, [n2]) by {
      assert [n1] + [n2] == [n1, n2] && [] + [n2] == [n2];
    }
    assert s2.homes == map[h.id := AreaData(2, [n1, n2], 1, [n1], 1, [n2])];
    assert s2.rooms == s1.rooms;

    var s3 := Step(s2, c3, h, zones);
    assert AddPerson(EmptyArea, c3) == AreaData(1, [n3], 1, [n3], 0, []) by {
      assert [] + [n3] == [n3];
    }
    assert s3.homes == s2.homes[o.id := AreaData(1, [n3], 1, [n3], 0, [])];
    assert s3.rooms == s2.rooms;
  }

  lemma AggregateOfThree(a: ConnectedPerson, b: ConnectedPerson, c: ConnectedPerson, main: Home, zones: ZoneTable)
    ensures Aggregate([a, b, c], main, zones) == Step(Step(Step(EmptyData, a, main, zones), b, main, zones), c, main, zones)
  {
    AggregateAppend([], a, main, zones);
    AggregateAppend([a], b, main, zones);
    AggregateAppend([a, b], c, main, zones);
    assert [] + [a] == [a] && [a] + [b] == [a, b] && [a, b] + [c] == [a, b, c];
  }

  lemma AggregateAppend(init: seq<ConnectedPerson>, c: ConnectedPerson, main: Home, zones: ZoneTable)
    ensures Aggregate(init + [c], main, zones) == Step(Aggregate(init, main, zones), c, main, zones)
  {
    assert (init + [c])[..|init|] == init;
  }

  /** One zone entity as the host reports it: its id and, unless the host has
      no state for it, its state, friendly name and coordinates. */
  datatype ZoneState = ZoneState(state: string, name: string, latitude: Option<real>, longitude: Option<real>)
  datatype ZoneEntity = ZoneEntity(entityId: string, zone: Option<ZoneState>)

  /** `bool(coordinate)`: missing and zero are false. */
  predicate CoordinateTruthy(x: Option<real>) {
    x.Some? && x.value != 0.0
  }

  /** A zone the table takes: it has a state, is not unavailable, and has
      truthy coordinates. */
  predicate Usable(z: ZoneEntity) {
    && z.zone.Some?
    && z.zone.value.state != StateUnavailable
    && CoordinateTruthy(z.zone.value.latitude)
    && CoordinateTruthy(z.zone.value.longitude)
  }

  /** The table key of a zone: "home" for the entity id "home", its name
      otherwise, case-folded. */
  function ZoneKey(z: ZoneEntity): string
    requires z.zone.Some?
  {
    Text.CaseFold(if z.entityId == StateHome then StateHome else z.zone.value.name)
  }

  /** The table `_zone_lat_longs` builds: usable zones in order, a later zone
      overwriting an earlier one with the same key. */
  function ZoneTableOf(zones: seq<ZoneEntity>): ZoneTable
    decreases |zones|
  {
    if zones == [] then map[]
    else
      var z := zones[|zones| - 1];
      var t := ZoneTableOf(zones[..|zones| - 1]);
      if Usable(z) then t[ZoneKey(z) := (z.zone.value.latitude.value, z.zone.value.longitude.value)] else t
  }

  /** Every key is case-folded and holds non-zero coordinates, so a lookup
      by a case-folded state can match it. */
  lemma {:induction false} ZoneTableFolded(zones: seq<ZoneEntity>, k: string)
    requires k in ZoneTableOf(zones)
    ensures Text.IsFolded(k)
    ensures ZoneTableOf(zones)[k].0 != 0.0 && ZoneTableOf(zones)[k].1 != 0.0
    decreases |zones|
  {
    var init, z := zones[..|zones| - 1], zones[|zones| - 1];
    if !(Usable(z) && ZoneKey(z) == k) {
      ZoneTableFolded(init, k);
    }
  }

  /** Every key in the table is the key of some usable zone. */
  lemma {:induction false} ZoneTableKeySource(zones: seq<ZoneEntity>, k: string)
    requires k in ZoneTableOf(zones)
    ensures exists i :: 0 <= i < |zones| && Usable(zones[i]) && ZoneKey(zones[i]) == k
    decreases |zones|
  {
    var init, z := zones[..|zones| - 1], zones[|zones| - 1];
    if Usable(z) && ZoneKey(z) == k {
      assert zones[|zones| - 1] == z;
    } else {
      ZoneTableKeySource(init, k);
      var i :| 0 <= i < |init| && Usable(init[i]) && ZoneKey(init[i]) == k;
      assert zones[i] == init[i];
    }
  }

  /** Every usable zone has its key in the table. */
  lemma {:induction false} ZoneTableCovers(zones: seq<ZoneEntity>, i: nat)
    requires i < |zones| && Usable(zones[i])
    ensures ZoneKey(zones[i]) in ZoneTableOf(zones)
    decreases |zones|
  {
    if i < |zones| - 1 {
      var init := zones[..|zones| - 1];
      assert init[i] == zones[i];
      ZoneTableCovers(init, i);
    }
  }

  /** The coordinates under a key are those of the last usable zone with it. */
  lemma {:induction false} ZoneTableLastWins(zones: seq<ZoneEntity>, i: nat)
    requires i < |zones| && Usable(zones[i])
    requires forall j :: i < j < |zones| && Usable(zones[j]) ==> ZoneKey(zones[j]) != ZoneKey(zones[i])
    ensures ZoneKey(zones[i]) in ZoneTableOf(zones)
    ensures ZoneTableOf(zones)[ZoneKey(zones[i])]
              == (zones[i].zone.value.latitude.value, zones[i].zone.value.longitude.value)
    decreases |zones|
  {
    if i < |zones| - 1 {
      var init := zones[..|zones| - 1];
      assert init[i] == zones[i];
      ZoneTableLastWins(init, i);
    }
  }
}

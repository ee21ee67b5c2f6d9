# Welkom presence integration, modelled in Dafny

This project models the core of the Welkom integration for Home Assistant.
Welkom is a presence service: it reports which people are connected to which
home, and in which room. The integration polls it every 30 seconds and turns
each answer into occupancy data for sensors and device trackers.

The model covers three parts:

- **The refresh** (`coordinator.py`, module `Coordinator` with the pure
  specification in module `Aggregation`). One refresh fetches the connected
  people and folds them, in order, into three maps. Homes and rooms map to
  occupancy aggregates: a people count and names, split into known and
  unknown. Person ids map to records: a state string, a home id, a room id
  and zone coordinates. The zone table maps case-folded zone names to
  coordinates. The class `WelkomCoordinator` keeps the source's loops.
  `UpdateData` fetches the live list, builds the zone table and hands both
  to `CountConnections`, which walks the connections, and
  `ZoneLatLongs` walks the zones with its `continue` filters. Each loop is
  proved to compute a function in `Aggregation`: `Refresh`, `Aggregate` or
  `ZoneTableOf`. Lemmas there state what those functions mean: a home or room
  aggregate is the census of the connections that belong there, the counters
  always equal the lengths of their lists, and rooms are counted only at the
  primary home. They also fix the three cases of the state string, state that
  the last connection of a person wins, and give the zone table's keys and
  values.
- **The domain records** (`models.py`, module `Models`). These are the icon
  defaults, the `person_`/`room_`/`home_` unique ids, the door code (the
  home's code first, else the person's, behind the prefix), id-only equality
  of homes and rooms, the (network, active ids) equality of connections, and
  the address query behind the map-search URL.
- **The client** (`client.py`, module `Client`). The class `WelkomClient`
  caches the connection, the home catalog, the primary home, its rooms and
  the people, each on first use. It asks again every time for the live list
  of connected people. The HTTP server is the class `RemoteApi`, whose fields
  are the resources and which logs every URL it is asked for. The log is
  what lets the contracts say when a fetch happens. `SelectHome` chooses the
  primary home, or gives an error that lists the available homes.

Helper modules: `Base` holds `Option`, `Result` and Python's truthiness of an
optional string. `Text` holds ASCII case folding, `str.join`, and `str(int)`
with its inverse. `Dicts` models a Python dict with insertion order and the
`{key(x): x for x in xs}` comprehension.

`coordinator.py` keeps no separate list of unknown people and does no
per-state grouping, and the model follows it. Every connection, known or not, gets a record
in `people` under its person's id, and a later connection with the same id
overwrites an earlier one. The unknown people appear only in the aggregates'
`unknownPeople` lists. The zone key test `zone.entity_id == "home"` is also
kept as written.

## Model

| member | source | states |
|---|---|---|
| Aggregation.AddPerson | coordinator.py:96-105 | one more person: `people_count` +1 and the name appended to `people`; exactly one of the known/unknown counters +1 and the name appended to that list, chosen by `known`; the other side unchanged; consistency of counters and lists is preserved |
| Coordinator.WelkomCoordinator.UpdateAreaData | coordinator.py:96-105 | the in-place update of one area, done field by field, yields exactly `AddPerson` of the old aggregate |
| Aggregation.WithKnown | coordinator.py:100-105 | every connection the filter keeps has the requested `known` flag |
| Aggregation.WithKnownMembers | coordinator.py:100-105 | a connection is kept iff it is one of the connections and has the requested `known` flag |
| Aggregation.TallyIsCensus | coordinator.py:28-38 | an aggregate built from the default is the census of its connections: count = number of connections, names in order, known and unknown counts and names of the matching sub-sequences; hence every counter equals the length of its list and people = known + unknown |
| Coordinator.WelkomCoordinator.CountIn | coordinator.py:140-144 | updating `areas[key]` of a `defaultdict` adds the person to the existing aggregate, or to the default one when the key is new, and changes no other key |
| Aggregation.HomeCensus | coordinator.py:140-141 | a home's aggregate is the census of the connections whose effective home (`conn.home`, else the primary home) has its id; a home nobody is at has no entry |
| Aggregation.RoomCensus | coordinator.py:143-144 | a room's aggregate is the census of the connections at the primary home (compared by id) that report that room; no other connection creates or changes a room entry |
| Aggregation.Occupancy | coordinator.py:107-150 | after a refresh, a home's people count is the number of connections at it, a room's the number of connections in it, every aggregate is consistent, and every room key comes from a connection at the primary home |
| Aggregation.InRoomMembers | coordinator.py:143-144 | every connection counted in a room is one of the refresh's connections, at the primary home and in that room |
| Aggregation.PersonRecordMeaning | coordinator.py:119-138 | a person's record: home id of the effective home, room id iff a room, state = room name / "home" at the primary home, other home's name (plus ": " and room name) elsewhere; coordinates present iff the case-folded state is a zone key, and then that zone's |
| Coordinator.WelkomCoordinator.PersonDataFor | coordinator.py:119-138 | the record built step by step in the loop body is `PersonRecord` of the connection |
| Aggregation.PeopleKeys | coordinator.py:132-138 | the refresh's person records are keyed by exactly the person ids of the connections |
| Aggregation.PersonIdsMembers | coordinator.py:116-132 | an id is among the refresh's person ids iff some connection carries it |
| Aggregation.LastRecordWins | coordinator.py:116-138 | when two connections share a person id, the record is that of the last one in input order |
| Aggregation.ThreePeopleScenario | coordinator.py:107-150 | a known person in a room of the primary home, an unknown person without a home and a known person at another home give the primary home 2 people (1 known, 1 unknown), the room 1, the other home 1, records for all three with states room name, "home" and the other home's name |
| Coordinator.WelkomCoordinator.RecordConnection | coordinator.py:119-144 | one loop iteration: the maps after the body are `Step` of the maps before |
| Coordinator.WelkomCoordinator.CountConnections | coordinator.py:116-150 | the loop: empty list gives empty maps without resolving the primary home; otherwise a primary-home failure is the result, else the maps are `Aggregate` of the connections; the primary home is fetched at most once and the client stays consistent; afterwards the client holds the primary home when there were connections and it was found, and the catalog when there were connections and no home was cached before, otherwise both caches are as before |
| Coordinator.WelkomCoordinator.UpdateData | coordinator.py:107-150 | one refresh returns `Refresh` of the server's connected people, the client's primary home and the zone table; it asks for the live list once and for the home catalog only when needed; afterwards the home and catalog caches are those `CountConnections` leaves |
| Coordinator.WelkomCoordinator.ZoneLatLongs | coordinator.py:152-171 | the loop with its `continue` filters builds exactly `ZoneTableOf` of the host's zones |
| Aggregation.ZoneTableFolded | coordinator.py:157-169 | every zone-table key is case-folded and maps to non-zero coordinates |
| Aggregation.ZoneTableKeySource | coordinator.py:157-169 | every key comes from a zone that has a state, is not unavailable, and has truthy coordinates |
| Aggregation.ZoneTableCovers | coordinator.py:157-169 | every such usable zone has its key in the table |
| Aggregation.ZoneTableLastWins | coordinator.py:157-169 | under a key shared by several usable zones, the coordinates are those of the last one |
| Coordinator.WelkomCoordinator.constructor | coordinator.py:74-86 | the coordinator is named "Welkom (<client id>)", polls every 30 seconds, and notifies only on change |
| Coordinator.WelkomCoordinator.Setup | coordinator.py:88-94 | setup leaves the home catalog and the people cached, fetching each only if it was not cached |
| Text.CaseFold | coordinator.py:130 | folding keeps the length, leaves no upper-case letter, maps each upper-case ASCII letter to its lower-case letter and keeps every other character |
| Text.CaseFoldEqual | coordinator.py:130 | two strings fold to the same text iff they have the same length and agree position by position up to ASCII case; "Home" folds to "home" |
| Text.CaseFoldFixedPoints | coordinator.py:169 | folding is idempotent and the folded strings are its fixed points |
| Client.SelectHome | client.py:74-88 | with a configured id: success iff the id is in the catalog, and then that home, else "not found" listing the catalog ids; without one: success iff exactly one home, else the "multiple homes" error listing the ids |
| Client.SelectHomeFromCatalog | client.py:45-92 | choosing from a fetched list: the chosen home is in the list, has the configured id iff some listed home has it, with no id succeeds iff the list is non-empty and all ids agree; an error lists exactly the listed ids |
| Client.HomeError.Message | client.py:77-88 | the error text is the lead sentence of the failing case followed by the available ids joined by ", " |
| Client.MessageListsAvailableHomes | client.py:76-88 | the error message contains every available home id, and the requested id when it was not found |
| Client.WelkomClient.constructor | client.py:9-22 | a new client has its id, url and home id and every cache empty |
| Client.WelkomClient.UniqueId | client.py:110-113 | `client_` followed by the id and nothing else |
| Client.WelkomClient.Connection | client.py:36-42 | the connection is fetched from `/api/me` on first access only, then the cached value is returned with no request |
| Client.WelkomClient.Homes | client.py:44-50 | the catalog from `/api/homes` keyed by id, fetched only when not cached, then returned unchanged |
| Client.WelkomClient.People | client.py:52-58 | the people from `/api/people` keyed by id, fetched only when not cached, then returned unchanged |
| Client.WelkomClient.Home | client.py:69-92 | the result is the primary home the catalog selects; a success is cached; a failure caches no home, and the catalog fetched for it stays cached; the catalog is fetched only when neither is cached |
| Client.WelkomClient.Rooms | client.py:94-100 | the primary home's rooms keyed by id, built once and then returned with no request; a failed home choice is passed on; on first access the home is cached when found, the catalog is cached when no home was, and the only request is `/api/homes`, made only when neither was cached |
| Client.RepeatedAccess | client.py:44-108 | through one client, two reads of the home catalog give the same dict, so do two reads of the people; each cached resource is requested at most once, while the live list is requested on both reads |
| Client.WelkomClient.ConnectedPeople | client.py:102-108 | never cached: every call makes exactly one request to `/api/homes/people` and returns the server's list in order |
| Client.RemoteApi.GetMe | client.py:32-34 | a request returns the served resource and logs its URL |
| Client.RemoteApi.GetHomes | client.py:32-34 | a request returns the served resource and logs its URL |
| Client.RemoteApi.GetPeople | client.py:32-34 | a request returns the served resource and logs its URL |
| Client.RemoteApi.GetConnectedPeople | client.py:32-34 | a request returns the served resource and logs its URL |
| Dicts.FromList | client.py:49 | the comprehension gives a dict whose keys are distinct and whose every value is stored under its own key |
| Dicts.Dict.Insert | client.py:49 | assignment keeps an existing key's place and appends a new key |
| Dicts.FromListKeys | client.py:48-49 | the dict's keys are exactly the keys of the listed elements |
| Dicts.FromListLastWins | client.py:56-57 | a later element with the same key overwrites an earlier one |
| Dicts.FromListValues | client.py:56-57 | every stored value is one of the listed elements |
| Dicts.FromListSingleKey | client.py:82-83 | elements that all share one id give a one-home catalog |
| Models.DefaultedIcon | models.py:87-90 | "mdi:" + the override when it is set and non-empty, else "mdi:" + the default |
| Models.OptionalIcon | models.py:17-20 | no icon exactly when no override is set, else "mdi:" + override |
| Models.Person.Icon | models.py:87-90 | "mdi:" + override, defaulting to "mdi:account" |
| Models.Room.Icon | models.py:145-148 | "mdi:" + override, defaulting to "mdi:home-map-marker" |
| Models.Home.Icon | models.py:231-234 | "mdi:" + override, defaulting to "mdi:home" |
| Models.Network.Icon | models.py:17-20 | no icon exactly when no override, else "mdi:" + override |
| Models.Role.Icon | models.py:108-111 | no icon exactly when no override, else "mdi:" + override |
| Models.Link.Icon | models.py:204-207 | no icon exactly when no override, else "mdi:" + override |
| Models.Link.Roles | models.py:209-212 | the link's roles are its configured roles, missing when none are configured |
| Models.Home.AvatarUrl | models.py:252-255 | the home's avatar URL is its configured one, missing when none is configured |
| Models.Person.UniqueId | models.py:92-96 | "person_" followed by the id and nothing else |
| Models.Room.UniqueId | models.py:150-155 | "room_" followed by the id and nothing else |
| Models.Home.UniqueId | models.py:265-269 | "home_" followed by the id and nothing else |
| Models.UniqueIdsDistinct | models.py:92-96 | within a kind a unique id determines the id; a person, a room and a home never share one |
| Models.Home.DoorCode | models.py:236-250 | none without door-code settings; a code iff settings exist and the home's or else the person's code is truthy; the home's code takes precedence; the text is prefix + str(code) |
| Models.DoorCodeIgnoresPersonWhenHomeHasCode | models.py:241 | with a truthy home code the person does not matter |
| Models.DistinctNumericCodesDiffer | models.py:246-250 | two different numeric person codes give different door codes behind the same prefix |
| Models.Home.Equals | models.py:260-263 | homes are equal iff their unique ids are equal |
| Models.Area.Equals | models.py:133-136 | areas are equal iff they are of the same kind and have the same id |
| Models.Connection.Equals | models.py:303-309 | connections are equal iff they have the same network id and the same active ids position by position |
| Models.AreaEqualsIsKindAndId | models.py:130-136 | area equality holds iff same kind and same id; it is an equivalence |
| Models.RoomNeverEqualsHome | models.py:257-263 | a room and a home are never equal, in either direction, even with the same id |
| Models.ConnectionEqualsIsEquivalence | models.py:303-309 | connection equality is an equivalence; changing any field but the network id and the active ids (summary, known flag, known active ids, network name and attributes, device, person, role, home, room, metadata) leaves it unchanged |
| Models.Address.QueryParts | models.py:179-190 | corrected half: a string is a query part iff it is a non-empty present field (postal code as text) |
| Models.Address.GoogleMapsQuery | models.py:191 | corrected half: the search text is empty iff there is no query part |
| Models.Address.QueryPartsAsWritten | models.py:179-190 | as-written half: a string is a part iff it is a non-empty entry of the fields with the postal code passed through `str()`; a missing postal code gives the part "None" |
| Models.Address.GoogleMapsQueryAsWritten | models.py:179-191 | as-written half: the search text is empty iff there is no part, so an address without a postal code never has an empty search |
| Models.KeepTruthy | models.py:179-190 | the filter keeps at most all entries and no empty string |
| Models.KeepTruthyMembers | models.py:179-190 | a kept part is exactly a present, non-empty entry |
| Models.KeepTruthyOfNothing | models.py:189 | entries that are all missing or empty keep nothing |
| Models.GoogleMapsQueryNamesEachPart | models.py:191 | the search text contains every query part and only adds ", " between them |
| Models.KeepTruthyAppend | models.py:179-190 | the filter distributes over concatenation |
| Models.KeepTruthyAround | models.py:179-190 | filtering around one entry puts that entry's part, if truthy, between the parts before and after it |
| Models.PostalCodeAsWritten | models.py:179-191 | with a postal code, the parts and the search text as written and as corrected coincide; without one, the written parts carry an extra "None" exactly where the postal code stands |
| Models.Address.GoogleMapsUrl | models.py:178-192 | corrected half: the URL is the fixed Google Maps search address followed by the quoted corrected search text |
| Models.MissingPostalCodeBecomesPart | models.py:184 | as written, an address with only a street has the parts ["Main St", "None"] |
| Models.MissingPostalCodeReadsNone | models.py:179-191 | as written, that address searches for "Main St, None" |
| Models.MissingPostalCodeLeftOut | models.py:179-191 | with the missing postal code left out, the same address searches for "Main St" |
| Text.JoinContainsEach | client.py:78 | every joined id occurs in the joined text |
| Text.JoinLength | models.py:191 | the joined text is as long as the parts plus the separators between them |
| Text.IntToStringRoundTrip | models.py:246 | `str` of an int parses back to it, with a minus sign exactly for negatives |
| Text.IntToStringInjective | models.py:246 | different ints print differently |

## Left out

- HTTP (`session`, `request`, aiohttp) and pydantic validation: the server is `RemoteApi`, and payloads are records that are already valid. HTTP and validation errors are not modelled.
- Coordinator.WelkomCoordinator.Setup: it fetches the catalog and then the people, one after the other. The source awaits both together under a 10-second timeout, and neither the concurrency nor the timeout is modelled.
- The Home Assistant coordinator base class, its scheduling, logging and config entry. Only the name, the interval and `always_update` are kept.
- The host's zone registry (`hass.data`, `hass.states`): the zones are a parameter, a sequence of `ZoneEntity` values. Coordinates are `Option<real>`, and a coordinate attribute that is not a number is not modelled.
- Floating point: latitudes and longitudes are `real`, and "falsy" means missing or 0.0.
- Text.CaseFold: ASCII only, because Unicode case folding is outside the model.
- Models.Address.GoogleMapsUrl: `urllib.parse.quote_plus` is a function parameter.
- Coordinator.WelkomCoordinator.UpdateAreaData: it returns the updated aggregate as a value instead of mutating a shared object. No aggregate in the source is reachable from two keys, so no aliasing is lost.
- The refresh's maps (`homes`, `rooms`, `people` of `WelkomData`) are Dafny maps, so their key order is not modelled. The home and people catalogs keep their order through `Dicts.Dict`.
- `Area.unique_id` and `Area.icon` raise `NotImplementedError` in the base class. `Area` is modelled as a sum of a room and a home, so only the concrete ones exist.
- Client.WelkomClient.Rooms: the source's `if home else {}` branch is dead, because a home object is always truthy. The model has no such branch.
- The commented-out device icons and device fetching in `models.py` and `client.py`.
- sensor.py, device_tracker.py, binary_sensor.py, config_flow.py and `__init__.py` are not part of this model. They only wire entities and configuration to the data computed here.

## Findings

| source | as written | input that shows it | evidently intended | confidence | as-written member | corrected member |
|---|---|---|---|---|---|---|
| models.py:179-191 | the postal code is passed through `str()` before the truthiness filter, so a missing one becomes the part "None" | an address with street "Main St" and no other field gives the query "Main St, None" (`Models.MissingPostalCodeReadsNone`); for every address without a postal code the written parts carry an extra "None" (`Models.PostalCodeAsWritten`) | a missing postal code is left out like the other missing fields, giving "Main St" | high (not executed) | Models.Address.GoogleMapsQueryAsWritten | Models.Address.QueryParts |

/** The records the presence service reports (networks, devices, people, roles,
    rooms, homes, connections) and the values derived from them: icons, unique
    ids, the effective door code, the map-search query and the equality rules
    for homes, rooms and connections. Every record is an immutable value. */
module Models {
  import opened Base
  import Text

  /** A field typed `str | int` (door codes, postal codes). */
  datatype CodeValue = TextValue(text: string) | IntValue(number: int) {

    /** `bool(value)`: the empty string and zero are false. */
    predicate Truthy() {
      match this
      case TextValue(t) => t != ""
      case IntValue(n) => n != 0
    }

    /** `str(value)`. */
    function Str(): string {
      match this
      case TextValue(t) => t
      case IntValue(n) => Text.IntToString(n)
    }
  }

  /** An untyped attribute value kept as it came. */
  datatype AttrValue = StrAttr(s: string) | IntAttr(i: int) | RealAttr(r: real) | BoolAttr(b: bool)

  /** `"mdi:" + (mdi_icon or fallback)`: an icon that always exists. */
  function DefaultedIcon(mdiIcon: Option<string>, fallback: string): (r: string)
    ensures Truthy(mdiIcon) ==> r == "mdi:" + mdiIcon.value
    ensures !Truthy(mdiIcon) ==> r == "mdi:" + fallback
  {
    "mdi:" + if Truthy(mdiIcon) then mdiIcon.value else fallback
  }

  /** `"mdi:" + mdi_icon if mdi_icon else None`: an icon only when one is set. */
  function OptionalIcon(mdiIcon: Option<string>): (r: Option<string>)
    ensures r.None? <==> !Truthy(mdiIcon)
    ensures r.Some? ==> r.value == "mdi:" + mdiIcon.value
  {
    if Truthy(mdiIcon) then Some("mdi:" + mdiIcon.value) else None
  }

  datatype NetworkAttrs = NetworkAttrs(mdiIcon: Option<string>)

  datatype Network = Network(id: string, displayName: string, attrs: NetworkAttrs) {
    function Icon(): (r: Option<string>)
      ensures r.None? <==> !Truthy(attrs.mdiIcon)
      ensures r.Some? ==> r.value == "mdi:" + attrs.mdiIcon.value
    {
      OptionalIcon(attrs.mdiIcon)
    }
  }

  datatype DeviceType = Phone | Wearable | Handheld | Laptop | Tablet | Desktop | Other

  datatype Device = Device(
    known: bool,
    ids: seq<string>,
    displayName: string,
    attrs: map<string, AttrValue>,
    deviceType: Option<DeviceType>,
    tracker: bool,
    personal: bool)

  datatype PersonAttrs = PersonAttrs(
    phone: Option<string>,
    email: Option<string>,
    doorCode: Option<CodeValue>,
    mdiIcon: Option<string>)

  const PersonPrefix := "person_"
  const RoomPrefix := "room_"
  const HomePrefix := "home_"

  datatype Person = Person(
    known: bool,
    id: string,
    displayName: string,
    avatarUrl: Option<string>,
    attrs: PersonAttrs)
  {
    /** The configured icon, or `mdi:account`. */
    function Icon(): (r: string)
      ensures Truthy(attrs.mdiIcon) ==> r == "mdi:" + attrs.mdiIcon.value
      ensures !Truthy(attrs.mdiIcon) ==> r == "mdi:account"
    {
      DefaultedIcon(attrs.mdiIcon, "account")
    }

    /** `person_<id>`: the prefix followed by the id and nothing else. */
    function UniqueId(): (r: string)
      ensures |r| == |PersonPrefix| + |id|
      ensures r[..|PersonPrefix|] == PersonPrefix && r[|PersonPrefix|..] == id
    {
      PersonPrefix + id
    }
  }

  datatype RoleAttrs = RoleAttrs(mdiIcon: Option<string>)

  datatype Role = Role(id: string, displayName: string, attrs: RoleAttrs) {
    function Icon(): (r: Option<string>)
      ensures r.None? <==> !Truthy(attrs.mdiIcon)
      ensures r.Some? ==> r.value == "mdi:" + attrs.mdiIcon.value
    {
      OptionalIcon(attrs.mdiIcon)
    }
  }

  datatype RoomAttrs = RoomAttrs(mdiIcon: Option<string>)

  datatype Room = Room(id: string, displayName: string, attrs: RoomAttrs) {
    /** The configured icon, or `mdi:home-map-marker`. */
    function Icon(): (r: string)
      ensures Truthy(attrs.mdiIcon) ==> r == "mdi:" + attrs.mdiIcon.value
      ensures !Truthy(attrs.mdiIcon) ==> r == "mdi:home-map-marker"
    {
      DefaultedIcon(attrs.mdiIcon, "home-map-marker")
    }

    /** `room_<id>`. */
    function UniqueId(): (r: string)
      ensures |r| == |RoomPrefix| + |id|
      ensures r[..|RoomPrefix|] == RoomPrefix && r[|RoomPrefix|..] == id
    {
      RoomPrefix + id
    }
  }

  datatype Wifi = Wifi(ssid: Option<string>, password: Option<string>)

  datatype Address = Address(
    street: Option<string>,
    neighborhood: Option<string>,
    postalCode: Option<CodeValue>,
    city: Option<string>,
    state: Option<string>,
    country: Option<string>)
  {
    /** The six fields in query order; the postal code as its text, and
        missing when it is missing. */
    function Fields(): seq<Option<string>> {
      [street, neighborhood, if postalCode.Some? then Some(postalCode.value.Str()) else None,
       city, state, country]
    }

    /** The fields as the property lists them: the postal code goes through
        `str()` unconditionally, so a missing one reads `"None"`. */
    function FieldsAsWritten(): seq<Option<string>> {
      [street, neighborhood, Some(PyStr(postalCode)), city, state, country]
    }

    /** The query parts as written: the truthy entries of `FieldsAsWritten`. */
    function QueryPartsAsWritten(): (r: seq<string>)
      ensures forall p :: p in r <==> p != "" && Some(p) in FieldsAsWritten()
      ensures postalCode.None? ==> "None" in r
    {
      KeepTruthyMembers(FieldsAsWritten());
      KeepTruthy(FieldsAsWritten())
    }

    /** The query parts as intended: the fields that are present and not empty,
        in order. */
    function QueryParts(): (r: seq<string>)
      ensures forall p :: p in r <==> p != "" && Some(p) in Fields()
    {
      KeepTruthyMembers(Fields());
      KeepTruthy(Fields())
    }

    /** `", ".join(parts)` over the intended parts, the search text the map
        URL carries. */
    function GoogleMapsQuery(): (r: string)
      ensures r == "" <==> QueryParts() == []
    {
      Text.Join(QueryParts(), ", ")
    }

    /** `", ".join(parts)` over the parts as written. */
    function GoogleMapsQueryAsWritten(): (r: string)
      ensures r == "" <==> QueryPartsAsWritten() == []
      ensures postalCode.None? ==> r != ""
    {
      Text.Join(QueryPartsAsWritten(), ", ")
    }

    /** The map-search URL: the fixed search address followed by the quoted
        search text; URL quoting is the caller's `quotePlus`. */
    function GoogleMapsUrl(quotePlus: string -> string): (r: string)
      ensures |r| == |MapsSearchBase| + |quotePlus(GoogleMapsQuery())|
      ensures r[..|MapsSearchBase|] == MapsSearchBase
      ensures r[|MapsSearchBase|..] == quotePlus(GoogleMapsQuery())
    {
      MapsSearchBase + quotePlus(GoogleMapsQuery())
    }
  }

  /** The search text names every query part, and adds nothing but the
      separators between them. */
  lemma GoogleMapsQueryNamesEachPart(a: Address)
    ensures forall i :: 0 <= i < |a.QueryParts()| ==> Text.IsInfix(a.QueryParts()[i], a.GoogleMapsQuery())
    ensures |a.QueryParts()| > 0 ==>
              |a.GoogleMapsQuery()| == Text.TotalLength(a.QueryParts()) + (|a.QueryParts()| - 1) * 2
  {
    forall i | 0 <= i < |a.QueryParts()|
      ensures Text.IsInfix(a.QueryParts()[i], a.GoogleMapsQuery())
    {
      Text.JoinContainsEach(a.QueryParts(), ", ", i);
    }
    if |a.QueryParts()| > 0 {
      Text.JoinLength(a.QueryParts(), ", ");
    }
  }

  const MapsSearchBase := "https://www.google.com/maps/search/?api=1&query="

  /** `str(value)` for `value: str | int | None`. */
  function PyStr(value: Option<CodeValue>): string {
    if value.Some? then value.value.Str() else "None"
  }

  /** `[part for part in parts if part]`. */
  function KeepTruthy(parts: seq<Option<string>>): (r: seq<string>)
    ensures |r| <= |parts|
    ensures forall i :: 0 <= i < |r| ==> r[i] != ""
    decreases |parts|
  {
    if parts == [] then []
    else
      var rest := KeepTruthy(parts[1..]);
      if Truthy(parts[0]) then [parts[0].value] + rest else rest
  }

  /** The kept parts are exactly the present, non-empty entries. */
  lemma {:induction false} KeepTruthyMembers(parts: seq<Option<string>>)
    ensures forall p :: p in KeepTruthy(parts) <==> p != "" && Some(p) in parts
    decreases |parts|
  {
    if parts != [] {
      KeepTruthyMembers(parts[1..]);
      assert parts == [parts[0]] + parts[1..];
    }
  }

  /** The filter works entry by entry, so it distributes over concatenation. */
  lemma {:induction false} KeepTruthyAppend(a: seq<Option<string>>, b: seq<Option<string>>)
    ensures KeepTruthy(a + b) == KeepTruthy(a) + KeepTruthy(b)
    decreases |a|
  {
    if a != [] {
      KeepTruthyAppend(a[1..], b);
      assert (a + b)[1..] == a[1..] + b;
    } else {
      assert a + b == b;
    }
  }

  /** The postal code as written and as intended differ only when it is
      missing: then the written parts carry an extra "None" exactly where the
      postal code would stand, and otherwise both give the same parts and
      the same search text. */
  lemma {:induction false} PostalCodeAsWritten(a: Address)
    ensures a.postalCode.Some? ==>
              a.QueryPartsAsWritten() == a.QueryParts() && a.GoogleMapsQueryAsWritten() == a.GoogleMapsQuery()
    ensures a.postalCode.None? ==>
              a.QueryPartsAsWritten() == KeepTruthy(a.Fields()[..2]) + ["None"] + KeepTruthy(a.Fields()[3..])
    ensures a.postalCode.None? ==>
              a.QueryParts() == KeepTruthy(a.Fields()[..2]) + KeepTruthy(a.Fields()[3..])
  {
    var f := a.Fields();
    if a.postalCode.Some? {
      assert a.FieldsAsWritten() == f;
    } else {
      assert f == f[..2] + [None] + f[3..];
      assert a.FieldsAsWritten() == f[..2] + [Some("None")] + f[3..];
      KeepTruthyAround(f[..2], None, f[3..]);
      KeepTruthyAround(f[..2], Some("None"), f[3..]);
    }
  }

  /** Filtering around one entry: the entry's own part, if any, stands
      between the parts of what precedes and what follows it. */
  lemma KeepTruthyAround(pre: seq<Option<string>>, x: Option<string>, post: seq<Option<string>>)
    ensures KeepTruthy(pre + [x] + post) == KeepTruthy(pre) + (if Truthy(x) then [x.value] else []) + KeepTruthy(post)
  {
    KeepTruthyAppend(pre + [x], post);
    KeepTruthyAppend(pre, [x]);
    assert [x][1..] == [];
  }

  /** Entries that are all missing or empty contribute no part. */
  lemma {:induction false} KeepTruthyOfNothing(parts: seq<Option<string>>)
    requires forall i :: 0 <= i < |parts| ==> !Truthy(parts[i])
    ensures KeepTruthy(parts) == []
    decreases |parts|
  {
    if parts != [] {
      KeepTruthyOfNothing(parts[1..]);
    }
  }

  /** As written, a missing postal code becomes the query part "None". */
  lemma MissingPostalCodeBecomesPart()
    ensures Address(Some("Main St"), None, None, None, None, None).QueryPartsAsWritten() == ["Main St", "None"]
  {
    var fields := Address(Some("Main St"), None, None, None, None, None).FieldsAsWritten();
    assert fields == [Some("Main St"), None, Some("None"), None, None, None];
    KeepTruthyOfNothing(fields[3..]);
    assert fields[1..][1..] == fields[2..] && fields[2..][1..] == fields[3..];
  }

  /** ... and so the search text reads "Main St, None". */
  lemma MissingPostalCodeReadsNone()
    ensures Text.Join(Address(Some("Main St"), None, None, None, None, None).QueryPartsAsWritten(), ", ")
              == "Main St, None"
  {
    MissingPostalCodeBecomesPart();
    assert ["Main St", "None"][1..] == ["None"];
  }

  /** The corrected query of the same address names the street alone. */
  lemma MissingPostalCodeLeftOut()
    ensures var a := Address(Some("Main St"), None, None, None, None, None);
            && a.QueryParts() == ["Main St"]
            && a.GoogleMapsQuery() == "Main St"
  {
    var a := Address(Some("Main St"), None, None, None, None, None);
    assert a.Fields() == [Some("Main St"), None, None, None, None, None];
  }

  datatype LinkAttrs = LinkAttrs(mdiIcon: Option<string>, roles: Option<seq<string>>)

  datatype Link = Link(labelText: string, url: string, attrs: LinkAttrs) {
    function Icon(): (r: Option<string>)
      ensures r.None? <==> !Truthy(attrs.mdiIcon)
      ensures r.Some? ==> r.value == "mdi:" + attrs.mdiIcon.value
    {
      OptionalIcon(attrs.mdiIcon)
    }

    function Roles(): Option<seq<string>> {
      attrs.roles
    }
  }

  datatype DoorCodeSettings = DoorCodeSettings(prefix: Option<string>, code: Option<CodeValue>)

  datatype HomeAttrs = HomeAttrs(
    links: seq<Link>,
    address: Option<Address>,
    wifi: Option<Wifi>,
    doorCode: Option<DoorCodeSettings>,
    avatarUrl: Option<string>,
    mdiIcon: Option<string>)

  /** `bool(code)` for `code: str | int | None`. */
  predicate CodeTruthy(code: Option<CodeValue>) {
    code.Some? && code.value.Truthy()
  }

  datatype Home = Home(
    id: string,
    displayName: string,
    connected: Option<bool>,
    rooms: seq<Room>,
    attrs: HomeAttrs)
  {
    /** The configured icon, or `mdi:home`. */
    function Icon(): (r: string)
      ensures Truthy(attrs.mdiIcon) ==> r == "mdi:" + attrs.mdiIcon.value
      ensures !Truthy(attrs.mdiIcon) ==> r == "mdi:home"
    {
      DefaultedIcon(attrs.mdiIcon, "home")
    }

    /** `home_<id>`. */
    function UniqueId(): (r: string)
      ensures |r| == |HomePrefix| + |id|
      ensures r[..|HomePrefix|] == HomePrefix && r[|HomePrefix|..] == id
    {
      HomePrefix + id
    }

    function AvatarUrl(): Option<string> {
      attrs.avatarUrl
    }

    /** The code to open this home's door for `person`: the home's own code,
        else the person's, as text, behind the home's prefix when it has one.
        A home without door-code settings gives no code at all. */
    function DoorCode(person: Option<Person>): (r: Option<string>)
      ensures attrs.doorCode.None? ==> r.None?
      ensures r.Some? <==>
                attrs.doorCode.Some? &&
                (CodeTruthy(attrs.doorCode.value.code) ||
                 (person.Some? && CodeTruthy(person.value.attrs.doorCode)))
      ensures r.Some? && CodeTruthy(attrs.doorCode.value.code) ==>
                r.value == DoorPrefix() + attrs.doorCode.value.code.value.Str()
      ensures r.Some? && !CodeTruthy(attrs.doorCode.value.code) ==>
                r.value == DoorPrefix() + person.value.attrs.doorCode.value.Str()
    {
      if attrs.doorCode.None? then None
      else
        var settings := attrs.doorCode.value;
        var code :=
          if CodeTruthy(settings.code) then settings.code
          else if person.Some? then person.value.attrs.doorCode
          else None;
        if !CodeTruthy(code) then None
        else
          var text := code.value.Str();
          if Truthy(settings.prefix) then Some(settings.prefix.value + text) else Some(text)
    }

    /** The prefix put before a door code: the configured one, or nothing. */
    function DoorPrefix(): string {
      if attrs.doorCode.Some? && Truthy(attrs.doorCode.value.prefix)
      then attrs.doorCode.value.prefix.value
      else ""
    }

    /** `home == other`: homes are the same home when their ids agree, that
        is, exactly when they have the same unique id. */
    predicate Equals(other: Home)
      ensures Equals(other) <==> UniqueId() == other.UniqueId()
    {
      id == other.id
    }
  }

  /** A home's own code makes the person irrelevant. */
  lemma DoorCodeIgnoresPersonWhenHomeHasCode(h: Home, p: Option<Person>, q: Option<Person>)
    requires h.attrs.doorCode.Some? && CodeTruthy(h.attrs.doorCode.value.code)
    ensures h.DoorCode(p) == h.DoorCode(q)
  {
  }

  /** Two different numeric codes never open the door with the same text. */
  lemma DistinctNumericCodesDiffer(h: Home, p: Person, q: Person)
    requires h.attrs.doorCode.Some? && !CodeTruthy(h.attrs.doorCode.value.code)
    requires p.attrs.doorCode.Some? && p.attrs.doorCode.value.IntValue?
    requires q.attrs.doorCode.Some? && q.attrs.doorCode.value.IntValue?
    requires p.attrs.doorCode.value.Truthy() && q.attrs.doorCode.value.Truthy()
    requires p.attrs.doorCode != q.attrs.doorCode
    ensures h.DoorCode(Some(p)).Some? && h.DoorCode(Some(q)).Some?
    ensures h.DoorCode(Some(p)) != h.DoorCode(Some(q))
  {
    var pre := h.DoorPrefix();
    var a := p.attrs.doorCode.value.number;
    var b := q.attrs.doorCode.value.number;
    Text.IntToStringInjective(a, b);
    assert (pre + Text.IntToString(a))[|pre|..] == Text.IntToString(a);
    assert (pre + Text.IntToString(b))[|pre|..] == Text.IntToString(b);
  }

  /** A room or a home, the two kinds of area. */
  datatype Area = RoomArea(room: Room) | HomeArea(home: Home) {
    function Id(): string {
      match this
      case RoomArea(r) => r.id
      case HomeArea(h) => h.id
    }

    /** `self == other`: a room equals only a room, a home only a home, and
        then exactly when the ids agree. */
    predicate Equals(other: Area)
      ensures Equals(other) <==> (RoomArea? == other.RoomArea?) && Id() == other.Id()
    {
      match this
      case RoomArea(r) => other.RoomArea? && r.id == other.room.id
      case HomeArea(h) => other.HomeArea? && h.Equals(other.home)
    }
  }

  /** Area equality is an equivalence that looks at the kind and the id only. */
  lemma AreaEqualsIsKindAndId(a: Area, b: Area, c: Area)
    ensures a.Equals(b) <==> (a.RoomArea? == b.RoomArea?) && a.Id() == b.Id()
    ensures a.Equals(a)
    ensures a.Equals(b) ==> b.Equals(a)
    ensures a.Equals(b) && b.Equals(c) ==> a.Equals(c)
  {
  }

  /** A room and a home are never equal, even when they share an id. */
  lemma RoomNeverEqualsHome(r: Room, h: Home)
    ensures !RoomArea(r).Equals(HomeArea(h)) && !HomeArea(h).Equals(RoomArea(r))
  {
  }

  /** Unique ids never collide: within a kind they determine the id, and a
      person, a room and a home never share one. */
  lemma {:induction false} UniqueIdsDistinct(p: Person, p2: Person, r: Room, r2: Room, h: Home, h2: Home)
    ensures p.UniqueId() == p2.UniqueId() ==> p.id == p2.id
    ensures r.UniqueId() == r2.UniqueId() ==> r.id == r2.id
    ensures h.UniqueId() == h2.UniqueId() ==> h.id == h2.id
    ensures p.UniqueId() != r.UniqueId()
    ensures p.UniqueId() != h.UniqueId()
    ensures r.UniqueId() != h.UniqueId()
  {
    assert p.UniqueId()[0] == 'p';
    assert r.UniqueId()[0] == 'r';
    assert h.UniqueId()[0] == 'h';
  }

  datatype Metadata = Metadata(
    ip: Option<string>,
    mac: Option<string>,
    macIsPrivate: bool,
    wifiSsid: Option<string>,
    extra: map<string, AttrValue>)

  datatype Connection = Connection(
    summary: string,
    known: bool,
    activeIds: seq<string>,
    knownActiveIds: seq<string>,
    network: Network,
    device: Device,
    person: Option<Person>,
    role: Role,
    home: Option<Home>,
    room: Option<Room>,
    metadata: Metadata)
  {
    /** `self == other`: the same network and the same active ids, in order. */
    predicate Equals(other: Connection)
      ensures Equals(other) <==>
                network.id == other.network.id && |activeIds| == |other.activeIds|
                && forall i :: 0 <= i < |activeIds| ==> activeIds[i] == other.activeIds[i]
    {
      network.id == other.network.id && activeIds == other.activeIds
    }
  }

  /** Connection equality is an equivalence that ignores every other field. */
  lemma ConnectionEqualsIsEquivalence(a: Connection, b: Connection, c: Connection)
    ensures a.Equals(a)
    ensures a.Equals(b) ==> b.Equals(a)
    ensures a.Equals(b) && b.Equals(c) ==> a.Equals(c)
    ensures a.Equals(b) ==>
              a.(summary := c.summary, known := c.known, knownActiveIds := c.knownActiveIds,
                 network := a.network.(displayName := c.network.displayName, attrs := c.network.attrs),
                 device := c.device, person := c.person, role := c.role, home := c.home, room := c.room,
                 metadata := c.metadata).Equals(b)
  {
  }

  /** One entry of the live list: who is connected, and where. */
  datatype ConnectedPerson = ConnectedPerson(
    known: bool,
    person: Person,
    home: Option<Home>,
    room: Option<Room>,
    role: Role,
    connection: Connection)
}

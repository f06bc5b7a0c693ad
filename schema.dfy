/** The platform configuration schema of the room occupancy binary sensor: which
    keys it reads, their defaults, and how each raw YAML value is coerced or
    rejected before the sensor is constructed. */
module Schema {
  import opened Values

  /** A raw configuration value as YAML delivers it: `null`, a single scalar or a list. */
  datatype Raw<T> = Null | One(item: T) | Many(items: seq<T>)

  /** The keys of the schema; an absent key is `None`. Entity ids are strings. */
  datatype RawConfig = RawConfig(
    name: Option<Raw<Value>>,
    roomname: Option<Raw<Value>>,
    timeout: Option<Raw<Value>>,
    entitiesToggle: Option<Raw<string>>,
    entitiesKeep: Option<Raw<string>>,
    activeStates: Option<Raw<Value>>)

  /** The validated configuration handed to the sensor's constructor. */
  datatype RoomConfig = RoomConfig(
    name: string,
    roomname: string,
    timeout: int,
    entitiesToggle: seq<string>,
    entitiesKeep: seq<string>,
    activeStates: seq<Value>)

  /** Either a validated configuration or the set of keys whose value was rejected. */
  datatype Validated = Accepted(config: RoomConfig) | Rejected(keys: set<string>)

  const DefaultName: string := "Room Occupancy Sensor"
  const DefaultRoomname: string := "exampleroom"
  const DefaultTimeout: int := 2
  const DefaultActiveStates: seq<Value> :=
    [Str("on"), Str("occupied"), Int(1), Bool(true), Str("active")]

  const KeyName: string := "name"
  const KeyRoomname: string := "roomname"
  const KeyTimeout: string := "timeout"

  /** A key's value, or its default when the key is absent. */
  function WithDefault<T>(given: Option<Raw<T>>, default: Raw<T>): Raw<T> {
    match given
    case None => default
    case Some(v) => v
  }

  /** `cv.ensure_list`: `null` becomes the empty list, a list stays as it is and a
      single value becomes a one-element list. It never rejects. */
  function EnsureList<T>(r: Raw<T>): seq<T> {
    match r
    case Null => []
    case One(x) => [x]
    case Many(xs) => xs
  }

  /** Python `str(v)` for a scalar. */
  function ValueToString(v: Value): (s: string)
    ensures v.Str? ==> s == v.s
    ensures v.Int? ==> ParseInt(s) == Some(v.i)
  {
    match v
    case Str(s) => s
    case Int(i) => IntToStringRoundTrip(i); IntToString(i)
    case Bool(b) => if b then "True" else "False"
  }

  /** `cv.string`: rejects `null` and lists, converts any scalar with `str`. */
  function CoerceString(r: Raw<Value>): Option<string> {
    match r
    case One(v) => Some(ValueToString(v))
    case _ => None
  }

  /** Python `int(v)` for a scalar: numbers (bools included) keep their value,
      strings are parsed as decimal integers. */
  function CoerceInt(v: Value): Option<int> {
    match v
    case Str(s) => ParseInt(s)
    case _ => AsNumber(v)
  }

  /** `cv.positive_int`: coerce to `int`, then require at least 0. `null` and
      lists cannot be coerced and are rejected. */
  function CoercePositiveInt(r: Raw<Value>): (n: Option<int>)
    ensures n.Some? ==> n.value >= 0
    ensures r.One? && r.item.Int? ==> (n.Some? <==> r.item.i >= 0)
    ensures !r.One? ==> n.None?
  {
    match r
    case One(v) =>
      var c := CoerceInt(v);
      if c.Some? && c.value >= 0 then c else None
    case _ => None
  }

  /** The whole schema: each key takes its default when absent and is then
      coerced; the result is either the configuration or every rejected key.
      `name` and `roomname` are rejected exactly when given as `null` or a list,
      `timeout` exactly when its value cannot be coerced to an integer of at
      least 0; the lists are never rejected. */
  function Validate(raw: RawConfig): (r: Validated)
    // which keys reject, for every input
    ensures r.Accepted? <==> (raw.name.None? || raw.name.value.One?)
                             && (raw.roomname.None? || raw.roomname.value.One?)
                             && (raw.timeout.None? || CoercePositiveInt(raw.timeout.value).Some?)
    ensures r.Rejected? ==> r.keys != {} && r.keys <= {KeyName, KeyRoomname, KeyTimeout}
    ensures r.Rejected? ==> (KeyName in r.keys <==> raw.name.Some? && !raw.name.value.One?)
    ensures r.Rejected? ==> (KeyRoomname in r.keys <==> raw.roomname.Some? && !raw.roomname.value.One?)
    ensures r.Rejected? ==> (KeyTimeout in r.keys <==>
                               raw.timeout.Some? && CoercePositiveInt(raw.timeout.value).None?)
    // an absent key takes its default
    ensures r.Accepted? && raw.name.None? ==> r.config.name == DefaultName
    ensures r.Accepted? && raw.roomname.None? ==> r.config.roomname == DefaultRoomname
    ensures r.Accepted? && raw.timeout.None? ==> r.config.timeout == DefaultTimeout
    ensures r.Accepted? && raw.entitiesToggle.None? ==> r.config.entitiesToggle == []
    ensures r.Accepted? && raw.entitiesKeep.None? ==> r.config.entitiesKeep == []
    ensures r.Accepted? && raw.activeStates.None? ==> r.config.activeStates == DefaultActiveStates
    // a given key keeps its coerced value
    ensures r.Accepted? ==> r.config.timeout >= 0
    ensures r.Accepted? && raw.name.Some? ==> r.config.name == ValueToString(raw.name.value.item)
    ensures r.Accepted? && raw.roomname.Some? ==> r.config.roomname == ValueToString(raw.roomname.value.item)
    ensures r.Accepted? && raw.timeout.Some? ==> Some(r.config.timeout) == CoercePositiveInt(raw.timeout.value)
    // a given list is taken as `cv.ensure_list` makes it
    ensures r.Accepted? && raw.entitiesToggle.Some? ==>
              r.config.entitiesToggle == match raw.entitiesToggle.value { case Null => [] case One(x) => [x] case Many(xs) => xs }
    ensures r.Accepted? && raw.entitiesKeep.Some? ==>
              r.config.entitiesKeep == match raw.entitiesKeep.value { case Null => [] case One(x) => [x] case Many(xs) => xs }
    ensures r.Accepted? && raw.activeStates.Some? ==>
              r.config.activeStates == match raw.activeStates.value { case Null => [] case One(x) => [x] case Many(xs) => xs }
  {
    var name := CoerceString(WithDefault(raw.name, One(Str(DefaultName))));
    var roomname := CoerceString(WithDefault(raw.roomname, One(Str(DefaultRoomname))));
    var timeout := CoercePositiveInt(WithDefault(raw.timeout, One(Int(DefaultTimeout))));
    var toggle := EnsureList(WithDefault(raw.entitiesToggle, Many([])));
    var keep := EnsureList(WithDefault(raw.entitiesKeep, Many([])));
    var active := EnsureList(WithDefault(raw.activeStates, Many(DefaultActiveStates)));
    if name.Some? && roomname.Some? && timeout.Some? then
      Accepted(RoomConfig(name.value, roomname.value, timeout.value, toggle, keep, active))
    else
      Rejected((if name.None? then {KeyName} else {})
               + (if roomname.None? then {KeyRoomname} else {})
               + (if timeout.None? then {KeyTimeout} else {}))
  }

  /** An empty configuration is accepted with every default in place. */
  lemma EmptyConfigTakesDefaults()
    ensures Validate(RawConfig(None, None, None, None, None, None))
            == Accepted(RoomConfig(DefaultName, DefaultRoomname, DefaultTimeout, [], [], DefaultActiveStates))
  {
  }

  /** A configuration whose three scalar keys hold strings and a non-negative
      integer is accepted, and keeps those values and the listed entities. */
  lemma WellFormedConfigAccepted(name: string, roomname: string, timeout: int,
                                 toggle: seq<string>, keep: seq<string>)
    requires timeout >= 0
    ensures Validate(RawConfig(Some(One(Str(name))), Some(One(Str(roomname))), Some(One(Int(timeout))),
                               Some(Many(toggle)), Some(Many(keep)), None))
            == Accepted(RoomConfig(name, roomname, timeout, toggle, keep, DefaultActiveStates))
  {
  }

  /** A timeout given as the decimal text of a non-negative integer is accepted as
      that integer; a negative one is rejected under the key `timeout`. */
  lemma TimeoutFromText(raw: RawConfig, t: int)
    requires raw.timeout == Some(One(Str(IntToString(t))))
    ensures t >= 0 ==> (Validate(raw).Accepted? ==> Validate(raw).config.timeout == t)
    ensures t < 0 ==> Validate(raw).Rejected? && KeyTimeout in Validate(raw).keys
  {
    IntToStringRoundTrip(t);
  }

  /** Only `name`, `roomname` and `timeout` can reject a configuration: with those
      well-formed, any entity lists and active states are accepted. */
  lemma ListsNeverRejected(raw: RawConfig)
    requires raw.name.None? || raw.name.value.One?
    requires raw.roomname.None? || raw.roomname.value.One?
    requires raw.timeout.None? ||
             (raw.timeout.value.One? && raw.timeout.value.item.Int? && raw.timeout.value.item.i >= 0)
    ensures Validate(raw).Accepted?
  {
  }

  /** The default active states match exactly the strings "on", "occupied" and
      "active" and the number 1, which Python also equals to `True`. */
  lemma DefaultActiveStatesMembers(v: Value)
    ensures In(v, DefaultActiveStates) <==>
              v == Str("on") || v == Str("occupied") || v == Str("active") || AsNumber(v) == Some(1)
  {
    if AsNumber(v) == Some(1) {
      assert PyEq(v, DefaultActiveStates[2]);
    }
    if v == Str("on") { assert PyEq(v, DefaultActiveStates[0]); }
    if v == Str("occupied") { assert PyEq(v, DefaultActiveStates[1]); }
    if v == Str("active") { assert PyEq(v, DefaultActiveStates[4]); }
  }
}

# Room occupancy binary sensor — Dafny model

The room occupancy integration combines several Home Assistant entities into one
occupancy binary sensor for a room. It uses two lists of entities:

- "toggle" entities, such as motion detectors, can switch the room to occupied;
- "keep" entities, such as a TV, are consulted only once the room is occupied.

A state counts as active when it is one of the configured `active_states`.

This project models the core of `custom_components/room_occupancy/binary_sensor.py`:

- `values.dfy` (module `Values`) defines the values that configurations and entity
  states hold (strings, integers and booleans). It also gives Python's `==`, where
  `1 == True`, Python's `in` on a list, and `str()`/`int()` on integers.
- `schema.dfy` (module `Schema`) models the platform configuration schema. It covers
  the defaults of the six keys, `cv.string`, `cv.positive_int` and `cv.ensure_list`,
  and validation that either yields a configuration or names every rejected key.
- `occupancy.dfy` (module `Occupancy`) is the update rule as pure functions.
  `Scan` is one pass of an update loop. `Evaluate` picks the entities to scan from the
  current state. The lemmas cover completion, errors, monotonicity, idempotence, list
  order and which states the update reads.
- `sensor.dfy` (module `Sensor`) has the entity itself, a class with the fields that
  `__init__` sets. Its `Update` method scans the entities in place and changes only
  `state`, and it is proved against `Evaluate`. The module also holds the filter of
  the state-change listener.

The update behaves as follows. While the sensor is off, only the toggle entities are
scanned. While it is on, the toggle entities and then the keep entities are scanned.
An entity whose state is active sets the sensor on, and no branch ever sets it off.
The scan goes through the whole list and does not stop at the first match. The code
reads `hass.states.get(entity).state` without a `None` check. So an entity that has no
state raises in the middle of the loop, and any `True` already assigned by then stays
assigned. The model returns that entity as `Raised` and keeps the partial state.

Behaviour of the code as written:

- A missing entity is an error, not an inactive entity.
- While the sensor is on, an update leaves it on whatever the states are. It does not
  recompute "some toggle or keep entity is active".
- There is no timeout controller. `timeout` is stored and never read.

`cv.positive_int` is Home Assistant's `Coerce(int)` followed by `Range(min=0)`, so a
timeout of 0 is accepted. Home Assistant's config-validation module is not among the
repository's files. `cv.string`, `cv.positive_int` and `cv.ensure_list` are modelled
from Home Assistant's definitions of them.

## Model

| member | source | states |
|---|---|---|
| `Sensor.RoomOccupancyBinarySensor.constructor` | custom_components/room_occupancy/binary_sensor.py:104-113 | every configuration field holds its argument and a new sensor is off |
| `Sensor.RoomOccupancyBinarySensor.Update` | custom_components/room_occupancy/binary_sensor.py:159-174 | the new state and the raised entity are those of `Evaluate` on the old state, which scans the toggle list while off and the toggle list followed by the keep list while on (`Consulted`); only `state` may change, so name, roomname, both lists, timeout and active states are untouched |
| `Sensor.RoomOccupancyBinarySensor.MarkIfActive` | custom_components/room_occupancy/binary_sensor.py:164-167 | the loop over a list of entities ends with the state and raised entity of `Scan` from the state before the loop |
| `Sensor.FirstUpdate` | custom_components/room_occupancy/binary_sensor.py:112-113 | a freshly built sensor's first update completes iff every toggle entity has a state, then is on iff some toggle entity is active; otherwise it raises at a toggle entity without a state |
| `Sensor.UpdateTwice` | custom_components/room_occupancy/binary_sensor.py:159-174 | a second update with the same snapshot leaves the state the first one produced, and a sensor that was on is still on |
| `Occupancy.Scan` | custom_components/room_occupancy/binary_sensor.py:164-167 | a scan never turns the sensor off; it completes iff every entity has a state, and then is on iff it was on or some entity's state is active; a raise names an entity of the list that has no state |
| `Occupancy.ScanRaisesAtFirstMissing` | custom_components/room_occupancy/binary_sensor.py:164-167 | a raising scan stops at the first entity without a state, and its state reflects only the entities before it |
| `Occupancy.ScanReadsOnlyItsEntities` | custom_components/room_occupancy/binary_sensor.py:164-165 | snapshots that agree on the scanned entities give the same scan result |
| `Occupancy.OffUpdate` | custom_components/room_occupancy/binary_sensor.py:163-167 | starting off with every toggle entity present, the update completes and is on iff some toggle entity's state is active |
| `Occupancy.OffUpdateRaises` | custom_components/room_occupancy/binary_sensor.py:164-165 | starting off, the update raises iff some toggle entity has no state |
| `Occupancy.OffUpdateIgnoresKeep` | custom_components/room_occupancy/binary_sensor.py:163-167 | starting off, the keep list and every state outside the toggle list have no influence on the result |
| `Occupancy.OnUpdate` | custom_components/room_occupancy/binary_sensor.py:169-173 | starting on, the sensor stays on, and the update completes iff every toggle and keep entity has a state |
| `Occupancy.UpdateMonotone` | custom_components/room_occupancy/binary_sensor.py:163-173 | no update takes the sensor from on to off |
| `Occupancy.UpdateIdempotent` | custom_components/room_occupancy/binary_sensor.py:163-173 | updating again with the same snapshot does not change the state the first update produced, raised or not |
| `Occupancy.SecondUpdateMayRaise` | custom_components/room_occupancy/binary_sensor.py:169-171 | once on, a keep entity without a state makes the next update raise where the first one completed |
| `Occupancy.AnyActiveSameEntries` | custom_components/room_occupancy/binary_sensor.py:164-166 | lists with the same entries agree on whether some entity is active and whether all are present |
| `Occupancy.UpdateIgnoresOrder` | custom_components/room_occupancy/binary_sensor.py:163-173 | permuting the toggle list, the keep list or the active states changes neither completion nor a completed update's state |
| `Occupancy.RaisedStateDependsOnOrder` | custom_components/room_occupancy/binary_sensor.py:164-167 | a raising update's partial state depends on list order: an active entity before the missing one has already set the sensor on |
| `Sensor.ListenerAdmitsUnwatchedEntity` | custom_components/room_occupancy/binary_sensor.py:153-156 | an event about an entity in neither list passes the filter as written once a keep entity exists |
| `Sensor.ListenerFiltersCompared` | custom_components/room_occupancy/binary_sensor.py:153-156 | the filter as written (`ListenerAdmitsAsWritten`, which Python reads as `(entity in toggle) or keep`) admits every event the intended one does, admits every event once the keep list is non-empty, and agrees with the intended filter when there are no keep entities |
| `Sensor.ListenerAdmitsWatchedOnly` | custom_components/room_occupancy/binary_sensor.py:153-156 | the intended filter (`ListenerAdmits`) passes an event iff its entity id is a toggle or a keep entity, never passes an event without an id, and does not depend on which list holds the entity |
| `Values.PyEqEquivalence` | custom_components/room_occupancy/binary_sensor.py:166 | the `==` behind `state in active_states` is reflexive, symmetric and transitive |
| `Values.NumbersAndBools` | custom_components/room_occupancy/binary_sensor.py:72 | `1` and `True` are equal, and neither equals its string spelling |
| `Values.InSameEntries` | custom_components/room_occupancy/binary_sensor.py:166 | membership in the active states depends only on which entries the list holds |
| `Values.NatToString` | custom_components/room_occupancy/binary_sensor.py:66-67 | the decimal text of a natural number is non-empty digits without a leading zero |
| `Values.IntToString` | custom_components/room_occupancy/binary_sensor.py:66-67 | `str` of an integer is non-empty and starts with `-` iff the integer is negative |
| `Values.ParseInt` | custom_components/room_occupancy/binary_sensor.py:68 | `int` of a string yields a non-positive number after `-` and a non-negative one after a digit |
| `Values.NatToStringRoundTrip` | custom_components/room_occupancy/binary_sensor.py:66-68 | reading back the decimal text of a natural number gives that number |
| `Values.IntToStringRoundTrip` | custom_components/room_occupancy/binary_sensor.py:66-68 | `int(str(i)) == i` for every integer |
| `Schema.ValueToString` | custom_components/room_occupancy/binary_sensor.py:66-67 | a string is kept, and an integer becomes text that reads back as that integer |
| `Schema.CoercePositiveInt` | custom_components/room_occupancy/binary_sensor.py:68 | an accepted timeout is at least 0; an integer is accepted iff it is at least 0; `null` and lists are rejected |
| `Schema.Validate` | custom_components/room_occupancy/binary_sensor.py:64-75 | a configuration is accepted iff `name` and `roomname` are absent or scalars and `timeout` is absent or coerces to an integer of at least 0; a rejection names exactly the failing keys; each absent key takes its default ("Room Occupancy Sensor", "exampleroom", 2, `[]`, `[]`, the five active states); a given name or room name is its `str`, a given timeout its coerced value, and a given list is taken as `cv.ensure_list` makes it (`null` to `[]`, a scalar to a one-element list) |
| `Schema.EmptyConfigTakesDefaults` | custom_components/room_occupancy/binary_sensor.py:56-75 | an empty configuration is accepted as "Room Occupancy Sensor", "exampleroom", timeout 2, no entities and the five default active states |
| `Schema.WellFormedConfigAccepted` | custom_components/room_occupancy/binary_sensor.py:64-75 | string names, a non-negative integer timeout and entity lists are accepted unchanged |
| `Schema.TimeoutFromText` | custom_components/room_occupancy/binary_sensor.py:68 | a timeout given as decimal text is read as its integer, and a negative one is rejected under `timeout` |
| `Schema.ListsNeverRejected` | custom_components/room_occupancy/binary_sensor.py:69-73 | with scalar names and a non-negative integer timeout, any entity lists and active states are accepted |
| `Schema.DefaultActiveStatesMembers` | custom_components/room_occupancy/binary_sensor.py:72 | a value is a default active state iff it is "on", "occupied", "active" or numerically 1 (which includes `True`) |

## Findings

| source | as written | input that shows it | evidently intended | confidence | as-written member | corrected member |
|---|---|---|---|---|---|---|
| custom_components/room_occupancy/binary_sensor.py:153-156 | `entity_id in self.entities_toggle or self.entities_keep` is `(entity_id in entities_toggle) or entities_keep` | toggle `["binary_sensor.motion"]`, keep `["media_player.tv"]`, an event for `light.hall`: it passes | the event passes only when its entity is a toggle or a keep entity | not executed; follows from Python's operator precedence | `Sensor.ListenerAdmitsUnwatchedEntity` | `Sensor.ListenerAdmitsWatchedOnly` |

## Left out

- Timeout, debounce and off-transition: the code has none. `timeout` is only stored (binary_sensor.py:111), so the sensor never turns off once on, and the model does not add a timer.
- `async_setup_platform` (binary_sensor.py:78-100): reload-service registration and entity creation belong to the host. `Schema.Validate` models the configuration it receives.
- `async_write_ha_state` (binary_sensor.py:174): publishing to the host's state machine changes nothing the model holds, so it is a no-op after a completed update.
- Listener wiring (binary_sensor.py:127-157): the listener is defined but never subscribed. It also calls `self.async_update(self)` without `await` and passes the sensor as `hass`. Only its entity filter is modelled.
- The `name`, `is_on` and `device_class` properties: they read the `name` and `state` fields or return a constant.
- Logging.
- `__init__.py`, `config_flow.py`, `options_flow.py` and `const.py`: host setup and UI configuration wizards that do not feed this platform's schema.
- Entity-id lookup: Home Assistant lower-cases an id before the lookup. The snapshot here is keyed by the exact id.
- State values: the host always stores a state as a string, while the model also allows integers and booleans in the snapshot. With the default active states, a string state "1" or "True" matches none of them; only "on", "occupied" or "active" can match.
- Entity ids are restricted to strings. `cv.ensure_list` accepts any YAML value, so `entities_toggle: 5` becomes `[5]`, and that id then fails inside the host's state lookup on update. The model's entity lists hold strings only, so it cannot express this.
- `Values.ParseInt`: models Python `int()` on an optional sign and decimal digits only. Surrounding whitespace and `_` digit separators, which Python also accepts, are rejected here.
- Configuration values other than strings, integers, booleans, `null` and lists (floats, mappings) are not modelled. Neither are the base platform schema's `platform` key and extra keys.
- Concurrency: each update runs to completion before the next event, so updates are modelled one after another.

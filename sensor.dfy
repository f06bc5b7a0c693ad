/** The room occupancy binary sensor entity: its configuration fields, its
    on/off state, the update that scans the configured entities in place, and
    the filter its state-change listener applies to incoming events. */
module Sensor {
  import opened Values
  import opened Occupancy

  class RoomOccupancyBinarySensor {
    var name: string
    var roomname: string
    var entitiesToggle: seq<EntityId>
    var entitiesKeep: seq<EntityId>
    /** Stored, and read by nothing: no update consults it. */
    var timeout: int
    /** Whether the room is occupied; `is_on` reports this field. */
    var state: bool
    var activeStates: seq<Value>

    /** A new sensor keeps its configuration and starts unoccupied. */
    constructor (name: string, roomname: string, entitiesToggle: seq<EntityId>,
                 entitiesKeep: seq<EntityId>, timeout: int, activeStates: seq<Value>)
      ensures this.name == name && this.roomname == roomname
      ensures this.entitiesToggle == entitiesToggle && this.entitiesKeep == entitiesKeep
      ensures this.timeout == timeout && this.activeStates == activeStates
      ensures !state
    {
      this.name := name;
      this.roomname := roomname;
      this.entitiesToggle := entitiesToggle;
      this.entitiesKeep := entitiesKeep;
      this.timeout := timeout;
      this.state := false;
      this.activeStates := activeStates;
    }

    /** Re-reads the consulted entities' states from `snapshot`. While off only the
        toggle entities are scanned, while on the toggle and then the keep entities.
        Returns the entity whose missing state stopped the update, if any; the
        state already set by then stays set. Only `state` may change. */
    method Update(snapshot: Snapshot) returns (raised: Option<EntityId>)
      modifies this`state
      ensures var r := Evaluate(old(state), entitiesToggle, entitiesKeep, snapshot, activeStates);
              state == r.on && raised == (if r.Raised? then Some(r.missing) else None)
    {
      if !state {
        raised := MarkIfActive(entitiesToggle, snapshot);
      } else {
        raised := MarkIfActive(entitiesToggle + entitiesKeep, snapshot);
      }
      // Writing the state to the host (async_write_ha_state) happens here when
      // nothing was raised; it changes nothing this model holds.
    }

    /** The loop of one branch of the update: for each entity in order, stop with
        that entity if it has no state, otherwise set the sensor on when its state
        is one of the active states. */
    method MarkIfActive(entities: seq<EntityId>, snapshot: Snapshot) returns (raised: Option<EntityId>)
      modifies this`state
      ensures var r := Scan(old(state), entities, snapshot, activeStates);
              state == r.on && raised == (if r.Raised? then Some(r.missing) else None)
    {
      var i := 0;
      while i < |entities|
        invariant 0 <= i <= |entities|
        invariant Scan(old(state), entities, snapshot, activeStates)
                  == Scan(state, entities[i..], snapshot, activeStates)
      {
        var entity := entities[i];
        assert entities[i..][1..] == entities[i + 1..];
        if entity !in snapshot {
          return Some(entity);
        }
        if In(snapshot[entity], activeStates) {
          state := true;
        }
        i := i + 1;
      }
      return None;
    }
  }

  /** A fresh sensor is off, and its first update is decided by the toggle
      entities alone. */
  method FirstUpdate(name: string, roomname: string, toggle: seq<EntityId>, keep: seq<EntityId>,
                     timeout: int, active: seq<Value>, snapshot: Snapshot)
    returns (on: bool, raised: Option<EntityId>)
    ensures raised.None? <==> AllPresent(toggle, snapshot)
    ensures raised.None? ==> (on <==> AnyActive(toggle, snapshot, active))
    ensures raised.Some? ==> raised.value in toggle && raised.value !in snapshot
  {
    var sensor := new RoomOccupancyBinarySensor(name, roomname, toggle, keep, timeout, active);
    raised := sensor.Update(snapshot);
    on := sensor.state;
  }

  /** Two updates in a row against the same snapshot: the second leaves the
      state where the first put it, and nothing but the state has changed. */
  method UpdateTwice(sensor: RoomOccupancyBinarySensor, snapshot: Snapshot)
    returns (first: bool, second: bool)
    modifies sensor`state
    ensures first == second
    ensures old(sensor.state) ==> first
  {
    var _ := sensor.Update(snapshot);
    first := sensor.state;
    UpdateIdempotent(old(sensor.state), sensor.entitiesToggle, sensor.entitiesKeep, snapshot, sensor.activeStates);
    var _ := sensor.Update(snapshot);
    second := sensor.state;
  }

  // ---------------------------------------------------------------------------
  // The state-change listener's filter

  /** Python truthiness of a list: true when it is non-empty. */
  predicate Truthy<T>(xs: seq<T>) { xs != [] }

  /** Python `x in xs` where `x` may be `None` (the event carries no entity id);
      `None` is in no list of ids. */
  predicate OptionIn(x: Option<EntityId>, xs: seq<EntityId>) {
    x.Some? && x.value in xs
  }

  /** The filter as written, `changed in entities_toggle or entities_keep`, which
      Python reads as `(changed in entities_toggle) or entities_keep`: every event
      passes as soon as there is a keep entity. */
  predicate ListenerAdmitsAsWritten(changed: Option<EntityId>, toggle: seq<EntityId>, keep: seq<EntityId>) {
    OptionIn(changed, toggle) || Truthy(keep)
  }

  /** An event about an entity the sensor does not watch passes the filter as
      written once a keep entity is configured. */
  lemma ListenerAdmitsUnwatchedEntity()
    ensures var toggle, keep := ["binary_sensor.motion"], ["media_player.tv"];
            ListenerAdmitsAsWritten(Some("light.hall"), toggle, keep)
            && "light.hall" !in toggle && "light.hall" !in keep
  {
  }

  /** The evidently intended filter: the changed entity is a toggle or a keep entity. */
  predicate ListenerAdmits(changed: Option<EntityId>, toggle: seq<EntityId>, keep: seq<EntityId>) {
    OptionIn(changed, toggle + keep)
  }

  /** The intended filter passes exactly the events about watched entities: it
      never passes an event without an entity id or about an entity in neither
      list, however many keep entities there are, and it does not depend on the
      order of the lists or on which list an entity is in. */
  lemma ListenerAdmitsWatchedOnly(changed: Option<EntityId>, toggle: seq<EntityId>, keep: seq<EntityId>)
    ensures ListenerAdmits(changed, toggle, keep)
            <==> changed.Some? && (changed.value in toggle || changed.value in keep)
    ensures changed.None? ==> !ListenerAdmits(changed, toggle, keep)
    ensures ListenerAdmits(changed, toggle, keep) == ListenerAdmits(changed, keep, toggle)
  {
  }

  /** The filter as written admits every event the intended one does; it admits
      every event at all, with or without an entity id, as soon as there is a keep
      entity; and the two agree when there are no keep entities. */
  lemma ListenerFiltersCompared(changed: Option<EntityId>, toggle: seq<EntityId>, keep: seq<EntityId>)
    ensures ListenerAdmits(changed, toggle, keep) ==> ListenerAdmitsAsWritten(changed, toggle, keep)
    ensures keep != [] ==> ListenerAdmitsAsWritten(changed, toggle, keep)
    ensures keep == [] ==> (ListenerAdmits(changed, toggle, keep) <==> ListenerAdmitsAsWritten(changed, toggle, keep))
  {
  }
}

/** The occupancy update rule of the room occupancy sensor, as pure functions:
    while unoccupied only the toggle entities are consulted, while occupied the
    toggle and keep entities together; a consulted entity whose current value is
    one of the active states sets the sensor on, and nothing ever sets it off.
    A consulted entity that has no state stops the scan with an error. */
module Occupancy {
  import opened Values

  type EntityId = string

  /** The host's state registry at the moment of an update: entity id to the
      entity's current state value. An id without an entry has no state. */
  type Snapshot = map<EntityId, Value>

  /** How a scan over a list of entities ends: it either reaches the end of the
      list, or stops at the first entity that has no state (the source raises
      there) with whatever value the sensor state had reached by then. */
  datatype ScanResult = Completed(on: bool) | Raised(on: bool, missing: EntityId)

  /** Some entity of `entities` has a state that is one of the active states. */
  predicate AnyActive(entities: seq<EntityId>, snapshot: Snapshot, active: seq<Value>) {
    exists k :: 0 <= k < |entities| && entities[k] in snapshot && In(snapshot[entities[k]], active)
  }

  /** Every entity of `entities` has a state. */
  predicate AllPresent(entities: seq<EntityId>, snapshot: Snapshot) {
    forall k :: 0 <= k < |entities| ==> entities[k] in snapshot
  }

  /** One pass of the update loop over `entities`, starting from sensor state `on`. */
  function Scan(on: bool, entities: seq<EntityId>, snapshot: Snapshot, active: seq<Value>): (r: ScanResult)
    ensures on ==> r.on
    ensures r.Completed? <==> AllPresent(entities, snapshot)
    ensures r.Completed? ==> (r.on <==> on || AnyActive(entities, snapshot, active))
    ensures r.Raised? ==> r.missing in entities && r.missing !in snapshot
    decreases |entities|
  {
    if entities == [] then Completed(on)
    else if entities[0] !in snapshot then Raised(on, entities[0])
    else
      var rest := entities[1..];
      var r := Scan(on || In(snapshot[entities[0]], active), rest, snapshot, active);
      assert AllPresent(entities, snapshot) <==> AllPresent(rest, snapshot) by {
        if AllPresent(rest, snapshot) {
          forall k | 0 <= k < |entities| ensures entities[k] in snapshot {
            if k > 0 { assert entities[k] == rest[k - 1]; }
          }
        }
      }
      assert AnyActive(entities, snapshot, active) <==>
             In(snapshot[entities[0]], active) || AnyActive(rest, snapshot, active) by {
        if AnyActive(entities, snapshot, active) && !In(snapshot[entities[0]], active) {
          var k :| 0 <= k < |entities| && entities[k] in snapshot && In(snapshot[entities[k]], active);
          assert rest[k - 1] == entities[k];
        }
        if AnyActive(rest, snapshot, active) {
          var k :| 0 <= k < |rest| && rest[k] in snapshot && In(snapshot[rest[k]], active);
          assert entities[k + 1] == rest[k];
        }
      }
      r
  }

  /** The entities an update consults: the toggle entities while off, the toggle
      entities followed by the keep entities while on. */
  function Consulted(on: bool, toggle: seq<EntityId>, keep: seq<EntityId>): seq<EntityId> {
    if on then toggle + keep else toggle
  }

  /** One update of the sensor whose state is `on`. */
  function Evaluate(on: bool, toggle: seq<EntityId>, keep: seq<EntityId>,
                    snapshot: Snapshot, active: seq<Value>): ScanResult
  {
    Scan(on, Consulted(on, toggle, keep), snapshot, active)
  }

  // ---------------------------------------------------------------------------
  // The scan stops at the first entity without a state

  /** A raised scan stopped at the first entity of the list that has no state,
      and its sensor state is what the entities before that one decided. */
  lemma {:induction false} ScanRaisesAtFirstMissing(on: bool, entities: seq<EntityId>,
                                                    snapshot: Snapshot, active: seq<Value>)
    requires Scan(on, entities, snapshot, active).Raised?
    ensures exists k :: 0 <= k < |entities| && entities[k] !in snapshot
              && AllPresent(entities[..k], snapshot)
              && Scan(on, entities, snapshot, active)
                 == Raised(on || AnyActive(entities[..k], snapshot, active), entities[k])
    decreases |entities|
  {
    var r := Scan(on, entities, snapshot, active);
    if entities[0] !in snapshot {
      assert entities[..0] == [];
      assert r == Raised(on || AnyActive(entities[..0], snapshot, active), entities[0]);
    } else {
      var rest := entities[1..];
      var on' := on || In(snapshot[entities[0]], active);
      ScanRaisesAtFirstMissing(on', rest, snapshot, active);
      var k :| 0 <= k < |rest| && rest[k] !in snapshot && AllPresent(rest[..k], snapshot)
               && Scan(on', rest, snapshot, active)
                  == Raised(on' || AnyActive(rest[..k], snapshot, active), rest[k]);
      var prefix := entities[..k + 1];
      assert prefix == [entities[0]] + rest[..k];
      assert AllPresent(prefix, snapshot) by {
        forall j | 0 <= j < |prefix| ensures prefix[j] in snapshot {
          if j > 0 { assert prefix[j] == rest[..k][j - 1]; }
        }
      }
      assert AnyActive(prefix, snapshot, active) <==>
             In(snapshot[entities[0]], active) || AnyActive(rest[..k], snapshot, active) by {
        if AnyActive(prefix, snapshot, active) && !In(snapshot[entities[0]], active) {
          var j :| 0 <= j < |prefix| && prefix[j] in snapshot && In(snapshot[prefix[j]], active);
          assert rest[..k][j - 1] == prefix[j];
        }
        if AnyActive(rest[..k], snapshot, active) {
          var j :| 0 <= j < k && rest[..k][j] in snapshot && In(snapshot[rest[..k][j]], active);
          assert prefix[j + 1] == rest[..k][j];
        }
      }
      assert entities[k + 1] == rest[k];
    }
  }

  /** The scan reads the snapshot only at the entities it is given: two snapshots
      that agree on those entities give the same result. */
  lemma {:induction false} ScanReadsOnlyItsEntities(on: bool, entities: seq<EntityId>,
                                                    s1: Snapshot, s2: Snapshot, active: seq<Value>)
    requires forall e :: e in entities ==> (e in s1 <==> e in s2)
    requires forall e :: e in entities && e in s1 ==> s1[e] == s2[e]
    ensures Scan(on, entities, s1, active) == Scan(on, entities, s2, active)
    decreases |entities|
  {
    if entities != [] && entities[0] in s1 {
      var rest := entities[1..];
      assert forall e :: e in rest ==> e in entities;
      ScanReadsOnlyItsEntities(on || In(s1[entities[0]], active), rest, s1, s2, active);
    }
  }

  // ---------------------------------------------------------------------------
  // Properties of one update

  /** While off, an update that completes turns the sensor on exactly when some
      toggle entity is in an active state. */
  lemma OffUpdate(toggle: seq<EntityId>, keep: seq<EntityId>, snapshot: Snapshot, active: seq<Value>)
    requires AllPresent(toggle, snapshot)
    ensures Evaluate(false, toggle, keep, snapshot, active) == Completed(AnyActive(toggle, snapshot, active))
  {
  }

  /** While off, an update raises exactly when some toggle entity has no state;
      keep entities play no part in it. */
  lemma OffUpdateRaises(toggle: seq<EntityId>, keep: seq<EntityId>, snapshot: Snapshot, active: seq<Value>)
    ensures Evaluate(false, toggle, keep, snapshot, active).Raised?
            <==> exists k :: 0 <= k < |toggle| && toggle[k] !in snapshot
  {
  }

  /** While off, neither the keep list nor the states of entities outside the
      toggle list affect the update in any way. */
  lemma OffUpdateIgnoresKeep(toggle: seq<EntityId>, keep1: seq<EntityId>, keep2: seq<EntityId>,
                             s1: Snapshot, s2: Snapshot, active: seq<Value>)
    requires forall e :: e in toggle ==> (e in s1 <==> e in s2)
    requires forall e :: e in toggle && e in s1 ==> s1[e] == s2[e]
    ensures Evaluate(false, toggle, keep1, s1, active) == Evaluate(false, toggle, keep2, s2, active)
  {
    ScanReadsOnlyItsEntities(false, toggle, s1, s2, active);
  }

  /** While on, an update never turns the sensor off; it completes exactly when
      every toggle and keep entity has a state. */
  lemma OnUpdate(toggle: seq<EntityId>, keep: seq<EntityId>, snapshot: Snapshot, active: seq<Value>)
    ensures Evaluate(true, toggle, keep, snapshot, active).on
    ensures Evaluate(true, toggle, keep, snapshot, active).Completed?
            <==> AllPresent(toggle, snapshot) && AllPresent(keep, snapshot)
  {
    var es := Consulted(true, toggle, keep);
    assert es == toggle + keep;
    if AllPresent(es, snapshot) {
      forall k | 0 <= k < |toggle| ensures toggle[k] in snapshot {
        assert toggle[k] == es[k];
      }
      forall k | 0 <= k < |keep| ensures keep[k] in snapshot {
        assert keep[k] == es[|toggle| + k];
      }
    }
    if AllPresent(toggle, snapshot) && AllPresent(keep, snapshot) {
      forall k | 0 <= k < |es| ensures es[k] in snapshot {
        if k < |toggle| { assert es[k] == toggle[k]; } else { assert es[k] == keep[k - |toggle|]; }
      }
    }
  }

  /** No update sets the sensor from on to off. */
  lemma UpdateMonotone(on: bool, toggle: seq<EntityId>, keep: seq<EntityId>,
                       snapshot: Snapshot, active: seq<Value>)
    ensures on ==> Evaluate(on, toggle, keep, snapshot, active).on
  {
  }

  /** Updating a second time against the same snapshot leaves the sensor state
      where the first update put it, whether or not either update raised. */
  lemma UpdateIdempotent(on: bool, toggle: seq<EntityId>, keep: seq<EntityId>,
                         snapshot: Snapshot, active: seq<Value>)
    ensures var once := Evaluate(on, toggle, keep, snapshot, active).on;
            Evaluate(once, toggle, keep, snapshot, active).on == once
  {
  }

  /** The second update can raise where the first one did not: once on, the keep
      entities are consulted too, and one of them may have no state. */
  lemma SecondUpdateMayRaise()
    ensures var s: Snapshot := map["motion" := Str("on")];
            Evaluate(false, ["motion"], ["tv"], s, [Str("on")]) == Completed(true)
            && Evaluate(true, ["motion"], ["tv"], s, [Str("on")]) == Raised(true, "tv")
  {
    var s: Snapshot := map["motion" := Str("on")];
    var active := [Str("on")];
    assert In(s["motion"], active) by { assert PyEq(s["motion"], active[0]); }
    assert Scan(false, ["motion"], s, active) == Scan(true, [], s, active);
    var both := Consulted(true, ["motion"], ["tv"]);
    assert both == ["motion", "tv"] && both[1..] == ["tv"];
    assert Scan(true, both, s, active) == Scan(true, ["tv"], s, active);
  }

  // ---------------------------------------------------------------------------
  // The order of the entity lists

  lemma AnyActiveSameEntries(e1: seq<EntityId>, e2: seq<EntityId>, snapshot: Snapshot, active: seq<Value>)
    requires forall e :: e in e1 <==> e in e2
    ensures AnyActive(e1, snapshot, active) <==> AnyActive(e2, snapshot, active)
    ensures AllPresent(e1, snapshot) <==> AllPresent(e2, snapshot)
  {
    if AnyActive(e1, snapshot, active) {
      var k :| 0 <= k < |e1| && e1[k] in snapshot && In(snapshot[e1[k]], active);
      assert e1[k] in e2;
    }
    if AnyActive(e2, snapshot, active) {
      var k :| 0 <= k < |e2| && e2[k] in snapshot && In(snapshot[e2[k]], active);
      assert e2[k] in e1;
    }
    if AllPresent(e1, snapshot) {
      forall k | 0 <= k < |e2| ensures e2[k] in snapshot { assert e2[k] in e1; }
    }
    if AllPresent(e2, snapshot) {
      forall k | 0 <= k < |e1| ensures e1[k] in snapshot { assert e1[k] in e2; }
    }
  }

  /** Reordering the toggle and keep lists (or the active states) changes neither
      whether an update completes nor, when it does, the new sensor state. */
  lemma UpdateIgnoresOrder(on: bool, toggle1: seq<EntityId>, toggle2: seq<EntityId>,
                           keep1: seq<EntityId>, keep2: seq<EntityId>, snapshot: Snapshot,
                           active1: seq<Value>, active2: seq<Value>)
    requires multiset(toggle1) == multiset(toggle2) && multiset(keep1) == multiset(keep2)
    requires multiset(active1) == multiset(active2)
    ensures var r1 := Evaluate(on, toggle1, keep1, snapshot, active1);
            var r2 := Evaluate(on, toggle2, keep2, snapshot, active2);
            r1.Completed? == r2.Completed? && (r1.Completed? ==> r1.on == r2.on)
  {
    var c1, c2 := Consulted(on, toggle1, keep1), Consulted(on, toggle2, keep2);
    assert multiset(c1) == multiset(c2);
    assert forall e :: e in c1 <==> e in c2 by {
      forall e ensures e in c1 <==> e in c2 {
        assert e in c1 <==> e in multiset(c1);
        assert e in c2 <==> e in multiset(c2);
      }
    }
    AnyActiveSameEntries(c1, c2, snapshot, active1);
    forall v ensures In(v, active1) <==> In(v, active2) {
      assert forall x :: x in active1 <==> x in active2 by {
        forall x ensures x in active1 <==> x in active2 {
          assert x in active1 <==> x in multiset(active1);
          assert x in active2 <==> x in multiset(active2);
        }
      }
      InSameEntries(v, active1, active2);
    }
    assert AnyActive(c2, snapshot, active1) <==> AnyActive(c2, snapshot, active2);
  }

  /** When a scan raises, the state it leaves behind depends on the order of the
      list: an active entity before the missing one has already set the sensor on. */
  lemma RaisedStateDependsOnOrder()
    ensures var s: Snapshot := map["motion" := Str("on")];
            Evaluate(false, ["motion", "door"], [], s, [Str("on")]) == Raised(true, "door")
            && Evaluate(false, ["door", "motion"], [], s, [Str("on")]) == Raised(false, "door")
  {
    var s: Snapshot := map["motion" := Str("on")];
    var active := [Str("on")];
    assert In(s["motion"], active) by { assert PyEq(s["motion"], active[0]); }
    assert ["motion", "door"][1..] == ["door"];
  }
}

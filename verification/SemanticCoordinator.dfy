/** The coordinator that owns the retained zones and DHW, against the machine of `ZoneRetention`. */
module SemanticCoordinator {
  import opened Prelude
  import opened ZoneRetention

  class HelianthusSemanticCoordinator {
    var lastZones: seq<Item>
    var zoneGapCycles: map<string, nat>
    var staleZoneIds: set<string>
    var zonesIsStale: bool
    var lastDhw: Option<Fields>
    var dhwGapCycles: nat
    var dhwIsStale: bool
    var data: Option<Payload>
    var lastUpdateSuccess: bool
    ghost var history: seq<Event>

    function State(): Cache
      reads this
    {
      Cache(lastZones, zoneGapCycles, staleZoneIds, lastDhw, dhwGapCycles, dhwIsStale, data, lastUpdateSuccess)
    }

    /** The state is what the machine makes of the events so far. */
    ghost predicate Valid()
      reads this
    {
      State() == Run(history) && (zonesIsStale <==> staleZoneIds != {})
    }

    constructor ()
      ensures Valid() && history == []
    {
      lastZones, zoneGapCycles, staleZoneIds, zonesIsStale := [], map[], {}, false;
      lastDhw, dhwGapCycles, dhwIsStale := None, 0, false;
      data, lastUpdateSuccess := None, true;
      history := [];
    }

    method ZoneIsStale(z: Option<string>) returns (stale: bool)
      ensures stale <==> z.Some? && z.value in staleZoneIds
    {
      stale := z.Some? && z.value in staleZoneIds;
    }

    method RetainZones(observed: seq<Item>)
      modifies this`lastZones, this`zoneGapCycles, this`staleZoneIds, this`zonesIsStale
      ensures State() == MaterializeZones(old(State()), observed) && (zonesIsStale <==> staleZoneIds != {})
    {
      var zones, nextGapCycles, stale := Scan(State(), observed);
      lastZones, zoneGapCycles, staleZoneIds := zones, nextGapCycles, stale;
      zonesIsStale := staleZoneIds != {};
    }

    method RetainDhw(dhw: Option<Fields>) returns (current: Option<Fields>)
      modifies this`lastDhw, this`dhwGapCycles, this`dhwIsStale
      ensures State() == TakeDhw(old(State()), dhw) && current == lastDhw
    {
      if dhw.Some? {
        lastDhw, dhwGapCycles, dhwIsStale := dhw, 0, false;
        return dhw;
      }
      if lastDhw != None && dhwGapCycles < TRANSIENT_GAP_LIMIT {
        dhwGapCycles, dhwIsStale := dhwGapCycles + 1, true;
        return lastDhw;
      }
      var wasStale := dhwIsStale || lastDhw != None;
      lastDhw, dhwGapCycles, dhwIsStale := None, 0, wasStale;
      return None;
    }

    method MaterializePayload(zones: seq<Item>, dhw: Option<Fields>) returns (payload: Payload)
      modifies this`lastZones, this`zoneGapCycles, this`staleZoneIds, this`zonesIsStale,
               this`lastDhw, this`dhwGapCycles, this`dhwIsStale
      ensures State() == Materialize(old(State()), zones, dhw) && (zonesIsStale <==> staleZoneIds != {})
      ensures payload == Payload(lastZones, lastDhw)
    {
      RetainZones(zones);
      var current := RetainDhw(dhw);
      return Payload(lastZones, current);
    }

    /** The query chain answered. */
    method TakePoll(zones: seq<Item>, dhw: Option<Fields>)
      modifies this
      ensures State() == Step(old(State()), Poll(zones, dhw)) && history == old(history)
      ensures zonesIsStale <==> staleZoneIds != {}
    {
      var payload := MaterializePayload(zones, dhw);
      data, lastUpdateSuccess := Some(payload), true;
    }

    /** The transport failed: publish what is retained, or fail the refresh when nothing is. */
    method TakeTransportGap()
      modifies this
      ensures State() == Step(old(State()), TransportGap) && history == old(history)
      ensures zonesIsStale <==> staleZoneIds != {}
    {
      var retained := MaterializePayload([], None);
      if retained.zones != [] || retained.dhw != None {
        data, lastUpdateSuccess := Some(retained), true;
      } else {
        lastUpdateSuccess := false;
      }
    }

    /** One full refresh, with the answer of the query chain: `Poll`, `TransportGap` or `HardFailure`. */
    method Refresh(answer: Event) returns (ok: bool)
      requires Valid() && (IsPoll(answer) || answer.HardFailure?)
      modifies this
      ensures Valid() && history == old(history) + [answer] && ok == lastUpdateSuccess
    {
      FoldEnds(Step, START, history, answer);
      if answer.Poll? {
        TakePoll(answer.zones, answer.dhw);
      } else if answer.TransportGap? {
        TakeTransportGap();
      } else {
        lastUpdateSuccess := false;
      }
      history := history + [answer];
      ok := lastUpdateSuccess;
    }

    method HandleZoneUpdate(id: Option<string>, fields: Fields)
      requires Valid()
      modifies this
      ensures Valid() && history == old(history) + [ZoneUpdate(id, fields)]
    {
      FoldEnds(Step, START, history, ZoneUpdate(id, fields));
      history := history + [ZoneUpdate(id, fields)];
      if data == None { return; }
      var merged := MergeZones(data.value.zones, id, fields);
      ApplyZoneSubscription(merged, id);
    }

    method HandleDhwUpdate(dhw: Option<Fields>)
      requires Valid()
      modifies this
      ensures Valid() && history == old(history) + [DhwUpdate(dhw)]
    {
      FoldEnds(Step, START, history, DhwUpdate(dhw));
      history := history + [DhwUpdate(dhw)];
      if data == None { return; }
      var merged := dhw;
      if data.value.dhw.Some? && dhw.Some? {
        var fields := MergeDictsInPlace(data.value.dhw.value, dhw.value);
        merged := Some(fields);
      }
      var current := RetainDhw(merged);
      data := Some(Payload(data.value.zones, current));
    }

    method ApplyZoneSubscription(zones: seq<Item>, updated: Option<string>)
      modifies this
      ensures State() == ApplyZones(old(State()), zones, updated) && history == old(history)
      ensures zonesIsStale <==> staleZoneIds != {}
    {
      SetGaps(Ids(zones), updated);
      lastZones := zones;
      if updated.Some? { staleZoneIds := staleZoneIds - {updated.value}; }
      zonesIsStale := staleZoneIds != {};
      data := Some(Payload(zones, if data.Some? then data.value.dhw else None));
    }

    /** `setdefault(zone, 0)` for every listed zone, then zero for the named one. */
    method SetGaps(ids: set<string>, updated: Option<string>)
      modifies this`zoneGapCycles
      ensures zoneGapCycles == EventGaps(old(State()), ids, if updated.Some? then {updated.value} else {})
    {
      ghost var c := State();
      var rest := ids;
      while rest != {}
        invariant rest <= ids
        invariant forall z :: z in zoneGapCycles <==> z in c.gaps || (z in ids && z !in rest)
        invariant forall z | z in zoneGapCycles :: zoneGapCycles[z] == GapOf(c, z)
        decreases rest
      {
        var z :| z in rest;
        rest := rest - {z};
        if z !in zoneGapCycles { zoneGapCycles := zoneGapCycles[z := 0]; }
      }
      if updated.Some? { zoneGapCycles := zoneGapCycles[updated.value := 0]; }
    }

    /** Let any events pass. */
    method Perform(events: seq<Event>)
      requires Valid()
      modifies this
      ensures Valid() && history == old(history) + events
    {
      var i := 0;
      while i < |events|
        invariant 0 <= i <= |events|
        invariant Valid() && history == old(history) + events[..i]
      {
        assert events[..i + 1] == events[..i] + [events[i]];
        match events[i] {
          case ZoneUpdate(id, fields) => HandleZoneUpdate(id, fields);
          case DhwUpdate(dhw) => HandleDhwUpdate(dhw);
          case _ => var _ := Refresh(events[i]);
        }
        i := i + 1;
      }
      assert events[..i] == events;
    }
  }

  /** What the loop over the previous list has built: what it retains, the counters, and what it marks stale. */
  datatype Progress = Progress(kept: seq<Item>, gaps: map<string, nat>, stale: set<string>)

  function ScanItem(c: Cache, observed: set<string>, p: Progress, item: Item): Progress {
    if !item.Zone? || item.id == None || item.id.value in observed then p
    else
      var z, gapCycles := item.id.value, GapOf(c, item.id.value) + 1;
      if gapCycles <= TRANSIENT_GAP_LIMIT then Progress(p.kept + [item], p.gaps[z := gapCycles], p.stale + {z})
      else p.(stale := p.stale + {z})
  }

  function ScanTo(c: Cache, observed: seq<Item>, i: nat): Progress
    requires i <= |c.lastZones|
  {
    if i == 0 then Progress([], map z | z in Ids(observed) :: 0, c.stale - Ids(observed))
    else ScanItem(c, Ids(observed), ScanTo(c, observed, i - 1), c.lastZones[i - 1])
  }

  method Scan(c: Cache, observed: seq<Item>) returns (zones: seq<Item>, gaps: map<string, nat>, stale: set<string>)
    ensures MaterializeZones(c, observed) == c.(lastZones := zones, gaps := gaps, stale := stale)
  {
    var observedIds := Ids(observed);
    var kept: seq<Item> := [];
    gaps := map z | z in observedIds :: 0;
    stale := c.stale - observedIds;
    for i := 0 to |c.lastZones|
      invariant Progress(kept, gaps, stale) == ScanTo(c, observed, i)
    {
      var previous := c.lastZones[i];
      if previous.Zone? && previous.id != None && previous.id.value !in observedIds {
        var z := previous.id.value;
        var gapCycles := (if z in c.gaps then c.gaps[z] else 0) + 1;
        if gapCycles <= TRANSIENT_GAP_LIMIT {
          kept := kept + [previous];
          gaps := gaps[z := gapCycles];
        }
        stale := stale + {z};
      }
    }
    ScanBuilds(c, observed, |c.lastZones|);
    ScanEnds(c, observed);
    zones := observed + kept;
  }

  function Built(c: Cache, observed: seq<Item>, i: nat): Progress
    requires i <= |c.lastZones|
  {
    Progress(ScannedKept(c, observed, i), ScannedGaps(c, observed, i), ScannedStale(c, observed, i))
  }

  lemma ItemBuilds(c: Cache, observed: seq<Item>, i: nat)
    requires i < |c.lastZones|
    ensures Built(c, observed, i + 1) == ScanItem(c, Ids(observed), Built(c, observed, i), c.lastZones[i])
  {
    var item := c.lastZones[i];
    if !item.Zone? || item.id == None || item.id.value in Ids(observed) {
      ScanSkips(c, observed, i);
    } else if Retained(c, Ids(observed), item) {
      ScanKeeps(c, observed, i);
    } else {
      ScanDrops(c, observed, i);
    }
  }

  lemma {:induction false} ScanBuilds(c: Cache, observed: seq<Item>, i: nat)
    requires i <= |c.lastZones|
    ensures ScanTo(c, observed, i) == Built(c, observed, i)
  {
    if i == 0 {
      ScanBegins(c, observed);
    } else {
      ScanBuilds(c, observed, i - 1);
      ItemBuilds(c, observed, i - 1);
    }
  }

  /** What the scan of the previous list has built after `i` elements. */
  function ScannedKept(c: Cache, observed: seq<Item>, i: nat): seq<Item>
    requires i <= |c.lastZones|
  {
    Kept(c, Ids(observed), c.lastZones[..i])
  }

  function ScannedGaps(c: Cache, observed: seq<Item>, i: nat): map<string, nat>
    requires i <= |c.lastZones|
  {
    PollGaps(c, Ids(observed), Ids(ScannedKept(c, observed, i)))
  }

  function ScannedStale(c: Cache, observed: seq<Item>, i: nat): set<string>
    requires i <= |c.lastZones|
  {
    (c.stale - Ids(observed)) + (Ids(c.lastZones[..i]) - Ids(observed))
  }

  lemma ScanBegins(c: Cache, observed: seq<Item>)
    ensures ScannedKept(c, observed, 0) == []
    ensures ScannedGaps(c, observed, 0) == map z | z in Ids(observed) :: 0
    ensures ScannedStale(c, observed, 0) == c.stale - Ids(observed)
  {
    assert Ids([]) == {};
  }

  lemma ScanEnds(c: Cache, observed: seq<Item>)
    ensures
      var n := |c.lastZones|;
      MaterializeZones(c, observed) == c.(lastZones := observed + ScannedKept(c, observed, n),
                                          gaps := ScannedGaps(c, observed, n), stale := ScannedStale(c, observed, n))
  {
    assert c.lastZones[..|c.lastZones|] == c.lastZones;
  }

  lemma ScanSkips(c: Cache, observed: seq<Item>, i: nat)
    requires i < |c.lastZones|
    requires var item := c.lastZones[i]; !item.Zone? || item.id == None || item.id.value in Ids(observed)
    ensures ScannedKept(c, observed, i + 1) == ScannedKept(c, observed, i)
    ensures ScannedGaps(c, observed, i + 1) == ScannedGaps(c, observed, i)
    ensures ScannedStale(c, observed, i + 1) == ScannedStale(c, observed, i)
  {
    KeptGrows(c, Ids(observed), c.lastZones, i);
    IdsGrow(c.lastZones[..i], c.lastZones[i]);
  }

  lemma ScanKeeps(c: Cache, observed: seq<Item>, i: nat)
    requires i < |c.lastZones| && Retained(c, Ids(observed), c.lastZones[i])
    ensures
      var z := c.lastZones[i].id.value;
      && ScannedKept(c, observed, i + 1) == ScannedKept(c, observed, i) + [c.lastZones[i]]
      && ScannedGaps(c, observed, i + 1) == ScannedGaps(c, observed, i)[z := GapOf(c, z) + 1]
      && ScannedStale(c, observed, i + 1) == ScannedStale(c, observed, i) + {z}
  {
    var item, kept := c.lastZones[i], ScannedKept(c, observed, i);
    KeptGrows(c, Ids(observed), c.lastZones, i);
    IdsGrow(c.lastZones[..i], item);
    GapsGrow(c, Ids(observed), kept, item);
  }

  lemma GapsGrow(c: Cache, observed: set<string>, kept: seq<Item>, item: Item)
    requires item.Zone? && item.id.Some? && item.id.value !in observed
    ensures PollGaps(c, observed, Ids(kept + [item]))
            == PollGaps(c, observed, Ids(kept))[item.id.value := GapOf(c, item.id.value) + 1]
  {
    IdsGrow(kept, item);
    PollGapsGrow(c, observed, Ids(kept), item.id.value);
  }

  lemma ScanDrops(c: Cache, observed: seq<Item>, i: nat)
    requires i < |c.lastZones|
    requires var item := c.lastZones[i];
             item.Zone? && item.id.Some? && item.id.value !in Ids(observed) && !Retained(c, Ids(observed), item)
    ensures ScannedKept(c, observed, i + 1) == ScannedKept(c, observed, i)
    ensures ScannedGaps(c, observed, i + 1) == ScannedGaps(c, observed, i)
    ensures ScannedStale(c, observed, i + 1) == ScannedStale(c, observed, i) + {c.lastZones[i].id.value}
  {
    KeptGrows(c, Ids(observed), c.lastZones, i);
    IdsGrow(c.lastZones[..i], c.lastZones[i]);
  }

  lemma KeptGrows(c: Cache, ids: set<string>, items: seq<Item>, i: nat)
    requires i < |items|
    ensures items[..i + 1] == items[..i] + [items[i]]
    ensures Kept(c, ids, items[..i + 1])
            == if Retained(c, ids, items[i]) then Kept(c, ids, items[..i]) + [items[i]] else Kept(c, ids, items[..i])
  {
    assert items[..i + 1][..i] == items[..i];
  }

  lemma IdsGrow(items: seq<Item>, item: Item)
    ensures Ids(items + [item]) == Ids(items) + if item.Zone? && item.id.Some? then {item.id.value} else {}
  {
    IdsOfOne(item);
    IdsOfConcat(items, [item]);
  }

  lemma PollGapsGrow(c: Cache, observed: set<string>, kept: set<string>, z: string)
    requires z !in observed
    ensures PollGaps(c, observed, kept + {z}) == PollGaps(c, observed, kept)[z := GapOf(c, z) + 1]
  {
  }

  lemma IdsOfOne(item: Item)
    ensures forall z :: z in Ids([item]) <==> item.Named(z)
  {
    assert [item][0] == item;
  }

  method MergeZones(current: seq<Item>, id: Option<string>, fields: Fields) returns (merged: seq<Item>)
    ensures merged == MergeZoneUpdate(current, id, fields)
  {
    if id == None { return current; }
    merged := [];
    var mergedExisting := false;
    var i := 0;
    while i < |current|
      invariant 0 <= i <= |current| == |MergeAll(current, id.value, fields)|
      invariant merged == MergeAll(current, id.value, fields)[..i]
      invariant mergedExisting <==> exists j :: 0 <= j < i && current[j].Named(id.value)
    {
      var zone := current[i];
      if zone.Named(id.value) {
        var both := MergeDictsInPlace(zone.fields, fields);
        zone := Zone(id, both);
        mergedExisting := true;
      }
      merged := merged + [zone];
      i := i + 1;
    }
    assert MergeAll(current, id.value, fields)[..i] == MergeAll(current, id.value, fields);
    if !mergedExisting {
      merged := merged + [Zone(id, fields)];
    } else {
      assert merged + [] == merged;
    }
  }
}

/**
  Last-known-good retention of zones and domestic hot water (DHW).

  Full polls and partial subscription events interleave freely with transport gaps
  and failed refreshes.  `Step` is what the coordinator does with one of them; the
  specification is three functions of the bare history, which know nothing of the
  coordinator's lists and counters.

  Zone ids are in canonical form, so an id is its own lookup key.
 */
module ZoneRetention {
  import opened Prelude

  // ---------- sparse updates ----------

  datatype Json = Null | Leaf(text: string) | Dict(fields: map<string, Json>)

  type Fields = map<string, Json>

  /** Keys an update leaves out, or sets to null over a value, keep what they had. */
  function MergeDicts(current: Fields, update: Fields): (merged: Fields)
    ensures merged.Keys == current.Keys + update.Keys
    decreases Dict(update)
  {
    map k | k in current.Keys + update.Keys ::
      if k !in update then current[k]
      else if update[k].Null? && k in current then current[k]
      else if k in current && current[k].Dict? && update[k].Dict?
      then Dict(MergeDicts(current[k].fields, update[k].fields))
      else update[k]
  }

  lemma {:induction false} MergeWithItself(d: Fields)
    ensures MergeDicts(d, d) == d
    decreases Dict(d)
  {
    forall k | k in d && d[k].Dict? ensures MergeDicts(d, d)[k] == d[k] {
      assert Dict(d).fields[k] == d[k];
      MergeWithItself(d[k].fields);
    }
  }

  /** An event delivered twice changes nothing the second time. */
  lemma {:induction false} MergeIsIdempotent(current: Fields, update: Fields)
    ensures MergeDicts(MergeDicts(current, update), update) == MergeDicts(current, update)
    decreases Dict(update)
  {
    var once := MergeDicts(current, update);
    forall k | k in once ensures MergeDicts(once, update)[k] == once[k] {
      if k in update && update[k].Dict? {
        assert Dict(update).fields[k] == update[k];
        if k in current && current[k].Dict? {
          MergeIsIdempotent(current[k].fields, update[k].fields);
        } else {
          MergeWithItself(update[k].fields);
        }
      }
    }
  }

  /** `update` says anew everything that `current` holds. */
  predicate Covers(current: Fields, update: Fields)
    decreases Dict(update)
  {
    forall k | k in current ::
      && k in update && (update[k].Null? ==> current[k].Null?)
      && (current[k].Dict? && update[k].Dict? ==> Covers(current[k].fields, update[k].fields))
  }

  /** Merging keeps nothing of the old exactly when the update covers it. */
  lemma {:induction false} MergeKeepsNothingIff(current: Fields, update: Fields)
    ensures MergeDicts(current, update) == update <==> Covers(current, update)
    decreases Dict(update)
  {
    var merged := MergeDicts(current, update);
    forall k | k in current && k in update && current[k].Dict? && update[k].Dict?
      ensures merged[k] == update[k] <==> Covers(current[k].fields, update[k].fields)
    {
      assert Dict(update).fields[k] == update[k];
      MergeKeepsNothingIff(current[k].fields, update[k].fields);
    }
    if Covers(current, update) {
      assert merged.Keys == update.Keys;
      assert forall k | k in update :: merged[k] == update[k];
    } else {
      var k :| k in current && !(
        && k in update && (update[k].Null? ==> current[k].Null?)
        && (current[k].Dict? && update[k].Dict? ==> Covers(current[k].fields, update[k].fields)));
      assert k in update ==> merged[k] != update[k];
      assert k in merged;
    }
  }

  /** Field by field: what is left out, or null over a value, stays; records merge; anything else is the update's. */
  lemma MergedField(current: Fields, update: Fields, k: string)
    requires k in current || k in update
    ensures var merged := MergeDicts(current, update);
            && k in merged
            && (k in current && (k !in update || update[k] == Null) ==> merged[k] == current[k])
            && (k in update && k !in current ==> merged[k] == update[k])
            && (k in current && k in update && update[k] != Null ==>
                  if current[k].Dict? && update[k].Dict?
                  then merged[k].Dict? && merged[k].fields == MergeDicts(current[k].fields, update[k].fields)
                  else merged[k] == update[k])
  {
  }

  /** What is at the end of a path of fields. */
  function Read(fields: Fields, path: seq<string>): Option<Json>
    decreases |path|
  {
    if path == [] then Some(Dict(fields))
    else if path[0] !in fields then None
    else if |path| == 1 then Some(fields[path[0]])
    else if fields[path[0]].Dict? then Read(fields[path[0]].fields, path[1..])
    else None
  }

  /** The update does not speak of the path: some step of it is missing or null. */
  predicate LeavesOut(update: Fields, path: seq<string>)
    decreases |path|
  {
    path != [] && (path[0] !in update || update[path[0]] == Null
                   || (update[path[0]].Dict? && LeavesOut(update[path[0]].fields, path[1..])))
  }

  /** A value that the update gives is read back. */
  lemma {:induction false} GivenValuesArrive(current: Fields, update: Fields, path: seq<string>, text: string)
    requires Read(update, path) == Some(Leaf(text))
    ensures Read(MergeDicts(current, update), path) == Some(Leaf(text))
    decreases |path|
  {
    var k := path[0];
    MergedField(current, update, k);
    if |path| > 1 && k in current && current[k].Dict? {
      GivenValuesArrive(current[k].fields, update[k].fields, path[1..], text);
    }
  }

  /** A value that the update leaves out stays. */
  lemma {:induction false} LeftOutValuesStay(current: Fields, update: Fields, path: seq<string>)
    requires LeavesOut(update, path) && Read(current, path).Some?
    ensures Read(MergeDicts(current, update), path) == Read(current, path)
    decreases |path|
  {
    var k := path[0];
    MergedField(current, update, k);
    if k in update && update[k].Dict? && |path| > 1 { LeftOutValuesStay(current[k].fields, update[k].fields, path[1..]); }
  }

  /** What was not there before is what the update gives, if it gives anything. */
  lemma {:induction false} NewValuesAreGiven(current: Fields, update: Fields, path: seq<string>)
    requires Read(current, path).None?
    ensures Read(MergeDicts(current, update), path) == Read(update, path)
    decreases |path|
  {
    var k := path[0];
    if k in current || k in update { MergedField(current, update, k); }
    if |path| > 1 && k in current && k in update && current[k].Dict? && update[k].Dict? {
      NewValuesAreGiven(current[k].fields, update[k].fields, path[1..]);
    }
  }

  method MergeDictsInPlace(current: Fields, update: Fields) returns (merged: Fields)
    ensures merged == MergeDicts(current, update)
    decreases Dict(update)
  {
    merged := current;
    var rest := update.Keys;
    while rest != {}
      invariant rest <= update.Keys
      invariant merged.Keys == current.Keys + (update.Keys - rest)
      invariant forall k :: k in merged ==>
                  merged[k] == if k in rest then current[k] else MergeDicts(current, update)[k]
      decreases rest
    {
      var key :| key in rest;
      rest := rest - {key};
      var value := update[key];
      if value.Null? && key in merged { continue; }
      if key in merged && merged[key].Dict? && value.Dict? {
        assert Dict(update).fields[key] == value;
        var nested := MergeDictsInPlace(merged[key].fields, value.fields);
        merged := merged[key := Dict(nested)];
        continue;
      }
      merged := merged[key := value];
    }
  }

  // ---------- the coordinator's state ----------

  /** An element of a zone list: a record with its id, if it has one, or something that is no record. */
  datatype Item = Zone(id: Option<string>, fields: Fields) | Junk(text: string) {
    predicate Named(z: string) { Zone? && id == Some(z) }
  }

  const TRANSIENT_GAP_LIMIT := 2

  datatype Payload = Payload(zones: seq<Item>, dhw: Option<Fields>)

  datatype Cache = Cache(
    lastZones: seq<Item>, gaps: map<string, nat>, stale: set<string>,
    lastDhw: Option<Fields>, dhwGaps: nat, dhwStale: bool,
    data: Option<Payload>, lastUpdateSuccess: bool)

  const START: Cache := Cache([], map[], {}, None, 0, false, None, true)

  /** A full poll that answered, one that hit a transport error, one that failed otherwise, and two subscription events. */
  datatype Event =
    | Poll(zones: seq<Item>, dhw: Option<Fields>)
    | TransportGap
    | HardFailure
    | ZoneUpdate(id: Option<string>, fields: Fields)
    | DhwUpdate(dhw: Option<Fields>)

  function Ids(items: seq<Item>): (ids: set<string>)
    ensures forall z :: z in ids <==> exists i :: 0 <= i < |items| && items[i].Named(z)
  {
    set i | 0 <= i < |items| && items[i].Zone? && items[i].id.Some? :: items[i].id.value
  }

  /** The elements named `z`, in order. */
  function Only(items: seq<Item>, z: string): seq<Item> {
    if items == [] then []
    else if items[|items| - 1].Named(z) then Only(items[..|items| - 1], z) + [items[|items| - 1]]
    else Only(items[..|items| - 1], z)
  }

  predicate Retained(c: Cache, observed: set<string>, item: Item) {
    item.Zone? && item.id.Some? && item.id.value !in observed && GapOf(c, item.id.value) + 1 <= TRANSIENT_GAP_LIMIT
  }

  function GapOf(c: Cache, z: string): nat {
    if z in c.gaps then c.gaps[z] else 0
  }

  function Kept(c: Cache, observed: set<string>, items: seq<Item>): seq<Item> {
    if items == [] then []
    else
      var before := Kept(c, observed, items[..|items| - 1]);
      if Retained(c, observed, items[|items| - 1]) then before + [items[|items| - 1]] else before
  }

  /** Gap counters after a full poll: none for what it observed, one more for what is kept without it. */
  function PollGaps(c: Cache, observed: set<string>, kept: set<string>): map<string, nat> {
    map z | z in observed + kept :: if z in observed then 0 else GapOf(c, z) + 1
  }

  /** Gap counters after an event that names `named`, with the list then holding `shown`. */
  function EventGaps(c: Cache, shown: set<string>, named: set<string>): map<string, nat> {
    map z | z in c.gaps.Keys + shown + named :: if z in named then 0 else GapOf(c, z)
  }

  function MaterializeZones(c: Cache, zones: seq<Item>): Cache {
    var observed := Ids(zones);
    var kept := Kept(c, observed, c.lastZones);
    c.(lastZones := zones + kept,
       gaps := PollGaps(c, observed, Ids(kept)),
       stale := (c.stale - observed) + (Ids(c.lastZones) - observed))
  }

  /** An ambiguous absence of DHW: retained within the limit, then gone. */
  function MissDhw(c: Cache): Cache {
    if c.lastDhw != None && c.dhwGaps < TRANSIENT_GAP_LIMIT then c.(dhwGaps := c.dhwGaps + 1, dhwStale := true)
    else c.(lastDhw := None, dhwGaps := 0, dhwStale := c.dhwStale || c.lastDhw != None)
  }

  function TakeDhw(c: Cache, dhw: Option<Fields>): Cache {
    if dhw.Some? then c.(lastDhw := dhw, dhwGaps := 0, dhwStale := false) else MissDhw(c)
  }

  function Materialize(c: Cache, zones: seq<Item>, dhw: Option<Fields>): Cache {
    TakeDhw(MaterializeZones(c, zones), dhw)
  }

  function Publish(c: Cache): Cache {
    c.(data := Some(Payload(c.lastZones, c.lastDhw)), lastUpdateSuccess := true)
  }

  function MergeOne(item: Item, id: string, fields: Fields): Item {
    if item.Named(id) then Zone(Some(id), MergeDicts(item.fields, fields)) else item
  }

  function MergeAll(items: seq<Item>, id: string, fields: Fields): (merged: seq<Item>)
    ensures |merged| == |items| && forall i :: 0 <= i < |items| ==> merged[i] == MergeOne(items[i], id, fields)
  {
    seq(|items|, i requires 0 <= i < |items| => MergeOne(items[i], id, fields))
  }

  function MergeZoneUpdate(items: seq<Item>, id: Option<string>, fields: Fields): seq<Item> {
    if id == None then items
    else MergeAll(items, id.value, fields) + if id.value in Ids(items) then [] else [Zone(id, fields)]
  }

  function ApplyZones(c: Cache, zones: seq<Item>, updated: Option<string>): Cache {
    var named := if updated.Some? then {updated.value} else {};
    c.(lastZones := zones,
       gaps := EventGaps(c, Ids(zones), named),
       stale := c.stale - named,
       data := Some(Payload(zones, if c.data.Some? then c.data.value.dhw else None)))
  }

  function ApplyDhw(c: Cache, dhw: Option<Fields>): Cache {
    var t := TakeDhw(c, dhw);
    t.(data := Some(Payload(if c.data.Some? then c.data.value.zones else [], t.lastDhw)))
  }

  function Step(c: Cache, e: Event): Cache {
    match e
    case Poll(zones, dhw) => Publish(Materialize(c, zones, dhw))
    case TransportGap =>
      var m := Materialize(c, [], None);
      if m.lastZones != [] || m.lastDhw != None then Publish(m) else m.(lastUpdateSuccess := false)
    case HardFailure => c.(lastUpdateSuccess := false)
    case ZoneUpdate(id, fields) =>
      if c.data == None then c else ApplyZones(c, MergeZoneUpdate(c.data.value.zones, id, fields), id)
    case DhwUpdate(dhw) =>
      if c.data == None then c
      else
        var current := c.data.value.dhw;
        ApplyDhw(c, if current.Some? && dhw.Some? then Some(MergeDicts(current.value, dhw.value)) else dhw)
  }

  function Run(history: seq<Event>): Cache {
    Fold(Step, START, history)
  }

  // ---------- the specification: functions of the bare history ----------

  function Before(h: seq<Event>): seq<Event>
    requires h != []
  {
    h[..|h| - 1]
  }

  function Last(h: seq<Event>): Event
    requires h != []
  {
    h[|h| - 1]
  }

  /** Subscription events are dropped until the first full poll has answered. */
  predicate Published(h: seq<Event>) {
    h != [] && (Last(h).Poll? || Published(Before(h)))
  }

  /** The last event observed `z`, or named it. */
  predicate Mentions(h: seq<Event>, z: string)
    requires h != []
  {
    match Last(h)
    case Poll(zones, _) => z in Ids(zones)
    case ZoneUpdate(id, _) => Published(Before(h)) && id == Some(z)
    case _ => false
  }

  predicate Seen(h: seq<Event>, z: string) {
    h != [] && (Mentions(h, z) || Seen(Before(h), z))
  }

  predicate IsPoll(e: Event) { e.Poll? || e.TransportGap? }

  /** The full polls since `z` was last observed or named. */
  function Gaps(h: seq<Event>, z: string): nat {
    if h == [] || Mentions(h, z) then 0
    else Gaps(Before(h), z) + if IsPoll(Last(h)) then 1 else 0
  }

  /** What to show of `z`: as last observed, with the updates merged since, for at most two gaps. */
  function Entries(h: seq<Event>, z: string): seq<Item> {
    if h == [] then []
    else
      var shown := Entries(Before(h), z);
      if Mentions(h, z) then
        match Last(h)
        case Poll(zones, _) => Only(zones, z)
        case ZoneUpdate(_, fields) => if shown == [] then [Zone(Some(z), fields)] else MergeAll(shown, z, fields)
        case _ => shown
      else if IsPoll(Last(h)) && Gaps(h, z) > TRANSIENT_GAP_LIMIT then []
      else shown
  }

  /** DHW data as last observed, with the updates merged since, for at most two gaps. */
  function DhwEntry(h: seq<Event>): Option<Fields> {
    if h == [] then None
    else
      var shown := DhwEntry(Before(h));
      if DhwMentions(h) then
        match Last(h)
        case DhwUpdate(dhw) => if shown.Some? then Some(MergeDicts(shown.value, dhw.value)) else dhw
        case Poll(_, dhw) => dhw
        case _ => shown
      else if DhwGaps(h) > TRANSIENT_GAP_LIMIT then None
      else shown
  }

  predicate DhwMentions(h: seq<Event>)
    requires h != []
  {
    match Last(h)
    case Poll(_, dhw) => dhw.Some?
    case DhwUpdate(dhw) => Published(Before(h)) && dhw.Some?
    case _ => false
  }

  predicate DhwSeen(h: seq<Event>) {
    h != [] && (DhwMentions(h) || DhwSeen(Before(h)))
  }

  /** A null DHW event counts as a gap, like a full poll without DHW. */
  function DhwGaps(h: seq<Event>): nat {
    if h == [] || DhwMentions(h) then 0
    else DhwGaps(Before(h)) + if IsPoll(Last(h)) || (Last(h).DhwUpdate? && Published(Before(h))) then 1 else 0
  }

  // ---------- lists of zones ----------

  lemma IdsOfConcat(a: seq<Item>, b: seq<Item>)
    ensures Ids(a + b) == Ids(a) + Ids(b)
  {
    forall z ensures z in Ids(a + b) <==> z in Ids(a) + Ids(b) {
      if z in Ids(a) {
        var i :| 0 <= i < |a| && a[i].Named(z);
        assert (a + b)[i].Named(z);
      }
      if z in Ids(b) {
        var i :| 0 <= i < |b| && b[i].Named(z);
        assert (a + b)[|a| + i].Named(z);
      }
    }
  }

  lemma IdsAfterMerge(items: seq<Item>, id: Option<string>, fields: Fields)
    ensures Ids(MergeZoneUpdate(items, id, fields)) == Ids(items) + if id.Some? then {id.value} else {}
  {
    if id.Some? {
      var merged := MergeAll(items, id.value, fields);
      forall z ensures z in Ids(merged) <==> z in Ids(items) {
        assert forall i :: 0 <= i < |items| ==> (merged[i].Named(z) <==> items[i].Named(z));
      }
      IdsOfConcat(merged, [Zone(id, fields)]);
      assert Ids([Zone(id, fields)]) == {id.value} by { assert [Zone(id, fields)][0].Named(id.value); }
      assert merged + [] == merged;
    }
  }

  lemma {:induction false} KeptIds(c: Cache, observed: set<string>, items: seq<Item>)
    ensures forall z :: z in Ids(Kept(c, observed, items))
                        <==> z in Ids(items) && z !in observed && GapOf(c, z) + 1 <= TRANSIENT_GAP_LIMIT
  {
    if items != [] {
      var before := items[..|items| - 1];
      var item := items[|items| - 1];
      KeptIds(c, observed, before);
      assert items == before + [item];
      IdsOfConcat(before, [item]);
      IdsOfConcat(Kept(c, observed, before), [item]);
      assert forall z :: z in Ids([item]) <==> item.Named(z) by {
        assert [item][0] == item;
      }
    }
  }

  // ---------- staleness is exact in every run ----------

  predicate Tracks(c: Cache, h: seq<Event>, z: string) {
    && (c.data.Some? <==> Published(h))
    && (z in c.stale <==> Seen(h, z) && Gaps(h, z) >= 1)
    && (Seen(h, z) && Gaps(h, z) == 0 ==> z in Ids(c.lastZones))
    && (z in Ids(c.lastZones) ==> Seen(h, z))
    && (c.data.Some? ==> c.data.value.zones == c.lastZones
                         || (c.lastZones == [] && (z in Ids(c.data.value.zones) ==> z in c.stale)))
  }

  /** Nothing retained means nothing known, so a transport gap publishes only what an earlier poll brought. */
  predicate Founded(c: Cache) {
    c.data == None ==> c.lastZones == [] && c.lastDhw == None
  }

  lemma MaterializeTracks(c: Cache, h: seq<Event>, zones: seq<Item>, dhw: Option<Fields>, z: string)
    requires h != [] && IsPoll(Last(h)) && (Mentions(h, z) <==> z in Ids(zones))
    requires Tracks(c, Before(h), z)
    ensures var m := Materialize(c, zones, dhw);
            && (z in m.stale <==> Seen(h, z) && Gaps(h, z) >= 1)
            && (Seen(h, z) && Gaps(h, z) == 0 ==> z in Ids(m.lastZones))
            && (z in Ids(m.lastZones) ==> Seen(h, z))
            && (z in Ids(c.lastZones) && z !in Ids(zones) ==> z in m.stale)
            && (z in c.stale && z !in Ids(zones) ==> z in m.stale)
  {
    KeptIds(c, Ids(zones), c.lastZones);
    IdsOfConcat(zones, Kept(c, Ids(zones), c.lastZones));
  }

  lemma GapTracks(h: seq<Event>, z: string)
    requires h != [] && Last(h).TransportGap?
    requires Tracks(Run(Before(h)), Before(h), z) && Founded(Run(Before(h)))
    ensures Tracks(Run(h), h, z) && Founded(Run(h))
  {
    var c := Run(Before(h));
    MaterializeTracks(c, h, [], None, z);
    assert c.lastZones == [] ==> Kept(c, Ids([]), c.lastZones) == [];
  }

  lemma UpdateTracks(h: seq<Event>, z: string)
    requires h != [] && Last(h).ZoneUpdate?
    requires Tracks(Run(Before(h)), Before(h), z) && Founded(Run(Before(h)))
    ensures Tracks(Run(h), h, z) && Founded(Run(h))
  {
    var c := Run(Before(h));
    if c.data.Some? { IdsAfterMerge(c.data.value.zones, Last(h).id, Last(h).fields); }
  }

  lemma StepTracks(h: seq<Event>, z: string)
    requires h != [] && Tracks(Run(Before(h)), Before(h), z) && Founded(Run(Before(h)))
    ensures Tracks(Run(h), h, z) && Founded(Run(h))
  {
    match Last(h)
    case Poll(zones, dhw) => MaterializeTracks(Run(Before(h)), h, zones, dhw, z);
    case TransportGap => GapTracks(h, z);
    case HardFailure =>
    case ZoneUpdate(_, _) => UpdateTracks(h, z);
    case DhwUpdate(_) =>
  }

  lemma {:induction false} RunTracks(h: seq<Event>, z: string)
    ensures Tracks(Run(h), h, z) && Founded(Run(h))
  {
    if h != [] {
      RunTracks(Before(h), z);
      StepTracks(h, z);
    }
  }

  /** In every run, whatever fails: a zone is stale iff a full poll has missed it since it was last observed or named. */
  lemma StaleIffMissed(h: seq<Event>, z: string)
    ensures z in Run(h).stale <==> Seen(h, z) && Gaps(h, z) >= 1
  {
    RunTracks(h, z);
  }

  /** In every run, a published zone that is not stale was in the latest full poll or has been named since. */
  lemma PublishedAndNotStaleIsFresh(h: seq<Event>, z: string)
    requires Run(h).data.Some? && z in Ids(Run(h).data.value.zones) && z !in Run(h).stale
    ensures Seen(h, z) && Gaps(h, z) == 0
  {
    RunTracks(h, z);
  }
}

/**
 * The photovoltaic consumer's descriptor store: three ways of writing a descriptor's dimension over two
 * schema versions, read back into one form and always written in the newest.
 */
module PvStore {
  import opened Prelude
  import opened Distinctness
  import opened M2MEvaluation
  import opened PvProjection

  datatype Descriptor = Descriptor(key: LegacyKey, uniqueId: string)

  // ---- which dimensions a descriptor may have ----

  predicate IsAlphanumeric(c: char) { 'A' <= c <= 'Z' || 'a' <= c <= 'z' || '0' <= c <= '9' }

  /** `[A-Za-z0-9._:-]{1,64}` */
  predicate IsToken(s: string) { 1 <= |s| <= 64 && forall i :: 0 <= i < |s| ==> IsAlphanumeric(s[i]) || s[i] in "._:-" }

  predicate IsHost(s: string) { s != "" && forall i :: 0 <= i < |s| ==> IsAlphanumeric(s[i]) || s[i] in ".-" }

  predicate IsPort(s: string) { s != "" && forall i :: 0 <= i < |s| ==> '0' <= s[i] <= '9' }

  /** `[A-Za-z0-9.-]+:[0-9]+` */
  predicate IsHostAndPort(s: string) {
    exists i :: 0 <= i < |s| && s[i] == ':' && IsHost(s[..i]) && IsPort(s[i + 1..])
  }

  /** `isAddress` stands for the parser of IP addresses; "://" is never part of a token. */
  predicate DimensionSound(isAddress: string -> bool, kind: string, value: string) {
    match kind
    case "scope" => value == "total"
    case "phase" => value in {"L1", "L2", "L3"}
    case "phase_pair" => value in {"L1_L2", "L2_L3", "L3_L1"}
    case "input_id" => IsToken(value) && !isAddress(value) && !IsHostAndPort(value)
    case "sensor_id" => IsToken(value) && !isAddress(value) && !IsHostAndPort(value)
    case _ => false
  }

  /** The dimension kind of each fact that may be described. */
  function KindOf(factId: string): Option<string> {
    match factId
    case "pv.ac.power.active" => Some("scope")
    case "pv.ac.frequency" => Some("scope")
    case "pv.energy.active_export_total" => Some("scope")
    case "pv.temperature" => Some("sensor_id")
    case "pv.operating.state" => Some("scope")
    case "pv.ac.current" => Some("phase")
    case "pv.ac.voltage.line_to_neutral" => Some("phase")
    case "pv.ac.voltage.line_to_line" => Some("phase_pair")
    case "pv.ac.power.apparent" => Some("scope")
    case "pv.ac.power.reactive" => Some("scope")
    case "pv.ac.power_factor" => Some("scope")
    case "pv.dc.current" => Some("input_id")
    case "pv.dc.voltage" => Some("input_id")
    case "pv.dc.power.active" => Some("input_id")
    case "pv.dc.energy.active_total" => Some("input_id")
    case "pv.event.flags" => Some("scope")
    case "pv.rating.ac.active_power" => Some("scope")
    case _ => None
  }

  // ---- what is stored ----

  /** A dimension of schema 1: a kind and a value, or a single field that is named for the kind. */
  datatype Dimension = KindAndValue(kind: string, value: string) | Named(name: string, value: string) | OtherShape

  /** A stored descriptor in the shape of schema 0 or of schema 1. */
  datatype Entry =
    | Old(factId: string, dimensionKey: string, dimensionValue: string, uniqueId: string)
    | New(factId: string, dimension: Dimension, uniqueId: string)
    | Misshapen

  /** None stands for options that hold no store. */
  datatype Store = NoMapping | Store(version: int, asset: string, entries: seq<Entry>)

  const SCHEMA_VERSION := 1

  /** The kind that the name of a single field stands for. */
  function WireKind(name: string): Option<string> {
    match name
    case "scope" => Some("scope")
    case "phase" => Some("phase")
    case "phasePair" => Some("phase_pair")
    case "inputId" => Some("input_id")
    case "sensorId" => Some("sensor_id")
    case _ => None
  }

  function WireName(kind: string): string {
    match kind
    case "phase_pair" => "phasePair"
    case "input_id" => "inputId"
    case "sensor_id" => "sensorId"
    case _ => kind
  }

  function ReadDimension(d: Dimension): Option<(string, string)> {
    match d
    case KindAndValue(kind, value) => if TextFits(kind, 512) && TextFits(value, 512) then Some((kind, value)) else None
    case Named(name, value) =>
      var kind := if TextFits(name, 512) then WireKind(name) else None;
      if kind.Some? && TextFits(value, 512) then Some((kind.value, value)) else None
    case OtherShape => None
  }

  /** The descriptor that an entry spells out under a schema version. */
  function ReadEntry(version: int, e: Entry): Option<Descriptor> {
    if e.Misshapen? || (version == 0) != e.Old? then None
    else
      var d := ReadDimension(if e.Old? then KindAndValue(e.dimensionKey, e.dimensionValue) else e.dimension);
      if d.Some? && TextFits(e.factId, 512) && TextFits(e.uniqueId, 255)
      then Some(Descriptor(LegacyKey(e.factId, d.value.0, d.value.1), e.uniqueId))
      else None
  }

  /** Whose store is read. */
  datatype Reader = Reader(entryId: string, asset: string, isAddress: string -> bool)

  predicate Belongs(reader: Reader, d: Descriptor) {
    && DimensionSound(reader.isAddress, d.key.kind, d.key.value) && KindOf(d.key.factId) == Some(d.key.kind)
    && reader.entryId + "-pv-" <= d.uniqueId
  }

  function LoadEntry(reader: Reader, version: int, e: Entry): Option<Descriptor> {
    var d := ReadEntry(version, e);
    if d.Some? && Belongs(reader, d.value) then d else None
  }

  function LegacyKeysOf(ds: seq<Descriptor>): seq<LegacyKey> { seq(|ds|, i requires 0 <= i < |ds| => ds[i].key) }

  function UniqueIds(ds: seq<Descriptor>): seq<string> { seq(|ds|, i requires 0 <= i < |ds| => ds[i].uniqueId) }

  predicate NoRepeats(ds: seq<Descriptor>) { Distinct(LegacyKeysOf(ds)) && Distinct(UniqueIds(ds)) }

  /** `ds` is what the entries spell out, one by one. */
  predicate Spells(reader: Reader, version: int, entries: seq<Entry>, ds: seq<Descriptor>) {
    |ds| == |entries| && forall i :: 0 <= i < |ds| ==> LoadEntry(reader, version, entries[i]) == Some(ds[i])
  }

  predicate Readable(reader: Reader, store: Store) {
    store.Store? && store.version in {0, SCHEMA_VERSION} && |store.entries| <= MAX_FACTS
  }

  /** The outcome of loading a store: nothing for another asset, all entries or a refusal for this one. */
  ghost predicate Loads(reader: Reader, stored: Option<Store>, loaded: Option<seq<Descriptor>>) {
    if stored.None? || (stored.value.Store? && stored.value.asset != reader.asset) then loaded == Some([])
    else if !Readable(reader, stored.value) then loaded == None
    else
      var version, entries := stored.value.version, stored.value.entries;
      if loaded.Some? then Spells(reader, version, entries, loaded.value) && NoRepeats(loaded.value)
      else forall ds :: Spells(reader, version, entries, ds) ==> !NoRepeats(ds)
  }

  method Load(reader: Reader, stored: Option<Store>) returns (loaded: Option<seq<Descriptor>>)
    ensures Loads(reader, stored, loaded)
  {
    if stored.None? { return Some([]); }
    if stored.value.Store? && stored.value.asset != reader.asset { return Some([]); }
    if !Readable(reader, stored.value) { return None; }
    var version, entries := stored.value.version, stored.value.entries;
    var ds := [];
    for i := 0 to |entries|
      invariant Spells(reader, version, entries[..i], ds)
    {
      var d := LoadEntry(reader, version, entries[i]);
      if d == None { return None; }
      ds := ds + [d.value];
    }
    assert entries[..|entries|] == entries;
    SizesTell(LegacyKeysOf(ds));
    SizesTell(UniqueIds(ds));
    if |Elements(LegacyKeysOf(ds))| != |ds| || |Elements(UniqueIds(ds))| != |ds| {
      forall other | Spells(reader, version, entries, other)
        ensures !NoRepeats(other)
      {
        SpelledOnce(reader, version, entries, ds, other);
      }
      return None;
    }
    return Some(ds);
  }

  lemma SpelledOnce(reader: Reader, version: int, entries: seq<Entry>, a: seq<Descriptor>, b: seq<Descriptor>)
    requires Spells(reader, version, entries, a) && Spells(reader, version, entries, b)
    ensures a == b
  {
    forall i | 0 <= i < |a|
      ensures a[i] == b[i]
    {
      assert LoadEntry(reader, version, entries[i]) == Some(a[i]);
    }
  }

  /** A store loads in one way. */
  lemma LoadsOneWay(reader: Reader, stored: Option<Store>, a: Option<seq<Descriptor>>, b: Option<seq<Descriptor>>)
    requires Loads(reader, stored, a) && Loads(reader, stored, b)
    ensures a == b
  {
    if a.Some? && b.Some? && a != b {
      SpelledOnce(reader, stored.value.version, stored.value.entries, a.value, b.value);
    }
  }

  /** No store, or one of another asset, is empty; one of this asset in an unknown version or too long is refused. */
  lemma WhatIsNotLoaded(reader: Reader, stored: Option<Store>, loaded: Option<seq<Descriptor>>)
    requires Loads(reader, stored, loaded)
    ensures stored.None? || (stored.value.Store? && stored.value.asset != reader.asset) ==> loaded == Some([])
    ensures stored.Some? && stored.value.NoMapping? ==> loaded == None
    ensures stored.Some? && stored.value.Store? && stored.value.asset == reader.asset ==>
      (stored.value.version !in {0, 1} || |stored.value.entries| > 256 ==> loaded == None)
  {
  }

  function Entries(ds: seq<Descriptor>): seq<Entry> {
    seq(|ds|, i requires 0 <= i < |ds| =>
      New(ds[i].key.factId, KindAndValue(ds[i].key.kind, ds[i].key.value), ds[i].uniqueId))
  }

  predicate Storable(ds: seq<Descriptor>) { |ds| <= MAX_FACTS && NoRepeats(ds) }

  function Serialize(asset: string, ds: seq<Descriptor>): Option<Store> {
    if Storable(ds) then Some(Store(SCHEMA_VERSION, asset, Entries(ds))) else None
  }

  // ---- round trips ----

  /** A descriptor that loading would let through. */
  predicate Loadable(reader: Reader, d: Descriptor) {
    Belongs(reader, d) && TextFits(d.key.value, 512) && TextFits(d.uniqueId, 255)
  }

  lemma KindsAreShort(factId: string)
    requires KindOf(factId).Some?
    ensures TextFits(factId, 512) && TextFits(KindOf(factId).value, 512)
  {
  }

  /** Written in any of the three ways, a descriptor is loaded exactly if it is loadable. */
  lemma EntryLoads(reader: Reader, d: Descriptor)
    ensures
      var pair := New(d.key.factId, KindAndValue(d.key.kind, d.key.value), d.uniqueId);
      LoadEntry(reader, 1, pair) == if Loadable(reader, d) then Some(d) else None
    ensures
      var first := Old(d.key.factId, d.key.kind, d.key.value, d.uniqueId);
      LoadEntry(reader, 0, first) == if Loadable(reader, d) then Some(d) else None
    ensures Loadable(reader, d) ==>
      LoadEntry(reader, 1, New(d.key.factId, Named(WireName(d.key.kind), d.key.value), d.uniqueId)) == Some(d)
  {
    if KindOf(d.key.factId).Some? { KindsAreShort(d.key.factId); }
  }

  /** What a written store spells out: the descriptors themselves, and only if all of them are loadable. */
  lemma EntriesSpell(reader: Reader, ds: seq<Descriptor>, other: seq<Descriptor>)
    ensures Spells(reader, 1, Entries(ds), other) <==> other == ds && forall d | d in ds :: Loadable(reader, d)
  {
    forall i | 0 <= i < |ds|
      ensures LoadEntry(reader, 1, Entries(ds)[i]) == if Loadable(reader, ds[i]) then Some(ds[i]) else None
    {
      EntryLoads(reader, ds[i]);
    }
    if Spells(reader, 1, Entries(ds), other) {
      assert forall i | 0 <= i < |ds| :: LoadEntry(reader, 1, Entries(ds)[i]) == Some(other[i]);
    }
  }

  /** What is written is loaded as it was, exactly when every descriptor is loadable; otherwise it is refused. */
  lemma LoadUndoesSerialize(reader: Reader, ds: seq<Descriptor>, loaded: Option<seq<Descriptor>>)
    requires Storable(ds) && Loads(reader, Serialize(reader.asset, ds), loaded)
    ensures loaded == if forall d | d in ds :: Loadable(reader, d) then Some(ds) else None
  {
    EntriesSpell(reader, ds, ds);
    if loaded.Some? { EntriesSpell(reader, ds, loaded.value); }
  }

  /** What is loaded, in whatever version and shape, can be written, and then loads as the same descriptors. */
  lemma UpgradeKeepsDescriptors(reader: Reader, stored: Option<Store>, ds: seq<Descriptor>)
    requires Loads(reader, stored, Some(ds))
    ensures Storable(ds) && Loads(reader, Serialize(reader.asset, ds), Some(ds))
  {
    forall i | 0 <= i < |ds|
      ensures LoadEntry(reader, 1, Entries(ds)[i]) == Some(ds[i])
    {
      assert LoadEntry(reader, stored.value.version, stored.value.entries[i]) == Some(ds[i]);
      EntryLoads(reader, ds[i]);
    }
    if ds == [] { assert LegacyKeysOf(ds) == [] && UniqueIds(ds) == []; }
  }

  // ---- the store and the projection fit each other ----

  lemma InverterIsAToken()
    ensures IsToken("inverter") && !IsHostAndPort("inverter")
  {
    assert |"inverter"| == 8;
  }

  lemma LegacyIsDescribable(isAddress: string -> bool, k: LegacyKey)
    requires IsLegacy(k) && !isAddress("inverter")
    ensures DimensionSound(isAddress, k.kind, k.value) && KindOf(k.factId) == Some(k.kind)
  {
    InverterIsAToken();
  }

  /** Every fact that a response can publish is one that the store takes back. */
  lemma MappedKeysAreDescribable(reader: Reader, key: Key, uniqueId: string)
    requires MapKey(key).To? && !reader.isAddress("inverter")
    requires reader.entryId + "-pv-" <= uniqueId && |uniqueId| <= 255
    ensures Loadable(reader, Descriptor(MapKey(key).key, uniqueId))
  {
    MappedIdentitiesAreLegacy(key);
    LegacyIsDescribable(reader.isAddress, MapKey(key).key);
    LegacyValuesAreShort(MapKey(key).key);
  }

  lemma LegacyValuesAreShort(k: LegacyKey)
    requires IsLegacy(k)
    ensures TextFits(k.value, 512)
  {
  }
}

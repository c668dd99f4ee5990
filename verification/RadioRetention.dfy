/**
 * Last-known-good retention of radio devices: a slot outlives its last active observation by at most
 * three snapshots. The cache is proved to be a function of the history of snapshots.
 */
module RadioRetention {
  import opened Prelude

  datatype Slot = Slot(group: nat, instance: nat)

  datatype Attribute = IntIs(i: int) | BoolIs(b: bool) | RealIs(r: real) | TextIs(s: string)

  /** The named attributes of a device, besides its group and instance. */
  type Device = map<string, Attribute>

  /** A device as received, with every member already parsed or left out if it does not parse. */
  datatype RawDevice = NotAMapping | RawDevice(group: Option<int>, instance: Option<int>, members: Device)

  datatype Normalized = Normalized(slot: Slot, device: Device)

  const GRACE_CYCLES := 3
  const ZONE_GROUPS := {0x09, 0x0A}

  // ---- normalization ----

  predicate Admissible(name: string, a: Attribute) {
    match name
    case "device_connected" | "device_paired" => a.BoolIs?
    case "device_class_address" => a.IntIs? && 0 <= a.i <= 0xFF
    case "device_model" | "firmware_version" => a.TextIs? && a.s != ""
    case "hardware_identifier" | "remote_control_address" | "zone_assignment" => a.IntIs? && 0 <= a.i
    case "reception_strength" => a.IntIs?
    case "room_temperature_c" | "room_humidity_pct" => a.RealIs?
    case _ => false
  }

  function SlotMode(members: Device): string {
    if "slot_mode" in members && members["slot_mode"].TextIs? && members["slot_mode"].s != ""
    then members["slot_mode"].s
    else "active"
  }

  function Normalize(raw: RawDevice): Option<Normalized> {
    if raw.NotAMapping? || raw.group.None? || raw.instance.None? then None
    else if !(0 <= raw.group.value <= 0xFF && 0 <= raw.instance.value <= 0xFF) then None
    else
      var kept := map name | name in raw.members && Admissible(name, raw.members[name]) :: raw.members[name];
      Some(Normalized(Slot(raw.group.value, raw.instance.value), kept["slot_mode" := TextIs(SlotMode(raw.members))]))
  }

  /** Normalizing what was normalized changes nothing. */
  lemma NormalizeIsIdempotent(raw: RawDevice)
    ensures Normalize(raw).Some? ==>
      var n := Normalize(raw).value;
      Normalize(RawDevice(Some(n.slot.group), Some(n.slot.instance), n.device)) == Some(n)
  {
    if Normalize(raw).Some? {
      var n := Normalize(raw).value;
      var again := Normalize(RawDevice(Some(n.slot.group), Some(n.slot.instance), n.device)).value;
      assert again.device["slot_mode"] == n.device["slot_mode"];
      assert again.device == n.device;
    }
  }

  function IntOf(d: Device, name: string): Option<int> {
    if name in d && d[name].IntIs? then Some(d[name].i) else None
  }

  predicate HasText(d: Device, name: string) { name in d && d[name].TextIs? && d[name].s != "" }

  predicate Connected(d: Device) { "device_connected" in d && d["device_connected"] == BoolIs(true) }

  predicate HasIdentity(d: Device) {
    || IntOf(d, "device_class_address") == Some(0x26)
    || HasText(d, "device_model") || HasText(d, "firmware_version")
    || (IntOf(d, "hardware_identifier").Some? && IntOf(d, "hardware_identifier").value > 0)
  }

  predicate IsActive(slot: Slot, d: Device) {
    if slot.group in ZONE_GROUPS then Connected(d)
    else if slot.group == 0x0C then HasIdentity(d)
    else Connected(d) || HasIdentity(d)
  }

  /** Attributes by the type that is asked of them. */
  const FLAGS := {"device_connected", "device_paired"}
  const TEXTS := {"device_model", "firmware_version"}
  const COUNTS := {"hardware_identifier", "remote_control_address", "zone_assignment"}
  const MEASURES := {"room_temperature_c", "room_humidity_pct"}

  /** The attribute is of its type and range. */
  predicate Proper(name: string, a: Attribute) {
    || (name in FLAGS && a.BoolIs?) || (name in TEXTS && a.TextIs? && a.s != "")
    || (name in COUNTS && a.IntIs? && a.i >= 0) || (name in MEASURES && a.RealIs?)
    || (name == "reception_strength" && a.IntIs?)
    || (name == "device_class_address" && a.IntIs? && 0 <= a.i <= 255)
  }

  /**
   * A device is taken iff its slot is two bytes; of its attributes just the proper ones are kept, as they are, and
   * its mode is its own or else "active".
   */
  lemma NormalizesIff(raw: RawDevice)
    ensures Normalize(raw).Some? <==>
      raw.RawDevice? && raw.group.Some? && 0 <= raw.group.value <= 255 && raw.instance.Some? && 0 <= raw.instance.value <= 255
    ensures Normalize(raw).Some? ==>
      var n := Normalize(raw).value;
      && n.slot == Slot(raw.group.value, raw.instance.value)
      && (forall name | name != "slot_mode" ::
            Lookup(n.device, name)
              == if name in raw.members && Proper(name, raw.members[name]) then Some(raw.members[name]) else None)
      && Lookup(n.device, "slot_mode") == Some(TextIs(
           if HasText(raw.members, "slot_mode") then raw.members["slot_mode"].s else "active"))
  {
    forall name, a: Attribute
      ensures Admissible(name, a) <==> Proper(name, a)
    {
    }
  }

  predicate Identified(d: Device) {
    || Lookup(d, "device_class_address") == Some(IntIs(0x26))
    || (exists name | name in TEXTS :: HasText(d, name))
    || (exists n | n == IntOf(d, "hardware_identifier") :: n.Some? && n.value > 0)
  }

  /**
   * A device of a zone group is active iff it is connected, one of group 0x0C iff it gives evidence of its identity,
   * and any other iff it does either.
   */
  lemma ActiveIff(slot: Slot, d: Device)
    ensures
      var connected := Lookup(d, "device_connected") == Some(BoolIs(true));
      IsActive(slot, d) <==>
        if slot.group == 9 || slot.group == 10 then connected
        else if slot.group == 12 then Identified(d)
        else connected || Identified(d)
  {
    assert HasText(d, "device_model") || HasText(d, "firmware_version") <==> exists name | name in TEXTS :: HasText(d, name);
  }

  // ---- one snapshot ----

  /** By slot, the last device of the list. */
  function Observed(devices: seq<RawDevice>): map<Slot, Device> {
    if devices == [] then map[]
    else
      var before, n := Observed(devices[..|devices| - 1]), Normalize(devices[|devices| - 1]);
      if n.Some? then before[n.value.slot := n.value.device] else before
  }

  /** By slot, the last active device of the list. */
  function Active(devices: seq<RawDevice>): map<Slot, Device> {
    if devices == [] then map[]
    else
      var before, n := Active(devices[..|devices| - 1]), Normalize(devices[|devices| - 1]);
      if n.Some? && IsActive(n.value.slot, n.value.device) then before[n.value.slot := n.value.device] else before
  }

  lemma {:induction false} ActiveAreActive(devices: seq<RawDevice>)
    ensures forall slot | slot in Active(devices) :: IsActive(slot, Active(devices)[slot]) && slot in Observed(devices)
    ensures forall slot | slot in Observed(devices) && IsActive(slot, Observed(devices)[slot]) :: slot in Active(devices)
    ensures forall slot | slot in Observed(devices) :: slot.group <= 0xFF && slot.instance <= 0xFF
  {
    if devices != [] { ActiveAreActive(devices[..|devices| - 1]); }
  }

  datatype Cache = Cache(lastBySlot: map<Slot, Device>, staleCycles: map<Slot, nat>)

  function StaleOf(c: Cache, slot: Slot): nat { if slot in c.staleCycles then c.staleCycles[slot] else 0 }

  function HexDigit(n: nat): char
    requires n < 16
  {
    "0123456789abcdef"[n]
  }

  function Decimal(n: nat): string { if n < 10 then [HexDigit(n)] else Decimal(n / 10) + [HexDigit(n % 10)] }

  function BusKey(slot: Slot): string {
    var hex := if slot.group < 0x100 then [HexDigit(slot.group / 16), HexDigit(slot.group % 16)] else "";
    "g" + hex + "-i" + (if slot.instance < 10 then "0" else "") + Decimal(slot.instance)
  }

  function Named(slot: Slot, d: Device): Device { d["radio_bus_key" := TextIs(BusKey(slot))] }

  /** A device that is no longer active: what was last seen of it, disconnected. */
  function Carry(slot: Slot, previous: Device, observed: map<Slot, Device>): Device {
    var carried := if slot in observed then previous + observed[slot] else previous;
    var shown := if slot !in observed || !IsActive(slot, observed[slot])
                 then carried["device_connected" := BoolIs(false)] else carried;
    Named(slot, shown)
  }

  function Kept(c: Cache, active: map<Slot, Device>): set<Slot> {
    active.Keys + set slot | slot in c.lastBySlot && slot !in active && StaleOf(c, slot) + 1 <= GRACE_CYCLES
  }

  function KeptDevice(c: Cache, observed: map<Slot, Device>, active: map<Slot, Device>, slot: Slot): Device
    requires slot in active || slot in c.lastBySlot
  {
    if slot in active then Named(slot, active[slot]) else Carry(slot, c.lastBySlot[slot], observed)
  }

  function KeptStale(c: Cache, active: map<Slot, Device>, slot: Slot): nat {
    if slot in active then 0 else StaleOf(c, slot) + 1
  }

  function Materialize(c: Cache, devices: seq<RawDevice>): Cache {
    var observed, active := Observed(devices), Active(devices);
    Cache(map slot | slot in Kept(c, active) :: KeptDevice(c, observed, active, slot),
          map slot | slot in Kept(c, active) :: KeptStale(c, active, slot))
  }

  // ---- histories ----

  /** A snapshot from a poll or a subscription; a poll that cannot be used; a poll that failed. */
  datatype Event = Snapshot(devices: seq<RawDevice>) | Unusable | Failure

  const EMPTY := Cache(map[], map[])

  function Step(c: Cache, e: Event): Cache {
    match e
    case Snapshot(devices) => Materialize(c, devices)
    case Unusable => EMPTY
    case Failure => c
  }

  function Run(events: seq<Event>): Cache { Fold((c, e) => Step(c, e), EMPTY, events) }

  /** How many snapshots ago the slot was last active, if it ever was since the last unusable poll. */
  function Since(events: seq<Event>, slot: Slot): Option<nat> {
    if events == [] then None
    else
      var before := Since(events[..|events| - 1], slot);
      match events[|events| - 1]
      case Snapshot(devices) =>
        if slot in Active(devices) then Some(0)
        else if before.Some? then Some(before.value + 1)
        else None
      case Unusable => None
      case Failure => before
  }

  /** What was last seen of an attribute, from the last active observation of the slot on. */
  function LastSeen(events: seq<Event>, slot: Slot, name: string): Option<Attribute> {
    if events == [] then None
    else
      var before := LastSeen(events[..|events| - 1], slot, name);
      match events[|events| - 1]
      case Snapshot(devices) =>
        var active, observed := Active(devices), Observed(devices);
        if slot in active then Lookup(active[slot], name)
        else if slot in observed && name in observed[slot] then Some(observed[slot][name])
        else before
      case Unusable => None
      case Failure => before
  }

  function Lookup(d: Device, name: string): Option<Attribute> { if name in d then Some(d[name]) else None }

  predicate Domains(c: Cache) { c.lastBySlot.Keys == c.staleCycles.Keys }

  predicate Matches(c: Cache, since: Option<nat>, slot: Slot) {
    && (slot in c.lastBySlot <==> since.Some? && since.value <= GRACE_CYCLES)
    && (slot in c.staleCycles ==> since == Some(c.staleCycles[slot]))
  }

  lemma MaterializeMatches(c: Cache, since: Option<nat>, devices: seq<RawDevice>, slot: Slot)
    requires Domains(c) && Matches(c, since, slot)
    ensures
      var after := if slot in Active(devices) then Some(0) else if since.Some? then Some(since.value + 1) else None;
      Domains(Materialize(c, devices)) && Matches(Materialize(c, devices), after, slot)
  {
  }

  /**
   * On every history a slot is kept iff it was active within the last three snapshots before the latest,
   * and its stale count is the number of snapshots since.
   */
  lemma {:induction false} KeptIffRecentlyActive(events: seq<Event>, slot: Slot)
    ensures Domains(Run(events))
    ensures slot in Run(events).lastBySlot <==> Since(events, slot).Some? && Since(events, slot).value <= 3
    ensures slot in Run(events).staleCycles ==> Since(events, slot) == Some(Run(events).staleCycles[slot])
  {
    if events != [] {
      var front, last := events[..|events| - 1], events[|events| - 1];
      KeptIffRecentlyActive(front, slot);
      if last.Snapshot? { MaterializeMatches(Run(front), Since(front, slot), last.devices, slot); }
    }
  }

  /** The content of a kept slot is what was last seen of each attribute; once stale it shows as disconnected. */
  lemma {:induction false} KeptAsLastSeen(events: seq<Event>, slot: Slot, name: string)
    requires slot in Run(events).lastBySlot && name != "device_connected" && name != "radio_bus_key"
    ensures Lookup(Run(events).lastBySlot[slot], name) == LastSeen(events, slot, name)
  {
    var front, last := events[..|events| - 1], events[|events| - 1];
    if last.Failure? || (last.Snapshot? && slot !in Active(last.devices)) { KeptAsLastSeen(front, slot, name); }
  }

  /** An unstale slot is shown as it was seen active; a stale one is shown as disconnected. */
  predicate ShowsActivity(c: Cache) {
    && Domains(c)
    && forall slot | slot in c.lastBySlot ::
         if c.staleCycles[slot] == 0 then IsActive(slot, c.lastBySlot[slot])
         else Lookup(c.lastBySlot[slot], "device_connected") == Some(BoolIs(false))
  }

  lemma MaterializeShows(c: Cache, devices: seq<RawDevice>)
    requires Domains(c)
    ensures ShowsActivity(Materialize(c, devices))
  {
    ActiveAreActive(devices);
    var after, active := Materialize(c, devices), Active(devices);
    forall slot | slot in after.lastBySlot
      ensures slot in active ==> IsActive(slot, after.lastBySlot[slot])
      ensures slot !in active ==> Lookup(after.lastBySlot[slot], "device_connected") == Some(BoolIs(false))
    {
      if slot in active { NamingKeepsActivity(slot, active[slot]); }
    }
  }

  lemma NamingKeepsActivity(slot: Slot, d: Device)
    ensures IsActive(slot, Named(slot, d)) <==> IsActive(slot, d)
  {
  }

  lemma {:induction false} EveryRunShowsActivity(events: seq<Event>)
    ensures ShowsActivity(Run(events))
  {
    if events != [] {
      var front, last := events[..|events| - 1], events[|events| - 1];
      EveryRunShowsActivity(front);
      if last.Snapshot? { MaterializeShows(Run(front), last.devices); }
    }
  }

  predicate NamesDevices(c: Cache) {
    forall slot | slot in c.lastBySlot :: Lookup(c.lastBySlot[slot], "radio_bus_key") == Some(TextIs(BusKey(slot)))
  }

  /** Every kept device carries the bus key of its own slot. */
  lemma {:induction false} EveryRunNamesDevices(events: seq<Event>)
    ensures NamesDevices(Run(events))
  {
    if events != [] { EveryRunNamesDevices(events[..|events| - 1]); }
  }

  // ---- bus keys ----

  lemma {:induction false} DecimalIsInjective(m: nat, n: nat)
    requires Decimal(m) == Decimal(n)
    ensures m == n
  {
    if m >= 10 { DecimalIsNotEmpty(m / 10); }
    if n >= 10 { DecimalIsNotEmpty(n / 10); }
    HexDigitsDiffer(m % 10, n % 10);
    if m >= 10 && n >= 10 {
      assert Decimal(m)[..|Decimal(m)| - 1] == Decimal(m / 10) && Decimal(n)[..|Decimal(n)| - 1] == Decimal(n / 10);
      DecimalIsInjective(m / 10, n / 10);
    }
  }

  lemma {:induction false} DecimalIsNotEmpty(n: nat)
    ensures Decimal(n) != "" && (n > 0 ==> Decimal(n)[0] != '0')
  {
    if n >= 10 { DecimalIsNotEmpty(n / 10); }
  }

  lemma HexDigitsDiffer(m: nat, n: nat)
    requires m < 16 && n < 16
    ensures HexDigit(m) == HexDigit(n) ==> m == n
  {
  }

  /** Different slots have different bus keys. */
  lemma BusKeysDiffer(a: Slot, b: Slot)
    requires a.group <= 0xFF && b.group <= 0xFF && BusKey(a) == BusKey(b)
    ensures a == b
  {
    var x, y := BusKey(a), BusKey(b);
    assert x[1] == HexDigit(a.group / 16) && x[2] == HexDigit(a.group % 16);
    assert y[1] == HexDigit(b.group / 16) && y[2] == HexDigit(b.group % 16);
    HexDigitsDiffer(a.group / 16, b.group / 16);
    HexDigitsDiffer(a.group % 16, b.group % 16);
    assert x[5..] == (if a.instance < 10 then "0" else "") + Decimal(a.instance);
    assert y[5..] == (if b.instance < 10 then "0" else "") + Decimal(b.instance);
    DecimalIsNotEmpty(a.instance);
    DecimalIsNotEmpty(b.instance);
    assert a.instance < 10 ==> x[5..][1..] == Decimal(a.instance);
    assert b.instance < 10 ==> y[5..][1..] == Decimal(b.instance);
    DecimalIsInjective(a.instance, b.instance);
  }

  // ---- order ----

  predicate SlotBefore(a: Slot, b: Slot) { a.group < b.group || (a.group == b.group && a.instance < b.instance) }

  predicate Sorted(slots: seq<Slot>) { forall i, j :: 0 <= i < j < |slots| ==> SlotBefore(slots[i], slots[j]) }

  lemma RestOfListing(s: seq<Slot>, slot: Slot)
    requires Sorted(s) && s != []
    ensures slot in s[1..] <==> slot in s && slot != s[0]
  {
    assert s == [s[0]] + s[1..];
  }

  /** A set of slots has one strictly sorted listing. */
  lemma {:induction false} SortedListingIsUnique(s: seq<Slot>, t: seq<Slot>)
    requires Sorted(s) && Sorted(t) && forall slot :: slot in s <==> slot in t
    ensures s == t
  {
    if s != [] { assert s[0] in t; }
    if t != [] { assert t[0] in s; }
    if s != [] {
      assert s[0] in t && t[0] in s;
      assert s[0] == t[0];
      forall slot
        ensures slot in s[1..] <==> slot in t[1..]
      {
        RestOfListing(s, slot);
        RestOfListing(t, slot);
      }
      SortedListingIsUnique(s[1..], t[1..]);
    }
  }

  method SortedSlots(keys: set<Slot>) returns (slots: seq<Slot>)
    ensures Sorted(slots) && forall slot :: slot in slots <==> slot in keys
  {
    slots := [];
    var todo := keys;
    while todo != {}
      invariant todo <= keys
      invariant Sorted(slots)
      invariant forall slot :: slot in slots <==> slot in keys - todo
      decreases |todo|
    {
      var slot :| slot in todo;
      InsertSlotKeepsOrder(slot, slots);
      slots := InsertSlot(slot, slots);
      todo := todo - {slot};
    }
  }

  function InsertSlot(slot: Slot, slots: seq<Slot>): seq<Slot> {
    if slots == [] || SlotBefore(slot, slots[0]) then [slot] + slots
    else [slots[0]] + InsertSlot(slot, slots[1..])
  }

  lemma {:induction false} InsertSlotKeepsOrder(slot: Slot, slots: seq<Slot>)
    requires Sorted(slots) && slot !in slots
    ensures Sorted(InsertSlot(slot, slots))
    ensures forall other :: other in InsertSlot(slot, slots) <==> other == slot || other in slots
  {
    if slots != [] && !SlotBefore(slot, slots[0]) {
      InsertSlotKeepsOrder(slot, slots[1..]);
      var rest := InsertSlot(slot, slots[1..]);
      assert slots == [slots[0]] + slots[1..];
      forall i | 0 <= i < |rest|
        ensures SlotBefore(slots[0], rest[i])
      {
        assert rest[i] in rest;
      }
    }
  }

  // ---- zone candidates ----

  datatype ZoneCandidate = ZoneCandidate(group: nat, instance: nat, remote: Option<int>, busKey: string)

  function CandidateOf(slot: Slot, d: Device): ZoneCandidate {
    ZoneCandidate(slot.group, slot.instance, IntOf(d, "remote_control_address"), BusKey(slot))
  }

  /** The zone that an active device can serve: connected, in a zone group, assigned. */
  function ZoneOf(slot: Slot, d: Device): Option<int> {
    var number := IntOf(d, "zone_assignment");
    if slot.group in ZONE_GROUPS && Connected(d) && number.Some? && number.value > 0 then Some(number.value - 1)
    else None
  }

  /** Zone n - 1 for assignment n, of connected devices in groups 9 and 10; assignment zero is none. */
  lemma ServesIff(slot: Slot, d: Device, zone: int)
    ensures ZoneOf(slot, d) == Some(zone) <==>
      && (slot.group == 9 || slot.group == 10) && Lookup(d, "device_connected") == Some(BoolIs(true))
      && zone >= 0 && Lookup(d, "zone_assignment") == Some(IntIs(zone + 1))
  {
  }

  function RemoteOrder(c: ZoneCandidate): int { if c.remote.Some? then c.remote.value else 255 }

  predicate CandidateBefore(a: ZoneCandidate, b: ZoneCandidate) {
    || a.group < b.group
    || (a.group == b.group && RemoteOrder(a) < RemoteOrder(b))
    || (a.group == b.group && RemoteOrder(a) == RemoteOrder(b) && a.instance < b.instance)
  }

  predicate CandidatesSorted(s: seq<ZoneCandidate>) { forall i, j :: 0 <= i < j < |s| ==> CandidateBefore(s[i], s[j]) }

  function InsertCandidate(c: ZoneCandidate, s: seq<ZoneCandidate>): seq<ZoneCandidate> {
    if s == [] || CandidateBefore(c, s[0]) then [c] + s else [s[0]] + InsertCandidate(c, s[1..])
  }

  lemma {:induction false} InsertCandidateKeepsOrder(c: ZoneCandidate, s: seq<ZoneCandidate>)
    requires CandidatesSorted(s)
    requires forall other | other in s :: other.group != c.group || other.instance != c.instance
    ensures CandidatesSorted(InsertCandidate(c, s))
    ensures forall other :: other in InsertCandidate(c, s) <==> other == c || other in s
  {
    if s != [] && !CandidateBefore(c, s[0]) {
      InsertCandidateKeepsOrder(c, s[1..]);
      var rest := InsertCandidate(c, s[1..]);
      assert s == [s[0]] + s[1..];
      forall i | 0 <= i < |rest|
        ensures CandidateBefore(s[0], rest[i])
      {
        assert rest[i] in rest;
      }
    }
  }

  predicate Listed(out: map<int, seq<ZoneCandidate>>, zone: int, c: ZoneCandidate) { zone in out && c in out[zone] }

  predicate Suits(active: map<Slot, Device>, among: set<Slot>, zone: int, c: ZoneCandidate) {
    var slot := Slot(c.group, c.instance);
    slot in among && slot in active && ZoneOf(slot, active[slot]) == Some(zone) && c == CandidateOf(slot, active[slot])
  }

  /** Exactly the active, connected devices of the zone groups, each under its zone, in order. */
  ghost predicate CandidatesFor(out: map<int, seq<ZoneCandidate>>, active: map<Slot, Device>, among: set<Slot>) {
    && (forall zone | zone in out :: out[zone] != [] && CandidatesSorted(out[zone]))
    && (forall zone, c :: Listed(out, zone, c) <==> Suits(active, among, zone, c))
  }

  function AddCandidate(out: map<int, seq<ZoneCandidate>>, slot: Slot, d: Device): map<int, seq<ZoneCandidate>> {
    var zone, c := ZoneOf(slot, d), CandidateOf(slot, d);
    if zone.None? then out
    else out[zone.value := InsertCandidate(c, if zone.value in out then out[zone.value] else [])]
  }

  lemma AddCandidateSuits(out: map<int, seq<ZoneCandidate>>, active: map<Slot, Device>, among: set<Slot>, slot: Slot)
    requires CandidatesFor(out, active, among) && slot in active && slot !in among
    ensures CandidatesFor(AddCandidate(out, slot, active[slot]), active, among + {slot})
  {
    var more, zone, c := AddCandidate(out, slot, active[slot]), ZoneOf(slot, active[slot]), CandidateOf(slot, active[slot]);
    if zone.Some? {
      var entries := if zone.value in out then out[zone.value] else [];
      forall other | other in entries
        ensures other.group != c.group || other.instance != c.instance
      {
        assert Listed(out, zone.value, other);
      }
      InsertCandidateKeepsOrder(c, entries);
      forall z, other
        ensures Listed(more, z, other) <==> Listed(out, z, other) || (z == zone.value && other == c)
      {
      }
    }
    forall z, other
      ensures Suits(active, among + {slot}, z, other)
        <==> Suits(active, among, z, other) || (zone == Some(z) && other == c)
    {
    }
  }

  method BuildZoneCandidates(active: map<Slot, Device>) returns (out: map<int, seq<ZoneCandidate>>)
    ensures CandidatesFor(out, active, active.Keys)
  {
    out := map[];
    var todo := active.Keys;
    while todo != {}
      invariant todo <= active.Keys
      invariant CandidatesFor(out, active, active.Keys - todo)
      decreases |todo|
    {
      var slot :| slot in todo;
      AddCandidateSuits(out, active, active.Keys - todo, slot);
      assert active.Keys - (todo - {slot}) == active.Keys - todo + {slot};
      out := AddCandidate(out, slot, active[slot]);
      todo := todo - {slot};
    }
  }

  // ---- the coordinator ----

  lemma RunEnds(events: seq<Event>, e: Event)
    ensures Run(events + [e]) == Step(Run(events), e)
  {
    FoldEnds((c, e) => Step(c, e), EMPTY, events, e);
  }

  datatype Shown = Shown(slot: Slot, device: Device, staleCycles: nat)

  datatype Published = Published(devices: seq<Shown>, candidates: map<int, seq<ZoneCandidate>>)

  function Slots(devices: seq<Shown>): seq<Slot> { seq(|devices|, i requires 0 <= i < |devices| => devices[i].slot) }

  /** The published list shows the cache, slot by slot in order; the candidates are of the active devices. */
  ghost predicate Publishes(p: Published, c: Cache, active: map<Slot, Device>) {
    && Domains(c)
    && Sorted(Slots(p.devices)) && (forall slot :: slot in Slots(p.devices) <==> slot in c.lastBySlot)
    && (forall shown | shown in p.devices && shown.slot in c.lastBySlot ::
          shown == Shown(shown.slot, c.lastBySlot[shown.slot], c.staleCycles[shown.slot]))
    && CandidatesFor(p.candidates, active, active.Keys)
  }

  datatype Response = Devices(devices: seq<RawDevice>) | NoDevices | ReadFailed

  function Received(r: Response): Event {
    match r
    case Devices(devices) => Snapshot(devices)
    case NoDevices => Unusable
    case ReadFailed => Failure
  }

  /** The entries made so far are those that the snapshot calls for. */
  predicate Sound(c: Cache, observed: map<Slot, Device>, active: map<Slot, Device>, combined: map<Slot, Device>,
                  next: map<Slot, nat>)
  {
    && combined.Keys == next.Keys <= Kept(c, active)
    && forall slot | slot in combined ::
         combined[slot] == KeptDevice(c, observed, active, slot) && next[slot] == KeptStale(c, active, slot)
  }

  lemma SoundGrows(c: Cache, observed: map<Slot, Device>, active: map<Slot, Device>, combined: map<Slot, Device>,
                   next: map<Slot, nat>, slot: Slot)
    requires Sound(c, observed, active, combined, next) && slot in Kept(c, active)
    ensures Sound(c, observed, active, combined[slot := KeptDevice(c, observed, active, slot)],
                  next[slot := KeptStale(c, active, slot)])
  {
  }

  lemma SoundAndComplete(c: Cache, devices: seq<RawDevice>, combined: map<Slot, Device>, next: map<Slot, nat>)
    requires Sound(c, Observed(devices), Active(devices), combined, next) && combined.Keys == Kept(c, Active(devices))
    ensures Cache(combined, next) == Materialize(c, devices)
  {
    assert combined == Materialize(c, devices).lastBySlot;
    assert next == Materialize(c, devices).staleCycles;
  }

  method Survey(devices: seq<RawDevice>) returns (observed: map<Slot, Device>, active: map<Slot, Device>)
    ensures observed == Observed(devices) && active == Active(devices)
  {
    observed, active := map[], map[];
    for i := 0 to |devices|
      invariant observed == Observed(devices[..i]) && active == Active(devices[..i])
    {
      assert devices[..i + 1][..i] == devices[..i];
      var n := Normalize(devices[i]);
      if n.Some? {
        observed := observed[n.value.slot := n.value.device];
        if IsActive(n.value.slot, n.value.device) { active := active[n.value.slot := n.value.device]; }
      }
    }
    assert devices[..|devices|] == devices;
  }

  method Present(c: Cache) returns (devices: seq<Shown>)
    requires Domains(c)
    ensures Sorted(Slots(devices)) && forall slot :: slot in Slots(devices) <==> slot in c.lastBySlot
    ensures forall shown | shown in devices && shown.slot in c.lastBySlot ::
      shown == Shown(shown.slot, c.lastBySlot[shown.slot], c.staleCycles[shown.slot])
  {
    var slots := SortedSlots(c.lastBySlot.Keys);
    devices := [];
    for i := 0 to |slots|
      invariant |devices| == i
      invariant forall k :: 0 <= k < i ==>
        slots[k] in c.lastBySlot && devices[k] == Shown(slots[k], c.lastBySlot[slots[k]], c.staleCycles[slots[k]])
    {
      assert slots[i] in c.lastBySlot;
      devices := devices + [Shown(slots[i], c.lastBySlot[slots[i]], c.staleCycles[slots[i]])];
    }
    assert Slots(devices) == slots;
  }

  class HelianthusRadioDeviceCoordinator {
    var lastBySlot: map<Slot, Device>
    var staleCycles: map<Slot, nat>
    ghost var history: seq<Event>

    ghost predicate Valid()
      reads this
    {
      Cache(lastBySlot, staleCycles) == Run(history) && Domains(Cache(lastBySlot, staleCycles))
    }

    constructor ()
      ensures Valid() && history == []
    {
      lastBySlot, staleCycles, history := map[], map[], [];
    }

    method MaterializeSnapshot(devices: seq<RawDevice>) returns (p: Published)
      requires Valid()
      modifies this
      ensures Valid() && history == old(history) + [Snapshot(devices)]
      ensures Publishes(p, Cache(lastBySlot, staleCycles), Active(devices))
    {
      RunEnds(history, Snapshot(devices));
      var observed, active := Survey(devices);
      var combined, next := TakeActive(observed, active);
      combined, next := CarryOver(observed, active, combined, next);
      SoundAndComplete(Cache(lastBySlot, staleCycles), devices, combined, next);
      var shown := Present(Cache(combined, next));
      var candidates := BuildZoneCandidates(active);
      lastBySlot, staleCycles := combined, next;
      history := history + [Snapshot(devices)];
      p := Published(shown, candidates);
    }

    method TakeActive(observed: map<Slot, Device>, active: map<Slot, Device>)
      returns (combined: map<Slot, Device>, next: map<Slot, nat>)
      ensures Sound(Cache(lastBySlot, staleCycles), observed, active, combined, next) && combined.Keys == active.Keys
    {
      ghost var c := Cache(lastBySlot, staleCycles);
      combined, next := map[], map[];
      var todo := active.Keys;
      while todo != {}
        invariant todo <= active.Keys
        invariant forall slot :: slot in combined <==> slot in active && slot !in todo
        invariant Sound(c, observed, active, combined, next)
        decreases |todo|
      {
        var slot :| slot in todo;
        SoundGrows(c, observed, active, combined, next, slot);
        var named := Named(slot, active[slot]);
        assert named == KeptDevice(c, observed, active, slot) && KeptStale(c, active, slot) == 0;
        combined, next := combined[slot := named], next[slot := 0];
        todo := todo - {slot};
      }
    }

    /** The loop over the devices of the last snapshot that are not active in this one. */
    method CarryOver(observed: map<Slot, Device>, active: map<Slot, Device>, current: map<Slot, Device>,
                     cycles: map<Slot, nat>)
      returns (combined: map<Slot, Device>, next: map<Slot, nat>)
      requires Sound(Cache(lastBySlot, staleCycles), observed, active, current, cycles) && current.Keys == active.Keys
      ensures Sound(Cache(lastBySlot, staleCycles), observed, active, combined, next)
      ensures combined.Keys == Kept(Cache(lastBySlot, staleCycles), active)
    {
      combined, next := current, cycles;
      var todo := lastBySlot.Keys;
      while todo != {}
        invariant todo <= lastBySlot.Keys && active.Keys <= combined.Keys
        invariant Sound(Cache(lastBySlot, staleCycles), observed, active, combined, next)
        invariant Kept(Cache(lastBySlot, staleCycles), active) - todo <= combined.Keys
        decreases |todo|
      {
        var slot :| slot in todo;
        todo := todo - {slot};
        if slot !in combined {
          var stale := (if slot in staleCycles then staleCycles[slot] else 0) + 1;
          if stale <= GRACE_CYCLES {
            SoundGrows(Cache(lastBySlot, staleCycles), observed, active, combined, next, slot);
            combined := combined[slot := Carry(slot, lastBySlot[slot], observed)];
            next := next[slot := stale];
          }
        }
      }
    }

    /** A poll; a failed one leaves the cache and what the framework last published as they were. */
    method Refresh(r: Response) returns (p: Option<Published>)
      requires Valid()
      modifies this
      ensures Valid() && history == old(history) + [Received(r)]
      ensures r.Devices? ==> p.Some? && Publishes(p.value, Cache(lastBySlot, staleCycles), Active(r.devices))
      ensures r.NoDevices? ==> p == Some(Published([], map[]))
      ensures r.ReadFailed? ==> p.None? && lastBySlot == old(lastBySlot) && staleCycles == old(staleCycles)
    {
      RunEnds(history, Received(r));
      match r {
        case Devices(devices) =>
          var published := MaterializeSnapshot(devices);
          p := Some(published);
        case NoDevices =>
          lastBySlot, staleCycles := map[], map[];
          history := history + [Unusable];
          p := Some(Published([], map[]));
        case ReadFailed =>
          history := history + [Failure];
          p := None;
      }
    }
  }
}

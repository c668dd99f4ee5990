/**
 * Planning which legacy entities become shared targets: every request is judged on its own, and then
 * every participant in a collision is rejected, whatever the order.
 */
module MigrationPlan {
  import opened Prelude
  import opened Distinctness

  /** The typed value of a dimension; only the text arm is ever looked into. */
  datatype Arm = TextArm(text: string) | OtherArm(kind: string, content: string)

  datatype Dimension = Dimension(id: string, value: Arm)

  datatype Key = Key(packId: string, packVersion: string, factId: string, dimensions: seq<Dimension>)

  datatype OldKey = OldKey(factId: string, kind: string, value: string)

  datatype Descriptor = Descriptor(oldKey: OldKey, uniqueId: string)

  datatype Metadata = Metadata(nativeUnit: string, deviceClass: Option<string>, stateClass: string)

  datatype Identifier = Identifier(domain: string, name: string)

  datatype Record = Record(
    entryId: string, assetRef: string, uniqueId: string, entityId: string, deviceId: string,
    deviceIdentifier: Identifier, metadata: Metadata, semanticKey: Option<Key>)

  /** A request whose mappings lack a field, or have one too many or of the wrong type, is misshapen. */
  datatype Request = Misshapen(reason: string) | Request(entryId: string, assetRef: string, key: Key)

  datatype Family = Pv | Storage

  function FamilyName(family: Family): string { if family.Pv? then "pv" else "storage" }

  /** What one call is given; `digest` is the SHA-256 of the configured asset in hexadecimal. */
  datatype Setup = Setup(
    entryId: string, asset: string, digest: string, family: Family, descriptors: seq<Descriptor>, records: seq<Record>)

  datatype Row = Row(
    factId: string, dimension: string, oldFact: string, oldKind: string, unit: string, deviceClass: Option<string>)

  function Rows(family: Family): seq<Row> {
    match family
    case Pv => [
      Row("pv.ac.voltage", "phase", "pv.ac.voltage.line_to_neutral", "phase", "V", Some("voltage")),
      Row("pv.ac.current", "phase", "pv.ac.current", "phase", "A", Some("current")),
      Row("pv.ac.frequency", "inverter", "pv.ac.frequency", "scope", "Hz", Some("frequency")),
      Row("pv.ac.aggregate_active_power", "inverter", "pv.ac.power.active", "scope", "W", Some("power"))]
    case Storage => [
      Row("storage.state.soc", "pack", "storage.state.soc", "pack", "%", None),
      Row("storage.pack.voltage", "pack", "storage.pack.voltage", "pack", "V", Some("voltage")),
      Row("storage.temperature.pack", "pack", "storage.temperature.pack", "pack", "\U{B0}C", Some("temperature"))]
  }

  const WITHHELD := {
    "pv.energy.generated", "pv.temperature.inverter", "pv.status.operating", "storage.pack.current",
    "storage.capacity.charge", "storage.capacity.discharge", "storage.status.operating" }

  function FindRow(rows: seq<Row>, factId: string): Option<Row> {
    if rows == [] then None
    else if rows[0].factId == factId then Some(rows[0])
    else FindRow(rows[1..], factId)
  }

  datatype Result<T> = Ok(value: T) | Refused(reason: string)

  datatype Expectation = Expectation(oldKey: OldKey, metadata: Metadata)

  /** The shape of a request's key: one dimension, holding text. */
  function KeyFault(key: Key): Option<string> {
    if key.packId == "" || key.packVersion == "" || key.factId == "" then Some("expected nonempty text")
    else if |key.dimensions| != 1 then Some("expected exactly one dimension")
    else if key.dimensions[0].id == "" then Some("expected nonempty text")
    else if !key.dimensions[0].value.TextArm? then Some("expected text dimension")
    else if key.dimensions[0].value.text == "" then Some("expected nonempty text")
    else None
  }

  function OldValue(family: Family, asset: string, row: Row, text: string): Result<string> {
    if row.dimension == "phase" then
      if text in {"phase:L1", "phase:L2", "phase:L3"} then Ok(text[6..]) else Refused("unmapped phase")
    else if text != (if family.Storage? then asset else "inverter") then
      Refused("unmapped singleton")
    else
      Ok(if family.Storage? then asset else "total")
  }

  /** The legacy identity and metadata that the saved descriptor of a key must have. */
  function Expected(family: Family, asset: string, key: Key): Result<Expectation>
    requires KeyFault(key).None?
  {
    if key.packId != "helianthus.pack." + FamilyName(family)
       || key.packVersion != (if family.Pv? then "1.0.0" else "1.1.0") then Refused("pack mismatch")
    else if key.factId in WITHHELD then Refused("withheld row")
    else
      var found := FindRow(Rows(family), key.factId);
      if found.None? then Refused("outside candidate rows")
      else
        var row, dim := found.value, key.dimensions[0];
        if dim.id != FamilyName(family) + ".dimension." + row.dimension then Refused("dimension mismatch")
        else match OldValue(family, asset, row, dim.value.text)
          case Refused(reason) => Refused(reason)
          case Ok(value) =>
            Ok(Expectation(OldKey(row.oldFact, row.oldKind, value), Metadata(row.unit, row.deviceClass, "measurement")))
  }

  lemma {:induction false} FoundRow(rows: seq<Row>, factId: string)
    ensures FindRow(rows, factId).Some? ==>
      FindRow(rows, factId).value in rows && FindRow(rows, factId).value.factId == factId
  {
    if rows != [] && rows[0].factId != factId { FoundRow(rows[1..], factId); }
  }

  lemma OldFactsDiffer(family: Family, i: nat, j: nat)
    requires i < |Rows(family)| && j < |Rows(family)| && Rows(family)[i].oldFact == Rows(family)[j].oldFact
    ensures i == j
  {
  }

  lemma OldValueIsInjective(family: Family, asset: string, row: Row, s: string, t: string)
    requires OldValue(family, asset, row, s).Ok? && OldValue(family, asset, row, s) == OldValue(family, asset, row, t)
    ensures s == t
  {
    if row.dimension == "phase" {
      assert s == "phase:" + s[6..] && t == "phase:" + t[6..];
    }
  }

  lemma RowOf(family: Family, asset: string, key: Key) returns (i: nat)
    requires KeyFault(key).None? && Expected(family, asset, key).Ok?
    ensures
      var rows, expected := Rows(family), Expected(family, asset, key).value;
      && i < |rows| && rows[i].factId == key.factId && rows[i].oldFact == expected.oldKey.factId
      && key.dimensions[0].id == FamilyName(family) + ".dimension." + rows[i].dimension
      && OldValue(family, asset, rows[i], key.dimensions[0].value.text) == Ok(expected.oldKey.value)
      && expected == RowExpects(rows[i], expected.oldKey.value)
  {
    FoundRow(Rows(family), key.factId);
    i :| 0 <= i < |Rows(family)| && Rows(family)[i] == FindRow(Rows(family), key.factId).value;
  }

  /** The text that stands for a legacy value: a phase, or the one thing that has no phases. */
  predicate StandsFor(family: Family, asset: string, dimension: string, text: string, value: string) {
    if dimension == "phase" then value in {"L1", "L2", "L3"} && text == "phase:" + value
    else if family.Storage? then text == value == asset
    else text == "inverter" && value == "total"
  }

  lemma OldValueIff(family: Family, asset: string, row: Row, text: string, value: string)
    ensures OldValue(family, asset, row, text) == Ok(value) <==> StandsFor(family, asset, row.dimension, text, value)
  {
    forall v
      ensures ("phase:" + v)[6..] == v
    {
    }
    assert "phase:" + "L1" == "phase:L1" && "phase:" + "L2" == "phase:L2" && "phase:" + "L3" == "phase:L3";
  }

  /** The key of a row, and the legacy value that its text stands for. */
  predicate KeyOfRow(family: Family, asset: string, row: Row, key: Key, value: string) {
    && key.packId == (if family.Pv? then "helianthus.pack.pv" else "helianthus.pack.storage")
    && key.packVersion == (if family.Pv? then "1.0.0" else "1.1.0")
    && key.factId == row.factId && |key.dimensions| == 1
    && key.dimensions[0].id == (if family.Pv? then "pv.dimension." else "storage.dimension.") + row.dimension
    && key.dimensions[0].value.TextArm?
    && StandsFor(family, asset, row.dimension, key.dimensions[0].value.text, value)
  }

  function RowExpects(row: Row, value: string): Expectation {
    Expectation(OldKey(row.oldFact, row.oldKind, value), Metadata(row.unit, row.deviceClass, "measurement"))
  }

  lemma FactsDiffer(family: Family)
    ensures forall i, j :: 0 <= i < j < |Rows(family)| ==> Rows(family)[i].factId != Rows(family)[j].factId
    ensures forall i | 0 <= i < |Rows(family)| :: Rows(family)[i].factId !in WITHHELD
  {
  }

  lemma {:induction false} RowIsFound(rows: seq<Row>, i: nat)
    requires i < |rows| && forall j | 0 <= j < i :: rows[j].factId != rows[i].factId
    ensures FindRow(rows, rows[i].factId) == Some(rows[i])
  {
    if i > 0 {
      assert rows[0].factId != rows[i].factId;
      assert forall j | 0 <= j < i - 1 :: rows[1..][j] == rows[j + 1];
      RowIsFound(rows[1..], i - 1);
    }
  }

  lemma PackNames(family: Family)
    ensures "helianthus.pack." + FamilyName(family) == (if family.Pv? then "helianthus.pack.pv" else "helianthus.pack.storage")
    ensures FamilyName(family) + ".dimension." == (if family.Pv? then "pv.dimension." else "storage.dimension.")
  {
  }

  /** The key of a row has that row's legacy identity, with its metadata. */
  lemma RowsAreExpected(family: Family, asset: string, i: nat, key: Key, value: string)
    requires KeyFault(key).None? && i < |Rows(family)| && KeyOfRow(family, asset, Rows(family)[i], key, value)
    ensures Expected(family, asset, key) == Ok(RowExpects(Rows(family)[i], value))
  {
    FactsDiffer(family);
    RowIsFound(Rows(family), i);
    PackNames(family);
    OldValueIff(family, asset, Rows(family)[i], key.dimensions[0].value.text, value);
  }

  /** And any key that has a legacy identity is that of a row. */
  lemma ExpectedIsOfARow(family: Family, asset: string, key: Key) returns (i: nat)
    requires KeyFault(key).None? && Expected(family, asset, key).Ok?
    ensures
      var e := Expected(family, asset, key).value;
      i < |Rows(family)| && KeyOfRow(family, asset, Rows(family)[i], key, e.oldKey.value)
      && e == RowExpects(Rows(family)[i], e.oldKey.value)
  {
    i := RowOf(family, asset, key);
    PackNames(family);
    var e := Expected(family, asset, key).value;
    OldValueIff(family, asset, Rows(family)[i], key.dimensions[0].value.text, e.oldKey.value);
  }

  /** `e` is what the `i`th row makes of the key. */
  predicate ExpectedOf(family: Family, asset: string, i: nat, key: Key, e: Expectation) {
    && i < |Rows(family)| && KeyOfRow(family, asset, Rows(family)[i], key, e.oldKey.value)
    && e == RowExpects(Rows(family)[i], e.oldKey.value)
  }

  /** A key has a legacy identity exactly if it is the key of a row, and then it is that row's, with its metadata. */
  lemma ExpectedIff(family: Family, asset: string, key: Key, e: Expectation)
    requires KeyFault(key).None?
    ensures Expected(family, asset, key) == Ok(e) <==> exists i: nat :: ExpectedOf(family, asset, i, key, e)
  {
    if Expected(family, asset, key) == Ok(e) {
      var i := ExpectedIsOfARow(family, asset, key);
      assert ExpectedOf(family, asset, i, key, e);
    }
    if i: nat :| ExpectedOf(family, asset, i, key, e) { RowsAreExpected(family, asset, i, key, e.oldKey.value); }
  }

  /** Within a family the legacy identity determines the key. */
  lemma ExpectedIsInjective(family: Family, asset: string, a: Key, b: Key)
    requires KeyFault(a).None? && KeyFault(b).None?
    requires Expected(family, asset, a).Ok? && Expected(family, asset, b).Ok?
    requires Expected(family, asset, a).value.oldKey == Expected(family, asset, b).value.oldKey
    ensures a == b
  {
    var i := RowOf(family, asset, a);
    var j := RowOf(family, asset, b);
    OldFactsDiffer(family, i, j);
    var s, t := a.dimensions[0].value.text, b.dimensions[0].value.text;
    OldValueIsInjective(family, asset, Rows(family)[i], s, t);
    assert a.dimensions == [Dimension(a.dimensions[0].id, TextArm(s))];
    assert b.dimensions == [Dimension(b.dimensions[0].id, TextArm(t))];
  }

  // ---- one request on its own ----

  datatype Proposal = Proposal(entryId: string, asset: string, key: Key, descriptor: Descriptor, record: Record)

  function WithOldKey(oldKey: OldKey): Descriptor -> bool { (d: Descriptor) => d.oldKey == oldKey }

  function WithSavedId(uid: string): Descriptor -> bool { (d: Descriptor) => d.uniqueId == uid }

  function WithUniqueId(uid: string): Record -> bool { (r: Record) => r.uniqueId == uid }

  function WithEntityId(id: string): Record -> bool { (r: Record) => r.entityId == id }

  function AssetIdentifier(setup: Setup): Identifier {
    Identifier("helianthus", setup.entryId + "-" + FamilyName(setup.family) + "-asset-" + setup.digest)
  }

  predicate DeviceConflict(setup: Setup, record: Record) {
    exists r | r in setup.records ::
      || (r.deviceId == record.deviceId && r.deviceIdentifier != AssetIdentifier(setup))
      || (r.deviceIdentifier == AssetIdentifier(setup) && r.deviceId != record.deviceId)
  }

  predicate TargetTaken(setup: Setup, key: Key) {
    exists r | r in setup.records :: r.entryId == setup.entryId && r.assetRef == setup.asset && r.semanticKey == Some(key)
  }

  function CheckRecord(setup: Setup, key: Key, metadata: Metadata, d: Descriptor, r: Record): Result<Proposal> {
    if r.entryId != setup.entryId || r.assetRef != setup.asset || r.deviceIdentifier != AssetIdentifier(setup)
       || r.metadata != metadata || r.semanticKey.Some? then Refused("registry identity or metadata mismatch")
    else if |Filter(WithEntityId(r.entityId), setup.records)| != 1 then Refused("entity ID collision")
    else if DeviceConflict(setup, r) then Refused("device registry conflict")
    else if TargetTaken(setup, key) then Refused("shared target collision")
    else Ok(Proposal(setup.entryId, setup.asset, key, d, r))
  }

  function CheckDescriptor(setup: Setup, key: Key, metadata: Metadata, d: Descriptor): Result<Proposal> {
    var uid := d.uniqueId;
    if !(setup.entryId + "-" + FamilyName(setup.family) + "-" <= uid) then Refused("saved ID entry mismatch")
    else if |Filter(WithSavedId(uid), setup.descriptors)| != 1 then Refused("saved ID collision")
    else
      var found := Filter(WithUniqueId(uid), setup.records);
      if |found| != 1 then Refused("missing or colliding registry ID")
      else CheckRecord(setup, key, metadata, d, found[0])
  }

  /** What the first pass makes of a request. */
  function Judge(setup: Setup, request: Request): Result<Proposal> {
    match request
    case Misshapen(reason) => Refused(reason)
    case Request(entryId, assetRef, key) =>
      if entryId != setup.entryId || assetRef != setup.asset then Refused("entry or asset mismatch")
      else if KeyFault(key).Some? then Refused(KeyFault(key).value)
      else
        match Expected(setup.family, setup.asset, key)
        case Refused(reason) => Refused(reason)
        case Ok(expected) =>
          var matches := Filter(WithOldKey(expected.oldKey), setup.descriptors);
          if |matches| != 1 then Refused("missing or ambiguous saved descriptor")
          else CheckDescriptor(setup, key, expected.metadata, matches[0])
  }

  /** Everything that a staged proposal is known to satisfy. */
  ghost predicate Fits(setup: Setup, request: Request, p: Proposal) {
    && request == Request(setup.entryId, setup.asset, p.key)
    && p.entryId == setup.entryId && p.asset == setup.asset
    && KeyFault(p.key).None? && Expected(setup.family, setup.asset, p.key).Ok?
    && Expected(setup.family, setup.asset, p.key).value.oldKey == p.descriptor.oldKey
    && Expected(setup.family, setup.asset, p.key).value.metadata == p.record.metadata
    && Filter(WithOldKey(p.descriptor.oldKey), setup.descriptors) == [p.descriptor]
    && Filter(WithSavedId(p.descriptor.uniqueId), setup.descriptors) == [p.descriptor]
    && Filter(WithUniqueId(p.descriptor.uniqueId), setup.records) == [p.record]
    && Filter(WithEntityId(p.record.entityId), setup.records) == [p.record]
    && setup.entryId + "-" + FamilyName(setup.family) + "-" <= p.descriptor.uniqueId
    && p.record.entryId == setup.entryId && p.record.assetRef == setup.asset
    && p.record.deviceIdentifier == AssetIdentifier(setup)
    && (forall r | r in setup.records :: r.deviceId == p.record.deviceId <==> r.deviceIdentifier == AssetIdentifier(setup))
    && p.record.semanticKey.None?
    && (forall r | r in setup.records ::
          r.entryId == setup.entryId && r.assetRef == setup.asset ==> r.semanticKey != Some(p.key))
  }

  lemma StagedFits(setup: Setup, request: Request)
    requires Judge(setup, request).Ok?
    ensures Fits(setup, request, Judge(setup, request).value)
  {
    var p := Judge(setup, request).value;
    var expected := Expected(setup.family, setup.asset, request.key).value;
    var d := Filter(WithOldKey(expected.oldKey), setup.descriptors)[0];
    FilterMembers(WithOldKey(expected.oldKey), setup.descriptors);
    assert d in setup.descriptors && d.oldKey == expected.oldKey;
    OnlyOne(WithSavedId(d.uniqueId), setup.descriptors, d);
    var r := Filter(WithUniqueId(d.uniqueId), setup.records)[0];
    FilterMembers(WithUniqueId(d.uniqueId), setup.records);
    assert r in setup.records;
    OnlyOne(WithEntityId(r.entityId), setup.records, r);
    assert p == Proposal(setup.entryId, setup.asset, request.key, d, r);
  }

  /** A request is staged, as a proposal, exactly if that proposal fits it. */
  lemma StagedIff(setup: Setup, request: Request, p: Proposal)
    ensures Judge(setup, request) == Ok(p) <==> Fits(setup, request, p)
  {
    if Judge(setup, request) == Ok(p) { StagedFits(setup, request); }
    if Fits(setup, request, p) {
      var expected := Expected(setup.family, setup.asset, p.key).value;
      assert Filter(WithOldKey(expected.oldKey), setup.descriptors)[0] == p.descriptor;
      assert Filter(WithUniqueId(p.descriptor.uniqueId), setup.records)[0] == p.record;
      assert !DeviceConflict(setup, p.record) && !TargetTaken(setup, p.key);
      assert CheckRecord(setup, p.key, expected.metadata, p.descriptor, p.record) == Ok(p);
      assert CheckDescriptor(setup, p.key, expected.metadata, p.descriptor) == Ok(p);
    }
  }

  /** Among staged proposals, asking for the same key and owning the same saved id are the same thing. */
  lemma SameKeyIffSameSavedId(setup: Setup, one: Request, p: Proposal, other: Request, q: Proposal)
    requires Fits(setup, one, p) && Fits(setup, other, q)
    ensures p.key == q.key <==> p.descriptor.uniqueId == q.descriptor.uniqueId
    ensures p.key == q.key <==> p == q
    ensures p.key == q.key <==> p.record.entityId == q.record.entityId
    ensures p.key == q.key <==> one == other
  {
    if p.descriptor.uniqueId == q.descriptor.uniqueId {
      assert p.descriptor == [p.descriptor][0] == [q.descriptor][0];
      ExpectedIsInjective(setup.family, setup.asset, p.key, q.key);
    }
    if p.key == q.key {
      assert p.descriptor == [p.descriptor][0] == [q.descriptor][0];
      assert p.record == [p.record][0] == [q.record][0];
    }
    if p.record.entityId == q.record.entityId {
      assert p.record == [p.record][0] == [q.record][0];
      FilterMembers(WithUniqueId(p.descriptor.uniqueId), setup.records);
      FilterMembers(WithUniqueId(q.descriptor.uniqueId), setup.records);
      assert p.record in [p.record] && q.record in [q.record];
    }
  }

  // ---- all requests together ----

  datatype Rejection = Rejection(index: nat, reason: string)

  datatype Staged = Staged(index: nat, proposal: Proposal)

  predicate Clash(p: Proposal, q: Proposal) { p.key == q.key || p.descriptor.uniqueId == q.descriptor.uniqueId }

  predicate Collides(judged: seq<Result<Proposal>>, i: nat)
    requires i < |judged| && judged[i].Ok?
  {
    exists j | 0 <= j < |judged| ::
      j != i && judged[j].Ok? && Clash(judged[j].value, judged[i].value)
  }

  /** What becomes of request `i`, said without any order among the requests. */
  function Outcome(judged: seq<Result<Proposal>>, i: nat): Result<Proposal>
    requires i < |judged|
  {
    var own := judged[i];
    if own.Ok? && Collides(judged, i) then Refused("proposal collision") else own
  }

  function Proposed(judged: seq<Result<Proposal>>, n: nat): seq<Proposal>
    requires n <= |judged|
  {
    if n == 0 then []
    else
      var outcome := Outcome(judged, n - 1);
      Proposed(judged, n - 1) + if outcome.Ok? then [outcome.value] else []
  }

  function Rejected(judged: seq<Result<Proposal>>, n: nat): seq<Rejection>
    requires n <= |judged|
  {
    if n == 0 then []
    else
      var outcome := Outcome(judged, n - 1);
      Rejected(judged, n - 1) + if outcome.Ok? then [] else [Rejection(n - 1, outcome.reason)]
  }

  // ---- the two passes of the source ----

  function FirstPass(judged: seq<Result<Proposal>>, n: nat): seq<Staged>
    requires n <= |judged|
  {
    if n == 0 then []
    else
      var last := judged[n - 1];
      FirstPass(judged, n - 1) + if last.Ok? then [Staged(n - 1, last.value)] else []
  }

  function FirstRejections(judged: seq<Result<Proposal>>, n: nat): seq<Rejection>
    requires n <= |judged|
  {
    if n == 0 then []
    else
      var last := judged[n - 1];
      FirstRejections(judged, n - 1) + if last.Ok? then [] else [Rejection(n - 1, last.reason)]
  }

  predicate InCollision(all: seq<Staged>, s: Staged) {
    exists other | other in all :: other.index != s.index && Clash(other.proposal, s.proposal)
  }

  function SecondProposed(all: seq<Staged>, some: seq<Staged>): seq<Proposal> {
    if some == [] then []
    else
      var front, last := some[..|some| - 1], some[|some| - 1];
      SecondProposed(all, front) + if InCollision(all, last) then [] else [last.proposal]
  }

  function SecondRejections(all: seq<Staged>, some: seq<Staged>): seq<Rejection> {
    if some == [] then []
    else
      var front, last := some[..|some| - 1], some[|some| - 1];
      SecondRejections(all, front) + if InCollision(all, last) then [Rejection(last.index, "proposal collision")] else []
  }

  lemma {:induction false} StagedAre(judged: seq<Result<Proposal>>, n: nat)
    requires n <= |judged|
    ensures forall s :: s in FirstPass(judged, n) <==>
                        s.index < n && judged[s.index] == Ok(s.proposal)
  {
    if n > 0 { StagedAre(judged, n - 1); }
  }

  lemma CollisionSeen(judged: seq<Result<Proposal>>, i: nat)
    requires i < |judged| && judged[i].Ok?
    ensures InCollision(FirstPass(judged, |judged|), Staged(i, judged[i].value))
      <==> Collides(judged, i)
  {
    var all := FirstPass(judged, |judged|);
    StagedAre(judged, |judged|);
    if Collides(judged, i) {
      var j :| 0 <= j < |judged| && j != i && judged[j].Ok?
        && Clash(judged[j].value, judged[i].value);
      assert Staged(j, judged[j].value) in all;
    }
  }

  lemma SecondPassGrows(all: seq<Staged>, some: seq<Staged>, s: Staged)
    ensures SecondProposed(all, some + [s])
      == SecondProposed(all, some) + if InCollision(all, s) then [] else [s.proposal]
    ensures SecondRejections(all, some + [s])
      == SecondRejections(all, some) + if InCollision(all, s) then [Rejection(s.index, "proposal collision")] else []
  {
    assert (some + [s])[..|some|] == some;
  }

  lemma {:induction false} SecondPassProposes(judged: seq<Result<Proposal>>, n: nat)
    requires n <= |judged|
    ensures SecondProposed(FirstPass(judged, |judged|), FirstPass(judged, n)) == Proposed(judged, n)
  {
    if n > 0 {
      SecondPassProposes(judged, n - 1);
      if judged[n - 1].Ok? {
        var all, before := FirstPass(judged, |judged|), FirstPass(judged, n - 1);
        SecondPassGrows(all, before, Staged(n - 1, judged[n - 1].value));
        CollisionSeen(judged, n - 1);
      } else {
        assert FirstPass(judged, n) == FirstPass(judged, n - 1);
      }
    }
  }

  lemma {:induction false} FirstRejectedAre(judged: seq<Result<Proposal>>, n: nat, r: Rejection)
    requires n <= |judged|
    ensures r in FirstRejections(judged, n) <==> r.index < n && judged[r.index] == Refused(r.reason)
  {
    if n > 0 { FirstRejectedAre(judged, n - 1, r); }
  }

  lemma {:induction false} CollidersRejected(all: seq<Staged>, some: seq<Staged>, r: Rejection)
    ensures r in SecondRejections(all, some)
      <==> r.reason == "proposal collision" && exists x :: x in some && x.index == r.index && InCollision(all, x)
  {
    if some != [] {
      var front, last := some[..|some| - 1], some[|some| - 1];
      assert some == front + [last];
      CollidersRejected(all, front, r);
    }
  }

  lemma SecondRejectedAre(judged: seq<Result<Proposal>>, r: Rejection)
    ensures r in SecondRejections(FirstPass(judged, |judged|), FirstPass(judged, |judged|))
      <==> r.index < |judged| && judged[r.index].Ok? && Collides(judged, r.index) && r.reason == "proposal collision"
  {
    var all := FirstPass(judged, |judged|);
    CollidersRejected(all, all, r);
    StagedAre(judged, |judged|);
    if r.index < |judged| && judged[r.index].Ok? {
      CollisionSeen(judged, r.index);
      assert Staged(r.index, judged[r.index].value) in all;
    }
  }

  lemma {:induction false} RejectedAsJudged(judged: seq<Result<Proposal>>, n: nat, r: Rejection)
    requires n <= |judged|
    ensures r in Rejected(judged, n) <==> r.index < n && Outcome(judged, r.index) == Refused(r.reason)
  {
    if n > 0 { RejectedAsJudged(judged, n - 1, r); }
  }

  // ---- sorting the rejections by request ----

  predicate Ascending(s: seq<Rejection>) { forall i, j :: 0 <= i < j < |s| ==> s[i].index < s[j].index }

  predicate IndexesDiffer(s: seq<Rejection>) { forall i, j :: 0 <= i < j < |s| ==> s[i].index != s[j].index }

  lemma {:induction false} PassesAscend(judged: seq<Result<Proposal>>, n: nat)
    requires n <= |judged|
    ensures Ascending(FirstRejections(judged, n)) && Ascending(Rejected(judged, n))
    ensures forall r | r in FirstRejections(judged, n) || r in Rejected(judged, n) :: r.index < n
  {
    if n > 0 { PassesAscend(judged, n - 1); }
  }

  predicate StagedAscend(some: seq<Staged>) { forall i, j :: 0 <= i < j < |some| ==> some[i].index < some[j].index }

  lemma {:induction false} FirstPassAscends(judged: seq<Result<Proposal>>, n: nat)
    requires n <= |judged|
    ensures StagedAscend(FirstPass(judged, n)) && forall x | x in FirstPass(judged, n) :: x.index < n
  {
    if n > 0 { FirstPassAscends(judged, n - 1); }
  }

  lemma {:induction false} CollidersAscend(all: seq<Staged>, some: seq<Staged>)
    requires StagedAscend(some)
    ensures Ascending(SecondRejections(all, some))
  {
    if some != [] {
      var front, last := some[..|some| - 1], some[|some| - 1];
      CollidersAscend(all, front);
      forall r | r in SecondRejections(all, front)
        ensures r.index < last.index
      {
        CollidersRejected(all, front, r);
      }
    }
  }

  /** Both passes together reject each request at most once, and those that its outcome rejects. */
  lemma PassesReject(judged: seq<Result<Proposal>>)
    ensures
      var n := |judged|;
      var both := FirstRejections(judged, n) + SecondRejections(FirstPass(judged, n), FirstPass(judged, n));
      IndexesDiffer(both) && forall r :: r in both <==> r in Rejected(judged, n)
  {
    var n := |judged|;
    var a, b := FirstRejections(judged, n), SecondRejections(FirstPass(judged, n), FirstPass(judged, n));
    PassesAscend(judged, n);
    FirstPassAscends(judged, n);
    CollidersAscend(FirstPass(judged, n), FirstPass(judged, n));
    forall r
      ensures r in a <==> r.index < n && judged[r.index] == Refused(r.reason)
      ensures r in b <==> r.index < n && judged[r.index].Ok? && Outcome(judged, r.index) == Refused(r.reason)
      ensures r in a + b <==> r in Rejected(judged, n)
    {
      FirstRejectedAre(judged, n, r);
      SecondRejectedAre(judged, r);
      RejectedAsJudged(judged, n, r);
    }
    forall i, j | 0 <= i < j < |a + b|
      ensures (a + b)[i].index != (a + b)[j].index
    {
      if i < |a| <= j { assert a[i] in a && b[j - |a|] in b; }
    }
  }

  function Insert(r: Rejection, s: seq<Rejection>): seq<Rejection> {
    if s == [] || r.index <= s[0].index then [r] + s else [s[0]] + Insert(r, s[1..])
  }

  function SortByIndex(s: seq<Rejection>): seq<Rejection> {
    if s == [] then [] else Insert(s[0], SortByIndex(s[1..]))
  }

  lemma {:induction false} InsertKeepsOrder(r: Rejection, s: seq<Rejection>)
    requires Ascending(s) && forall x | x in s :: x.index != r.index
    ensures Ascending(Insert(r, s))
    ensures forall x :: x in Insert(r, s) <==> x == r || x in s
  {
    if s != [] && s[0].index < r.index {
      InsertKeepsOrder(r, s[1..]);
      var rest := Insert(r, s[1..]);
      assert s == [s[0]] + s[1..];
      forall i | 0 <= i < |rest|
        ensures s[0].index < rest[i].index
      {
        assert rest[i] in rest;
      }
    }
  }

  lemma {:induction false} SortByIndexSorts(s: seq<Rejection>)
    requires IndexesDiffer(s)
    ensures Ascending(SortByIndex(s)) && forall x :: x in SortByIndex(s) <==> x in s
  {
    if s != [] {
      SortByIndexSorts(s[1..]);
      assert s == [s[0]] + s[1..];
      InsertKeepsOrder(s[0], SortByIndex(s[1..]));
    }
  }

  lemma RestOfSorted(s: seq<Rejection>, x: Rejection)
    requires s != [] && Ascending(s)
    ensures x in s[1..] <==> x in s && x != s[0]
  {
    assert s == [s[0]] + s[1..];
  }

  lemma {:induction false} SortedIsUnique(s: seq<Rejection>, t: seq<Rejection>)
    requires Ascending(s) && Ascending(t) && forall x :: x in s <==> x in t
    ensures s == t
  {
    if s != [] { assert s[0] in t; }
    if t != [] { assert t[0] in s; }
    if s != [] {
      assert s[0] == t[0];
      forall x
        ensures x in s[1..] <==> x in t[1..]
      {
        RestOfSorted(s, x);
        RestOfSorted(t, x);
      }
      SortedIsUnique(s[1..], t[1..]);
    }
  }

  // ---- the plan ----

  predicate ReservationValid(key: Key) {
    && key.packId != "" && key.packVersion != "" && key.factId != ""
    && forall i | 0 <= i < |key.dimensions| ::
         key.dimensions[i].id != "" && forall j | 0 <= j < i :: key.dimensions[j].id != key.dimensions[i].id
  }

  predicate SetupValid(setup: Setup) {
    && setup.entryId != "" && setup.asset != ""
    && (forall d | d in setup.descriptors ::
          d.oldKey.factId != "" && d.oldKey.kind != "" && d.oldKey.value != "" && d.uniqueId != "")
    && (forall r | r in setup.records ::
          && r.entryId != "" && r.assetRef != "" && r.uniqueId != "" && r.entityId != "" && r.deviceId != ""
          && r.deviceIdentifier.domain != "" && r.deviceIdentifier.name != ""
          && (r.semanticKey.Some? ==> ReservationValid(r.semanticKey.value)))
  }

  function Judged(setup: Setup, requests: seq<Request>): seq<Result<Proposal>> {
    seq(|requests|, i requires 0 <= i < |requests| => Judge(setup, requests[i]))
  }

  const INVALID := "invalid inventory or configuration"

  method RejectAll(requests: seq<Request>) returns (rejected: seq<Rejection>)
    ensures rejected == seq(|requests|, i requires 0 <= i < |requests| => Rejection(i, INVALID))
  {
    rejected := [];
    for i := 0 to |requests|
      invariant |rejected| == i && forall k :: 0 <= k < i ==> rejected[k] == Rejection(k, INVALID)
    {
      rejected := rejected + [Rejection(i, INVALID)];
    }
  }

  method Stage(setup: Setup, requests: seq<Request>) returns (staged: seq<Staged>, rejected: seq<Rejection>)
    ensures staged == FirstPass(Judged(setup, requests), |requests|)
    ensures rejected == FirstRejections(Judged(setup, requests), |requests|)
  {
    staged, rejected := [], [];
    ghost var all := Judged(setup, requests);
    for index := 0 to |requests|
      invariant staged == FirstPass(all, index)
      invariant rejected == FirstRejections(all, index)
    {
      var judged := Judge(setup, requests[index]);
      assert all[index] == judged;
      if judged.Ok? {
        staged := staged + [Staged(index, judged.value)];
      } else {
        rejected := rejected + [Rejection(index, judged.reason)];
      }
    }
  }

  method RejectCollisions(staged: seq<Staged>, first: seq<Rejection>)
    returns (proposed: seq<Proposal>, rejected: seq<Rejection>)
    ensures proposed == SecondProposed(staged, staged)
    ensures rejected == first + SecondRejections(staged, staged)
  {
    proposed, rejected := [], first;
    for k := 0 to |staged|
      invariant proposed == SecondProposed(staged, staged[..k])
      invariant rejected == first + SecondRejections(staged, staged[..k])
    {
      assert staged[..k + 1] == staged[..k] + [staged[k]];
      SecondPassGrows(staged, staged[..k], staged[k]);
      if InCollision(staged, staged[k]) {
        rejected := rejected + [Rejection(staged[k].index, "proposal collision")];
      } else {
        proposed := proposed + [staged[k].proposal];
      }
    }
    assert staged[..|staged|] == staged;
  }

  /** `given` is None for an unsupported family or an inventory of misshapen mappings. */
  method BuildMigrationPlan(given: Option<Setup>, requests: seq<Request>)
    returns (proposed: seq<Proposal>, rejected: seq<Rejection>)
    ensures given.Some? && SetupValid(given.value) ==>
      && proposed == Proposed(Judged(given.value, requests), |requests|)
      && rejected == Rejected(Judged(given.value, requests), |requests|)
    ensures given.None? || !SetupValid(given.value) ==>
      proposed == [] && rejected == seq(|requests|, i requires 0 <= i < |requests| => Rejection(i, INVALID))
  {
    if given.None? || !SetupValid(given.value) {
      proposed := [];
      rejected := RejectAll(requests);
      return;
    }
    var staged;
    staged, rejected := Stage(given.value, requests);
    proposed, rejected := RejectCollisions(staged, rejected);
    ghost var all := Judged(given.value, requests);
    SecondPassProposes(all, |requests|);
    PassesReject(all);
    SortByIndexSorts(rejected);
    PassesAscend(all, |requests|);
    SortedIsUnique(SortByIndex(rejected), Rejected(all, |requests|));
    rejected := SortByIndex(rejected);
  }

  // ---- what the plan guarantees ----

  /** Every request ends in exactly one of the two lists, as its outcome says. */
  lemma {:induction false} EveryRequestAccounted(judged: seq<Result<Proposal>>, n: nat)
    requires n <= |judged|
    ensures |Proposed(judged, n)| + |Rejected(judged, n)| == n
  {
    if n > 0 { EveryRequestAccounted(judged, n - 1); }
  }

  lemma {:induction false} ProposedAsJudged(judged: seq<Result<Proposal>>, n: nat, p: Proposal)
    requires n <= |judged|
    ensures p in Proposed(judged, n) <==> exists i :: 0 <= i < n && Outcome(judged, i) == Ok(p)
  {
    if n > 0 {
      ProposedAsJudged(judged, n - 1, p);
      assert p in Proposed(judged, n) <==> p in Proposed(judged, n - 1) || Outcome(judged, n - 1) == Ok(p);
    }
  }

  /** A staged request collides iff the very same request was made more than once. */
  lemma CollidesIffRepeated(setup: Setup, requests: seq<Request>, i: nat)
    requires i < |requests| && Judge(setup, requests[i]).Ok?
    ensures Collides(Judged(setup, requests), i)
      <==> exists j :: 0 <= j < |requests| && j != i && requests[j] == requests[i]
  {
    var judged := Judged(setup, requests);
    StagedFits(setup, requests[i]);
    forall j | 0 <= j < |requests| && judged[j].Ok?
      ensures Clash(judged[j].value, judged[i].value) <==> requests[j] == requests[i]
    {
      StagedFits(setup, requests[j]);
      SameKeyIffSameSavedId(setup, requests[j], judged[j].value, requests[i], judged[i].value);
    }
    forall j | 0 <= j < |requests| && requests[j] == requests[i]
      ensures judged[j] == judged[i]
    {
    }
  }

  /** Permuting the requests permutes their outcomes. */
  lemma OrderDoesNotMatter(setup: Setup, requests: seq<Request>, permuted: seq<Request>, from: seq<nat>, i: nat)
    requires |permuted| == |requests| == |from| && Distinct(from)
    requires forall k :: 0 <= k < |from| ==> from[k] < |requests| && permuted[k] == requests[from[k]]
    requires i < |permuted|
    ensures Outcome(Judged(setup, permuted), i) == Outcome(Judged(setup, requests), from[i])
  {
    var judged, other := Judged(setup, permuted), Judged(setup, requests);
    assert forall k :: 0 <= k < |from| ==> judged[k] == other[from[k]];
    PermutedOutcome(judged, other, from, i);
  }

  lemma PermutedOutcome(judged: seq<Result<Proposal>>, other: seq<Result<Proposal>>, from: seq<nat>, i: nat)
    requires |judged| == |other| == |from| && Distinct(from)
    requires forall k :: 0 <= k < |from| ==> from[k] < |other| && judged[k] == other[from[k]]
    requires i < |judged|
    ensures Outcome(judged, i) == Outcome(other, from[i])
  {
    if judged[i].Ok? {
      if Collides(judged, i) {
        var j :| 0 <= j < |judged| && j != i && judged[j].Ok? && Clash(judged[j].value, judged[i].value);
        assert from[j] != from[i] && other[from[j]].Ok? && Clash(other[from[j]].value, other[from[i]].value);
      }
      if Collides(other, from[i]) {
        var k :| 0 <= k < |other| && k != from[i] && other[k].Ok? && Clash(other[k].value, other[from[i]].value);
        var j := PlaceOf(from, k);
        assert judged[j].Ok? && Clash(judged[j].value, judged[i].value);
      }
    }
  }

  /** A sequence of n distinct numbers below n takes every value. */
  lemma PlaceOf(from: seq<nat>, k: nat) returns (j: nat)
    requires Distinct(from) && k < |from| && forall i :: 0 <= i < |from| ==> from[i] < |from|
    ensures j < |from| && from[j] == k
  {
    var all := seq(|from|, i => i);
    forall x | x in from
      ensures x in all
    {
      assert all[x] == x;
    }
    Pigeonhole(from, all);
    assert all[k] == k && k in multiset(all);
    assert k in multiset(from);
    j :| 0 <= j < |from| && from[j] == k;
  }

  /** No two proposals share a key, a saved id, a registry record or an entity. */
  lemma ProposalsDiffer(setup: Setup, requests: seq<Request>, i: nat, j: nat)
    requires i < j < |requests|
    requires Outcome(Judged(setup, requests), i).Ok? && Outcome(Judged(setup, requests), j).Ok?
    ensures
      var p, q := Outcome(Judged(setup, requests), i).value, Outcome(Judged(setup, requests), j).value;
      && p.key != q.key && p.descriptor.uniqueId != q.descriptor.uniqueId
      && p.record.entityId != q.record.entityId && p.record != q.record
  {
    var judged := Judged(setup, requests);
    StagedFits(setup, requests[i]);
    StagedFits(setup, requests[j]);
    SameKeyIffSameSavedId(setup, requests[i], judged[i].value, requests[j], judged[j].value);
    assert !Clash(judged[j].value, judged[i].value);
  }
}

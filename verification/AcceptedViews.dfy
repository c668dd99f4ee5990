/**
 * Views that are accepted, and what a sensor makes of them: assets with one source, binding, service and
 * capability, and any facts of one kind, whose single candidates are all accounted for.
 */
module AcceptedViews {
  import opened Prelude
  import opened Distinctness
  import opened DecimalText
  import opened AssetAccounting
  import opened SensorReading
  import D = SchemaDecoder

  /** Who is who; `revisions` and `context` stand for their records. */
  datatype Names = Names(
    assetId: string, source: Source, generation: string, bindingId: string, serviceId: string, capabilityId: string,
    definitionId: string, snapshotId: string, revisions: D.Value, context: D.Value, digest: string)

  /** What is told of one fact. */
  datatype Told = Told(key: Key, value: FactValue)

  function CandidateOf(n: Names, told: Told, i: nat): Candidate {
    Candidate(
      NaturalText(i), told.key, Some(n.bindingId), Some(n.source.sourceEpochId), Some(n.generation), "1",
      Origin(true, true, Some(n.bindingId), Some(n.source.sourceId), Some(n.source.sourceEpochId)), true,
      Quality(true, true), Some(told.value))
  }

  function FactsOf(n: Names, told: seq<Told>): seq<Fact> {
    if told == [] then []
    else
      var i := |told| - 1;
      FactsOf(n, told[..i]) + [Fact(n.assetId, told[i].key, [CandidateOf(n, told[i], i)], [])]
  }

  function EvaluatedOf(told: seq<Told>): seq<EvaluatedFact> {
    seq(|told|, i requires 0 <= i < |told| => EvaluatedFact(NaturalText(i), "1", "fresh", "available"))
  }

  function KeysOfTold(told: seq<Told>): seq<Key> { seq(|told|, i requires 0 <= i < |told| => told[i].key) }

  function BindingOf(n: Names): Binding { Binding(n.bindingId, n.assetId, n.source, n.generation, true) }

  function ServiceOf(n: Names, pack: Pack): Service {
    Service(n.serviceId, n.assetId, n.bindingId, n.source.sourceEpochId, n.generation, pack)
  }

  function CapabilityOf(n: Names, pack: Pack): Capability {
    Capability(
      n.capabilityId, n.assetId, n.serviceId, n.bindingId, n.source.sourceEpochId, n.generation, pack, n.definitionId)
  }

  function SnapshotOf(n: Names, pack: Pack, told: seq<Told>): Snapshot {
    Snapshot(
      "helianthus.semantic.kernel/v1", n.snapshotId, n.assetId, n.revisions, [SourceRecord(n.source, true)],
      [BindingOf(n)], [Link(n.assetId, n.bindingId, true, true)], FactsOf(n, told), None,
      [ServiceOf(n, pack)], [CapabilityOf(n, pack)])
  }

  function EvaluationOf(n: Names, told: seq<Told>): Evaluation {
    Evaluation("helianthus.semantic.evaluation/v1", n.snapshotId, n.revisions, n.context, EvaluatedOf(told), None, n.digest)
  }

  function ProjectionOf(n: Names, pack: Pack, factId: string, told: seq<Told>): Projection {
    var items := [Item("fact", factId), Item("capability", n.definitionId)];
    Projection(
      "helianthus.semantic.projection/v1", n.snapshotId, n.revisions,
      Manifest("target:semantic-snapshot-read", "1", "helianthus.semantic.kernel/v1", [pack], "1"), items,
      [Disposition(items[0], "exact", KeysOfTold(told), [], None),
       Disposition(items[1], "unsupported", [], [], Some("read only"))])
  }

  function AssetOf(n: Names, pack: Pack, factId: string, told: seq<Told>): Asset {
    Asset(
      n.assetId, Some(SnapshotOf(n, pack, told)), Some(EvaluationOf(n, told)), Some(ProjectionOf(n, pack, factId, told)),
      [], None)
  }

  /** Facts of one kind and pack, differing in their dimensions. */
  predicate OneKind(pack: Pack, factId: string, told: seq<Told>) {
    && |told| <= 32 && Distinct(KeysOfTold(told))
    && forall t | t in told :: t.key.factId == factId && Pack(t.key.packId, t.key.packVersion) == pack
  }

  lemma {:induction false} FactsAre(n: Names, told: seq<Told>)
    ensures |FactsOf(n, told)| == |told| == |AllCandidates(FactsOf(n, told))|
    ensures forall i | 0 <= i < |told| ::
      && FactsOf(n, told)[i] == Fact(n.assetId, told[i].key, [CandidateOf(n, told[i], i)], [])
      && AllCandidates(FactsOf(n, told))[i] == CandidateOf(n, told[i], i)
  {
    if told != [] {
      var i := |told| - 1;
      FactsAre(n, told[..i]);
      assert FactsOf(n, told)[..i] == FactsOf(n, told[..i]);
    }
  }

  lemma TextsDiffer(i: nat, j: nat)
    requires NaturalText(i) == NaturalText(j)
    ensures i == j
  {
    NaturalTextIsNatural(i);
    NaturalTextIsNatural(j);
  }

  lemma ProvenanceHolds(n: Names, pack: Pack, told: seq<Told>)
    ensures ProvenanceAccepted(n.assetId, SnapshotOf(n, pack, told))
  {
    var s := SnapshotOf(n, pack, told);
    assert Identities(s.sources) == [n.source];
    assert BindingOf(n) in s.bindings && Serves(BindingOf(n), ServiceOf(n, pack));
    assert ServiceOf(n, pack) in s.services && Offers(ServiceOf(n, pack), CapabilityOf(n, pack));
  }

  lemma FactHolds(n: Names, told: Told, i: nat)
    ensures FactSound(n.assetId, [n.source], [BindingOf(n)], Fact(n.assetId, told.key, [CandidateOf(n, told, i)], []))
  {
    var b, c := BindingOf(n), CandidateOf(n, told, i);
    assert b in [b] && Observes(b, c);
    assert n.source in [n.source] && EpochKnown([n.source], n.source.sourceEpochId);
    assert CandidateSound([n.source], [b], c);
  }

  lemma CandidatesDiffer(n: Names, told: seq<Told>)
    ensures CandidateIdsDiffer(AllCandidates(FactsOf(n, told)))
  {
    FactsAre(n, told);
    forall i, j | 0 <= i < j < |told|
      ensures NaturalText(i) != NaturalText(j)
    {
      if NaturalText(i) == NaturalText(j) { TextsDiffer(i, j); }
    }
  }

  lemma FactsHold(n: Names, told: seq<Told>)
    requires Distinct(KeysOfTold(told))
    ensures FactsSound(n.assetId, [n.source], [BindingOf(n)], FactsOf(n, told))
  {
    var facts := FactsOf(n, told);
    FactsAre(n, told);
    assert Keys(facts) == KeysOfTold(told);
    forall fact | fact in facts
      ensures FactSound(n.assetId, [n.source], [BindingOf(n)], fact)
    {
      var i :| 0 <= i < |told| && facts[i] == fact;
      FactHolds(n, told[i], i);
    }
    CandidatesDiffer(n, told);
  }

  lemma EvaluationsDiffer(told: seq<Told>)
    ensures forall i, j :: 0 <= i < j < |told| ==> EvaluatedOf(told)[i].candidateId != EvaluatedOf(told)[j].candidateId
  {
    forall i, j | 0 <= i < j < |told|
      ensures NaturalText(i) != NaturalText(j)
    {
      if NaturalText(i) == NaturalText(j) { TextsDiffer(i, j); }
    }
  }

  lemma EvaluationHolds(n: Names, told: seq<Told>)
    ensures EvaluationSound(AllCandidates(FactsOf(n, told)), EvaluatedOf(told))
  {
    FactsAre(n, told);
    EvaluationsDiffer(told);
    PairedIsSound(AllCandidates(FactsOf(n, told)), EvaluatedOf(told));
  }

  lemma PairedIsSound(candidates: seq<Candidate>, facts: seq<EvaluatedFact>)
    requires |candidates| == |facts| && forall i | 0 <= i < |facts| :: Evaluates(facts[i], candidates[i])
    requires forall i, j :: 0 <= i < j < |facts| ==> facts[i].candidateId != facts[j].candidateId
    ensures EvaluationSound(candidates, facts)
  {
    forall i | 0 <= i < |facts|
      ensures facts[i] in facts && candidates[i] in candidates && Evaluates(facts[i], candidates[i])
    {
    }
  }

  lemma {:induction false} AllOfOneKind(keys: seq<Key>, factId: string)
    requires forall k | k in keys :: k.factId == factId
    ensures KeysOf(keys, factId) == keys
  {
    if keys != [] { AllOfOneKind(keys[..|keys| - 1], factId); }
  }

  lemma FactsAreOfOneKind(n: Names, pack: Pack, factId: string, told: seq<Told>)
    requires OneKind(pack, factId, told)
    ensures forall fact | fact in FactsOf(n, told) ::
      fact.key.factId == factId && Pack(fact.key.packId, fact.key.packVersion) == pack
    ensures Keys(FactsOf(n, told)) == KeysOfTold(told) && KeysOf(KeysOfTold(told), factId) == KeysOfTold(told)
  {
    FactsAre(n, told);
    forall fact | fact in FactsOf(n, told)
      ensures fact.key.factId == factId && Pack(fact.key.packId, fact.key.packVersion) == pack
    {
      var i :| 0 <= i < |told| && FactsOf(n, told)[i] == fact;
      assert told[i] in told;
    }
    forall k | k in KeysOfTold(told)
      ensures k.factId == factId
    {
      var i :| 0 <= i < |told| && KeysOfTold(told)[i] == k;
      assert told[i] in told;
    }
    AllOfOneKind(KeysOfTold(told), factId);
  }

  lemma PacksHold(n: Names, pack: Pack, factId: string, told: seq<Told>)
    requires OneKind(pack, factId, told)
    ensures PacksSound(n.assetId, SnapshotOf(n, pack, told), [pack])
  {
    FactsAreOfOneKind(n, pack, factId, told);
    assert pack in Elements([pack]);
  }

  lemma DispositionsHold(n: Names, pack: Pack, factId: string, told: seq<Told>)
    requires OneKind(pack, factId, told)
    ensures DispositionsSound(KeysOfTold(told), ProjectionOf(n, pack, factId, told).dispositions)
  {
    var keys, dispositions := KeysOfTold(told), ProjectionOf(n, pack, factId, told).dispositions;
    FactsAreOfOneKind(n, pack, factId, told);
    assert SourceKeysSound(keys, dispositions[0]) && LossSound(dispositions[0]);
    assert SourceKeysSound(keys, dispositions[1]) && LossSound(dispositions[1]);
  }

  lemma ClaimsHold(n: Names, pack: Pack, factId: string, told: seq<Told>)
    requires OneKind(pack, factId, told)
    ensures ClaimsRequested(SnapshotOf(n, pack, told), ProjectionOf(n, pack, factId, told).requested)
  {
    var requested := ProjectionOf(n, pack, factId, told).requested;
    FactsAreOfOneKind(n, pack, factId, told);
    assert requested[0] in requested && requested[1] in requested;
  }

  lemma ItemsHold(n: Names, pack: Pack, factId: string, told: seq<Told>)
    ensures
      var p := ProjectionOf(n, pack, factId, told);
      ItemsAccounted(p.requested, p.dispositions)
  {
    var p := ProjectionOf(n, pack, factId, told);
    assert Items(p.dispositions) == p.requested;
  }

  lemma ProjectionHolds(n: Names, pack: Pack, factId: string, told: seq<Told>)
    requires OneKind(pack, factId, told)
    ensures ProjectionAccepted(n.assetId, SnapshotOf(n, pack, told), ProjectionOf(n, pack, factId, told))
  {
    FactsAreOfOneKind(n, pack, factId, told);
    ItemsHold(n, pack, factId, told);
    PacksHold(n, pack, factId, told);
    ClaimsHold(n, pack, factId, told);
    DispositionsHold(n, pack, factId, told);
  }

  /** Such an asset is accepted. */
  lemma ItIsAccepted(n: Names, pack: Pack, factId: string, told: seq<Told>)
    requires OneKind(pack, factId, told)
    ensures Accepted(AssetOf(n, pack, factId, told))
  {
    assert Identities([SourceRecord(n.source, true)]) == [n.source];
    ProvenanceHolds(n, pack, told);
    FactsHold(n, told);
    EvaluationHolds(n, told);
    ProjectionHolds(n, pack, factId, told);
  }

  /** So is one that is unavailable for a known reason and has nothing. */
  lemma UnavailableIsAccepted(assetId: string, reason: string)
    requires reason in {
      "semantic.read.reason.asset_unknown", "semantic.read.reason.snapshot_unavailable",
      "semantic.read.reason.source_unavailable", "semantic.read.reason.publication_withheld"}
    ensures Accepted(Asset(assetId, None, None, None, [], Some(reason)))
  {
  }

  lemma ItIsRepresented(n: Names, pack: Pack, factId: string, told: seq<Told>, key: Key)
    requires key.factId == factId
    ensures ExactlyRepresented(ProjectionOf(n, pack, factId, told), key)
  {
    var p := ProjectionOf(n, pack, factId, told);
    assert p.dispositions[0] in p.dispositions;
  }

  lemma ItIsUsable(n: Names, told: seq<Told>, i: nat)
    requires i < |told|
    ensures Usable(EvaluationOf(n, told), CandidateOf(n, told[i], i))
  {
    assert EvaluatedOf(told)[i] in EvaluationOf(n, told).facts;
  }

  lemma ItIsListed(n: Names, pack: Pack, told: seq<Told>, i: nat)
    requires i < |told|
    ensures Fact(n.assetId, told[i].key, [CandidateOf(n, told[i], i)], []) in SnapshotOf(n, pack, told).facts
  {
    FactsAre(n, told);
    assert FactsOf(n, told)[i] in FactsOf(n, told);
  }

  lemma ItsFactsShow(n: Names, pack: Pack, factId: string, told: seq<Told>, i: nat, d: Descriptor, scaled: int)
    requires i < |told| && told[i].value == Quantity(scaled, d.unit) && told[i].key.factId == factId
    requires d.unit != "" && WithinBounds(d, scaled)
    ensures
      var fact := Fact(n.assetId, told[i].key, [CandidateOf(n, told[i], i)], []);
      Shows(AssetOf(n, pack, factId, told), fact, d, Number(scaled))
  {
    ItIsListed(n, pack, told, i);
    ItIsTraced(n, pack, told, i);
    ItIsRepresented(n, pack, factId, told, told[i].key);
    ItIsUsable(n, told, i);
  }

  /** And each of its sensors shows the number that is told, if the unit is its own and the bounds allow it. */
  lemma ItsSensorsShow(n: Names, pack: Pack, factId: string, told: seq<Told>, i: nat, d: Descriptor, scaled: int)
    requires OneKind(pack, factId, told) && i < |told| && told[i].value == Quantity(scaled, d.unit)
    requires d.unit != "" && WithinBounds(d, scaled)
    ensures
      var held := Held(true, Some(true), [AssetOf(n, pack, factId, told)]);
      SensorShows(held, n.assetId, told[i].key, d) == Some(Number(scaled))
  {
    var asset := AssetOf(n, pack, factId, told);
    assert told[i] in told;
    ItIsAccepted(n, pack, factId, told);
    ItsFactsShow(n, pack, factId, told, i, d, scaled);
    ItIsListed(n, pack, told, i);
    FactReads(asset, Fact(n.assetId, told[i].key, [CandidateOf(n, told[i], i)], []), d, Number(scaled));
  }

  lemma ItIsTraced(n: Names, pack: Pack, told: seq<Told>, i: nat)
    requires i < |told|
    ensures Traced(SnapshotOf(n, pack, told), CandidateOf(n, told[i], i))
  {
    var s := SnapshotOf(n, pack, told);
    assert BindingOf(n) in s.bindings && SourceRecord(n.source, true) in s.sources;
    FindsJustOne(LinkOf(n.bindingId), s.links, 0);
  }

  // ---- what acceptance means ----

  /** An accepted asset is unavailable for a known reason and has nothing, or is readable and has all three records. */
  lemma AcceptedIsWhole(asset: Asset)
    requires Accepted(asset)
    ensures asset.unavailableReason.Some? ==>
      && asset.unavailableReason.value in {
           "semantic.read.reason.asset_unknown", "semantic.read.reason.snapshot_unavailable",
           "semantic.read.reason.source_unavailable", "semantic.read.reason.publication_withheld"}
      && asset == Asset(asset.assetId, None, None, None, [], asset.unavailableReason)
    ensures asset.unavailableReason.None? ==>
      asset.snapshot.Some? && asset.evaluation.Some? && asset.projection.Some? && asset.snapshot.value.assetId == asset.assetId
  {
  }

  /** All records of a readable asset are of one snapshot and revision, and of the supported contracts. */
  lemma AcceptedRecordsAgree(asset: Asset)
    requires Accepted(asset) && asset.unavailableReason.None?
    ensures
      var s, e, p := asset.snapshot.value, asset.evaluation.value, asset.projection.value;
      && s.contract == "helianthus.semantic.kernel/v1" == p.manifest.kernelVersion
      && e.contract == "helianthus.semantic.evaluation/v1" && p.contract == "helianthus.semantic.projection/v1"
      && p.manifest.targetId == "target:semantic-snapshot-read"
      && p.manifest.targetVersion == "1" && p.manifest.mappingRevision == "1"
      && e.snapshotId == p.snapshotId == s.snapshotId && e.revisions == p.revisions == s.revisions
      && forall x | x in asset.selections ::
           && x.contract == "helianthus.semantic.selection/v1" && x.snapshotId == s.snapshotId && x.revisions == s.revisions
           && x.context == e.context && x.digest == e.digest && x.presentationOnly
           && exists c :: c in AllCandidates(s.facts) && c.candidateId == x.selectedCandidate
                && c.revision == x.candidateRevision && c.key == x.key
  {
    forall x | x in asset.selections
      ensures exists c :: c in AllCandidates(asset.snapshot.value.facts) && c.candidateId == x.selectedCandidate
                && c.revision == x.candidateRevision && c.key == x.key
    {
      var c :| c in AllCandidates(asset.snapshot.value.facts) && Chooses(x, c);
    }
  }

  /** Its links, services and capabilities are this asset's own, its links of listed bindings, and its packs are stated. */
  lemma AcceptedPartsAreItsOwn(asset: Asset)
    requires Accepted(asset) && asset.unavailableReason.None?
    ensures
      var s, packs := asset.snapshot.value, asset.projection.value.manifest.packs;
      && (forall link | link in s.links ::
            link.assetId == asset.assetId && exists b :: b in s.bindings && b.bindingId == link.bindingId)
      && (forall fact | fact in s.facts ::
            fact.assetId == asset.assetId && Pack(fact.key.packId, fact.key.packVersion) in packs)
      && (forall x | x in s.services :: x.assetId == asset.assetId && x.pack in packs)
      && (forall x | x in s.capabilities :: x.assetId == asset.assetId && x.pack in packs)
      && Distinct(packs)
  {
    var s, packs := asset.snapshot.value, asset.projection.value.manifest.packs;
    forall fact | fact in s.facts
      ensures fact.assetId == asset.assetId && Pack(fact.key.packId, fact.key.packVersion) in packs
    {
      assert FactSound(asset.assetId, Identities(s.sources), s.bindings, fact);
      assert Pack(fact.key.packId, fact.key.packVersion) in FactPacks(s.facts) && FactPacks(s.facts) <= Elements(packs);
    }
    forall x | x in s.services
      ensures x.assetId == asset.assetId && x.pack in packs
    {
      assert x.pack in ServicePacks(s.services) && ServicePacks(s.services) <= Elements(packs);
    }
    forall x | x in s.capabilities
      ensures x.assetId == asset.assetId && x.pack in packs
    {
      assert x.pack in CapabilityPacks(s.capabilities) && CapabilityPacks(s.capabilities) <= Elements(packs);
    }
  }

  /** Its dispositions say why a claim is not exact: what was lost, or the reason. */
  lemma AcceptedDispositionsExplain(asset: Asset, d: Disposition)
    requires Accepted(asset) && asset.unavailableReason.None? && d in asset.projection.value.dispositions
    ensures d.outcome in {"exact", "transformed", "withheld", "unrepresentable", "unsupported", "unknown"}
    ensures (d.outcome == "exact" ==> d.losses == []) && (d.outcome == "transformed" ==> d.losses != [])
    ensures d.outcome !in {"exact", "transformed"} ==> d.reason.Some? && d.reason.value != ""
    ensures |d.sourceKeys| <= 32
  {
    assert SourceKeysSound(Keys(asset.snapshot.value.facts), d) && LossSound(d);
  }

  /** Every fact and every capability is asked for. */
  lemma AcceptedClaimsAreRequested(asset: Asset)
    requires Accepted(asset) && asset.unavailableReason.None?
    ensures
      var s, requested := asset.snapshot.value, asset.projection.value.requested;
      && (forall fact | fact in s.facts :: Item("fact", fact.key.factId) in requested)
      && (forall c | c in s.capabilities :: Item("capability", c.definitionId) in requested)
  {
    assert ClaimsRequested(asset.snapshot.value, asset.projection.value.requested);
  }

  /** What backs a value that a sensor shows, said of the candidate itself. */
  predicate Backed(s: Snapshot, e: Evaluation, c: Candidate) {
    && c.origin.native && c.origin.hasEvidence && c.hasEvidence && c.quality.observed && c.quality.admitted
    && (exists b :: b in s.bindings && b.current && c.bindingId == Some(b.bindingId) == c.origin.bindingId
          && c.sourceEpochId == Some(b.source.sourceEpochId) == c.origin.sourceEpochId
          && c.origin.sourceId == Some(b.source.sourceId) && c.driverGeneration == Some(b.driverGeneration)
          && SourceRecord(b.source, true) in s.sources
          && exists link :: link in s.links && link.bindingId == b.bindingId && link.qualified && link.hasBasis)
    && (exists x :: x in e.facts && x.candidateId == c.candidateId && x.candidateRevision == c.revision
          && x.freshness == "fresh" && x.availability == "available")
  }

  lemma TracedIsBacked(s: Snapshot, e: Evaluation, c: Candidate)
    requires Traced(s, c) && Usable(e, c) && c.quality.admitted
    ensures Backed(s, e, c)
  {
    var b :| b in s.bindings && b.current && FullyTraced(b, c)
      && SourceRecord(b.source, true) in s.sources && OneQualifiedLink(s.links, b.bindingId);
    FilterMembers(LinkOf(b.bindingId), s.links);
    var link := Filter(LinkOf(b.bindingId), s.links)[0];
    assert link in s.links && link.bindingId == b.bindingId && link.qualified && link.hasBasis;
    var x :| x in e.facts && Evaluates(x, c) && x.freshness == "fresh" && x.availability == "available";
  }

  /** The value is that of the fact's only candidate, undisputed, exact and backed. */
  predicate BackedFact(s: Snapshot, e: Evaluation, p: Projection, fact: Fact, d: Descriptor, shown: Shown) {
    && fact in s.facts && fact.conflicts == [] && |fact.candidates| == 1
    && Backed(s, e, fact.candidates[0]) && Show(d, fact.candidates[0].value) == Some(shown)
    && exists x :: x in p.dispositions && x.item == Item("fact", fact.key.factId) && x.outcome == "exact"
  }

  lemma ShowsIsBacked(asset: Asset, fact: Fact, d: Descriptor, shown: Shown)
    requires asset.snapshot.Some? && asset.evaluation.Some? && asset.projection.Some? && Shows(asset, fact, d, shown)
    ensures BackedFact(asset.snapshot.value, asset.evaluation.value, asset.projection.value, fact, d, shown)
  {
    TracedIsBacked(asset.snapshot.value, asset.evaluation.value, fact.candidates[0]);
  }

  /** A value that is shown is so backed, by the fact of the sensor's own key. */
  lemma ShownIsBacked(asset: Asset, key: Key, d: Descriptor, shown: Shown)
    requires Accepted(asset) && Reading(asset, key, d) == Some(shown)
    ensures asset.unavailableReason.None?
    ensures exists fact | fact in asset.snapshot.value.facts && fact.key == key ::
      BackedFact(asset.snapshot.value, asset.evaluation.value, asset.projection.value, fact, d, shown)
  {
    ReadingIsTrustworthy(asset, key, d, shown);
    var fact :| fact in asset.snapshot.value.facts && fact.key == key && Shows(asset, fact, d, shown);
    ShowsIsBacked(asset, fact, d, shown);
  }
}

/**
 * What a semantic sensor shows. The sensor counts again everything it looks up; on an asset that the
 * validator accepted these counts are always one, so it shows a value exactly when one candidate, traced
 * to a current source, is fit to be shown.
 */
module SensorReading {
  import opened Prelude
  import opened Distinctness
  import opened AssetAccounting

  /** The row of a mapped fact: its unit with bounds on the number, or no unit and the tokens of its symbol. */
  datatype Descriptor = Descriptor(
    factId: string, unit: string, minimum: Option<int>, maximum: Option<int>, symbols: set<string>)

  datatype Shown = Number(scaled: int) | Token(token: string)

  function Show(d: Descriptor, value: Option<FactValue>): Option<Shown> {
    if value.None? then None
    else
      var v := value.value;
      if d.unit != "" then
        if v.Quantity? && v.unit == d.unit && (d.minimum.Some? ==> d.minimum.value <= v.scaled)
           && (d.maximum.Some? ==> v.scaled <= d.maximum.value)
        then Some(Number(v.scaled))
        else None
      else if v.SymbolIs? && v.known && v.namespace == d.factId && v.token in d.symbols then Some(Token(v.token))
      else None
  }

  predicate WithinBounds(d: Descriptor, n: int) {
    (d.minimum.Some? ==> n >= d.minimum.value) && (d.maximum.Some? ==> n <= d.maximum.value)
  }

  /**
   * A number is shown iff it is a quantity of the sensor's unit within its bounds; a token iff it is a known one of
   * the fact's own namespace that the sensor maps, and the sensor has no unit.
   */
  lemma ShownIff(d: Descriptor, value: Option<FactValue>)
    ensures forall n :: Show(d, value) == Some(Number(n)) <==>
      d.unit != "" && WithinBounds(d, n) && value == Some(Quantity(n, d.unit))
    ensures forall token :: Show(d, value) == Some(Token(token)) <==>
      d.unit == "" && token in d.symbols && value == Some(SymbolIs(d.factId, token, true))
  {
  }

  // ---- the sensor's own look-ups ----

  function OfBinding(id: Option<string>): Binding -> bool { (b: Binding) => Some(b.bindingId) == id }

  function OfIdentity(identity: Source): SourceRecord -> bool { (r: SourceRecord) => r.identity == identity }

  function LinkOf(id: string): Link -> bool { (link: Link) => link.bindingId == id }

  function OfItem(item: Item): Disposition -> bool { (d: Disposition) => d.item == item }

  function OfKey(key: Key): Fact -> bool { (fact: Fact) => fact.key == key }

  function OfCandidate(c: Candidate): EvaluatedFact -> bool { (e: EvaluatedFact) => Evaluates(e, c) }

  predicate Provided(c: Candidate) {
    c.origin.native && c.origin.hasEvidence && c.hasEvidence && c.quality.observed
  }

  /** Candidate and origin name this binding, its source, epoch and generation, all of them. */
  predicate FullyTraced(b: Binding, c: Candidate) {
    && c.bindingId == c.origin.bindingId == Some(b.bindingId)
    && c.sourceEpochId == c.origin.sourceEpochId == Some(b.source.sourceEpochId)
    && c.origin.sourceId == Some(b.source.sourceId)
    && c.driverGeneration == Some(b.driverGeneration)
  }

  predicate OneQualifiedLink(links: seq<Link>, bindingId: string) {
    var found := Filter(LinkOf(bindingId), links);
    |found| == 1 && found[0].qualified && found[0].hasBasis
  }

  predicate SourceAdmitted(s: Snapshot, c: Candidate) {
    && Provided(c)
    && var bindings := Filter(OfBinding(c.bindingId), s.bindings);
       && |bindings| == 1
       && bindings[0].current && FullyTraced(bindings[0], c)
       && var sources := Filter(OfIdentity(bindings[0].source), s.sources);
          && |sources| == 1 && sources[0].current
          && OneQualifiedLink(s.links, bindings[0].bindingId)
  }

  predicate Represented(p: Projection, key: Key) {
    var found := Filter(OfItem(Item("fact", key.factId)), p.dispositions);
    |found| == 1 && found[0].outcome == "exact" && found[0].losses == [] && key in found[0].sourceKeys
  }

  predicate EvaluatedUsable(e: Evaluation, c: Candidate) {
    var found := Filter(OfCandidate(c), e.facts);
    |found| == 1 && found[0].freshness == "fresh" && found[0].availability == "available"
  }

  /** `_reading`, for an asset of the last successful read. */
  function Reading(asset: Asset, key: Key, d: Descriptor): Option<Shown> {
    if asset.unavailableReason.Some? || asset.snapshot.None? || asset.evaluation.None? || asset.projection.None? then None
    else if !Represented(asset.projection.value, key) then None
    else
      var facts := Filter(OfKey(key), asset.snapshot.value.facts);
      if |facts| != 1 || facts[0].conflicts != [] || |facts[0].candidates| != 1 then None
      else
        var c := facts[0].candidates[0];
        if !SourceAdmitted(asset.snapshot.value, c) || !c.quality.admitted || !EvaluatedUsable(asset.evaluation.value, c)
        then None
        else Show(d, c.value)
  }

  // ---- the same without counting ----

  predicate Traced(s: Snapshot, c: Candidate) {
    && Provided(c)
    && exists b :: b in s.bindings && b.current && FullyTraced(b, c)
         && SourceRecord(b.source, true) in s.sources && OneQualifiedLink(s.links, b.bindingId)
  }

  predicate ExactlyRepresented(p: Projection, key: Key) {
    exists d :: d in p.dispositions && d.item == Item("fact", key.factId) && d.outcome == "exact"
  }

  predicate Usable(e: Evaluation, c: Candidate) {
    exists x :: x in e.facts && Evaluates(x, c) && x.freshness == "fresh" && x.availability == "available"
  }

  /** The value of the only candidate of an undisputed fact. */
  predicate Shows(asset: Asset, fact: Fact, d: Descriptor, shown: Shown)
    requires asset.snapshot.Some? && asset.evaluation.Some? && asset.projection.Some?
  {
    && fact in asset.snapshot.value.facts && fact.conflicts == [] && |fact.candidates| == 1
    && ExactlyRepresented(asset.projection.value, fact.key)
    && Traced(asset.snapshot.value, fact.candidates[0])
    && fact.candidates[0].quality.admitted
    && Usable(asset.evaluation.value, fact.candidates[0])
    && Show(d, fact.candidates[0].value) == Some(shown)
  }

  // ---- counts that are one ----

  lemma BindingsCountOne(assetId: string, s: Snapshot, b: Binding)
    requires ProvenanceAccepted(assetId, s) && b in s.bindings
    ensures Filter(OfBinding(Some(b.bindingId)), s.bindings) == [b]
  {
    var i :| 0 <= i < |s.bindings| && s.bindings[i] == b;
    FindsJustOne(OfBinding(Some(b.bindingId)), s.bindings, i);
  }

  lemma SourcesCountOne(assetId: string, s: Snapshot, r: SourceRecord)
    requires ProvenanceAccepted(assetId, s) && r in s.sources
    ensures Filter(OfIdentity(r.identity), s.sources) == [r]
  {
    var i :| 0 <= i < |s.sources| && s.sources[i] == r;
    forall j | 0 <= j < |s.sources| && j != i
      ensures s.sources[j].identity != r.identity
    {
      assert Identities(s.sources)[j] != Identities(s.sources)[i];
    }
    FindsJustOne(OfIdentity(r.identity), s.sources, i);
  }

  lemma AdmittedIffTraced(assetId: string, s: Snapshot, c: Candidate)
    requires ProvenanceAccepted(assetId, s)
    ensures SourceAdmitted(s, c) <==> Traced(s, c)
  {
    if SourceAdmitted(s, c) {
      var b := Filter(OfBinding(c.bindingId), s.bindings)[0];
      FilterMembers(OfBinding(c.bindingId), s.bindings);
      FilterMembers(OfIdentity(b.source), s.sources);
      var r := Filter(OfIdentity(b.source), s.sources)[0];
      assert r in s.sources && r == SourceRecord(b.source, true);
    }
    if Traced(s, c) {
      var b :| b in s.bindings && b.current && FullyTraced(b, c)
        && SourceRecord(b.source, true) in s.sources && OneQualifiedLink(s.links, b.bindingId);
      BindingsCountOne(assetId, s, b);
      SourcesCountOne(assetId, s, SourceRecord(b.source, true));
    }
  }

  lemma DispositionsCountOne(p: Projection, d: Disposition)
    requires ItemsAccounted(p.requested, p.dispositions) && d in p.dispositions
    ensures Filter(OfItem(d.item), p.dispositions) == [d]
  {
    var i :| 0 <= i < |p.dispositions| && p.dispositions[i] == d;
    forall j | 0 <= j < |p.dispositions| && j != i
      ensures p.dispositions[j].item != d.item
    {
      assert Items(p.dispositions)[j] != Items(p.dispositions)[i];
    }
    FindsJustOne(OfItem(d.item), p.dispositions, i);
  }

  lemma RepresentedIffExactly(assetId: string, s: Snapshot, p: Projection, key: Key)
    requires ProjectionAccepted(assetId, s, p) && Distinct(Keys(s.facts)) && key in Keys(s.facts)
    ensures Represented(p, key) <==> ExactlyRepresented(p, key)
  {
    var item := Item("fact", key.factId);
    FilterMembers(OfItem(item), p.dispositions);
    forall d | d in p.dispositions && d.item == item
      ensures Filter(OfItem(item), p.dispositions) == [d] && key in d.sourceKeys && (d.outcome == "exact" ==> d.losses == [])
    {
      DispositionsCountOne(p, d);
      DispositionListsItsFact(Keys(s.facts), d);
      assert LossSound(d);
    }
  }

  lemma FactsCountOne(s: Snapshot, fact: Fact)
    requires Distinct(Keys(s.facts)) && fact in s.facts
    ensures Filter(OfKey(fact.key), s.facts) == [fact]
  {
    var i :| 0 <= i < |s.facts| && s.facts[i] == fact;
    forall j | 0 <= j < |s.facts| && j != i
      ensures s.facts[j].key != fact.key
    {
      assert Keys(s.facts)[j] != Keys(s.facts)[i];
    }
    FindsJustOne(OfKey(fact.key), s.facts, i);
  }

  lemma EvaluationsCountOne(candidates: seq<Candidate>, e: Evaluation, c: Candidate, x: EvaluatedFact)
    requires EvaluationSound(candidates, e.facts) && x in e.facts && Evaluates(x, c)
    ensures Filter(OfCandidate(c), e.facts) == [x]
  {
    var i :| 0 <= i < |e.facts| && e.facts[i] == x;
    FindsJustOne(OfCandidate(c), e.facts, i);
  }

  lemma UsableIffCounted(candidates: seq<Candidate>, e: Evaluation, c: Candidate)
    requires EvaluationSound(candidates, e.facts)
    ensures EvaluatedUsable(e, c) <==> Usable(e, c)
  {
    var found := Filter(OfCandidate(c), e.facts);
    FilterMembers(OfCandidate(c), e.facts);
    if EvaluatedUsable(e, c) {
      assert found[0] in found;
      assert Evaluates(found[0], c);
    }
    if Usable(e, c) {
      var x :| x in e.facts && Evaluates(x, c) && x.freshness == "fresh" && x.availability == "available";
      EvaluationsCountOne(candidates, e, c, x);
      assert found == [x];
    }
  }

  lemma CountsDecideNothing(asset: Asset, fact: Fact, d: Descriptor, shown: Shown)
    requires asset.unavailableReason.None? && asset.snapshot.Some? && asset.evaluation.Some? && asset.projection.Some?
    requires fact in asset.snapshot.value.facts
    requires Filter(OfKey(fact.key), asset.snapshot.value.facts) == [fact]
    requires Represented(asset.projection.value, fact.key) <==> ExactlyRepresented(asset.projection.value, fact.key)
    requires forall c | fact.candidates == [c] ::
      && (SourceAdmitted(asset.snapshot.value, c) <==> Traced(asset.snapshot.value, c))
      && (EvaluatedUsable(asset.evaluation.value, c) <==> Usable(asset.evaluation.value, c))
    ensures Reading(asset, fact.key, d) == Some(shown) <==> Shows(asset, fact, d, shown)
  {
    if |fact.candidates| == 1 { assert fact.candidates == [fact.candidates[0]]; }
  }

  /** On an accepted asset the sensor's count of facts, sources, bindings, evaluations and dispositions decides nothing. */
  lemma FactReads(asset: Asset, fact: Fact, d: Descriptor, shown: Shown)
    requires Accepted(asset) && asset.unavailableReason.None? && fact in asset.snapshot.value.facts
    ensures Reading(asset, fact.key, d) == Some(shown) <==> Shows(asset, fact, d, shown)
  {
    var s, e, p := asset.snapshot.value, asset.evaluation.value, asset.projection.value;
    var i :| 0 <= i < |s.facts| && s.facts[i] == fact;
    assert Keys(s.facts)[i] == fact.key;
    RepresentedIffExactly(asset.assetId, s, p, fact.key);
    FactsCountOne(s, fact);
    if |fact.candidates| == 1 {
      AdmittedIffTraced(asset.assetId, s, fact.candidates[0]);
      UsableIffCounted(AllCandidates(s.facts), e, fact.candidates[0]);
    }
    CountsDecideNothing(asset, fact, d, shown);
  }

  /**
   * A sensor shows a value iff the asset is readable and its fact is undisputed, exactly represented, and has
   * one admitted candidate that is traced to a current source and evaluated as fresh and available.
   */
  lemma ReadingIsTrustworthy(asset: Asset, key: Key, d: Descriptor, shown: Shown)
    requires Accepted(asset)
    ensures Reading(asset, key, d) == Some(shown) <==>
      && asset.unavailableReason.None?
      && exists fact :: fact in asset.snapshot.value.facts && fact.key == key && Shows(asset, fact, d, shown)
  {
    if asset.unavailableReason.None? {
      var s := asset.snapshot.value;
      forall fact | fact in s.facts
        ensures Reading(asset, fact.key, d) == Some(shown) <==> Shows(asset, fact, d, shown)
      {
        FactReads(asset, fact, d, shown);
      }
      FilterMembers(OfKey(key), s.facts);
      if Reading(asset, key, d) == Some(shown) {
        var fact := Filter(OfKey(key), s.facts)[0];
        assert fact in s.facts && fact.key == key;
      }
    }
  }

  // ---- the sensor on its coordinator ----

  /** What the coordinator holds: its last answer is there only if some read was accepted. */
  datatype Held = Held(lastUpdateSuccess: bool, supported: Option<bool>, assets: seq<Asset>)

  /** `_reading`: the first asset with the sensor's id decides, and none at all unless the last read succeeded. */
  method ReadSensor(held: Held, assetId: string, key: Key, d: Descriptor) returns (reading: Option<Shown>)
    ensures reading == SensorShows(held, assetId, key, d)
  {
    if !held.lastUpdateSuccess || held.supported != Some(true) { return None; }
    for i := 0 to |held.assets|
      invariant FirstReading(held.assets, assetId, key, d) == FirstReading(held.assets[i..], assetId, key, d)
    {
      if held.assets[i].assetId == assetId { return Reading(held.assets[i], key, d); }
    }
    return None;
  }

  function FirstReading(assets: seq<Asset>, assetId: string, key: Key, d: Descriptor): Option<Shown> {
    if assets == [] then None
    else if assets[0].assetId == assetId then Reading(assets[0], key, d)
    else FirstReading(assets[1..], assetId, key, d)
  }

  function SensorShows(held: Held, assetId: string, key: Key, d: Descriptor): Option<Shown> {
    if !held.lastUpdateSuccess || held.supported != Some(true) then None
    else FirstReading(held.assets, assetId, key, d)
  }

  lemma {:induction false} FirstIsTheOnly(assets: seq<Asset>, key: Key, d: Descriptor, i: nat)
    requires i < |assets| && Distinct(AssetIds(assets))
    ensures FirstReading(assets, assets[i].assetId, key, d) == Reading(assets[i], key, d)
  {
    if i > 0 {
      assert AssetIds(assets)[0] != AssetIds(assets)[i];
      assert forall j | 0 <= j < |assets| - 1 :: AssetIds(assets[1..])[j] == AssetIds(assets)[j + 1];
      FirstIsTheOnly(assets[1..], key, d, i - 1);
    }
  }

  lemma {:induction false} ReadsAnAsset(assets: seq<Asset>, assetId: string, key: Key, d: Descriptor)
    ensures FirstReading(assets, assetId, key, d).Some? ==>
      exists asset :: asset in assets && asset.assetId == assetId
  {
    if assets != [] { ReadsAnAsset(assets[1..], assetId, key, d); }
  }

  /** The sensor's asset is readable, and the sensor's fact in it shows `shown`. */
  predicate ShowsIn(asset: Asset, key: Key, d: Descriptor, shown: Shown)
    requires Accepted(asset)
  {
    && asset.unavailableReason.None?
    && exists fact | fact in asset.snapshot.value.facts :: fact.key == key && Shows(asset, fact, d, shown)
  }

  /**
   * On an accepted view a sensor shows a value iff the last read succeeded, the root is supported, and the sensor's
   * asset has an undisputed, exactly represented fact with one traced, admitted, fresh and available candidate.
   */
  lemma SensorIsTrustworthy(
      held: Held, answer: Answer, ids: seq<string>, assetId: string, key: Key, d: Descriptor, shown: Shown)
    requires ViewAccepted(answer, ids) && held.assets == answer.assets.value
    ensures SensorShows(held, assetId, key, d) == Some(shown) <==>
      && held.lastUpdateSuccess && held.supported == Some(true)
      && exists asset | asset in held.assets :: asset.assetId == assetId && ShowsIn(asset, key, d, shown)
  {
    AssetsDiffer(answer, ids);
    forall asset | asset in held.assets && asset.assetId == assetId
      ensures FirstReading(held.assets, assetId, key, d) == Some(shown) <==> ShowsIn(asset, key, d, shown)
    {
      var i :| 0 <= i < |held.assets| && held.assets[i] == asset;
      FirstIsTheOnly(held.assets, key, d, i);
      ReadingIsTrustworthy(asset, key, d, shown);
    }
    ReadsAnAsset(held.assets, assetId, key, d);
  }
}

/**
 * The cross-reference and accounting checks on one decoded asset. Every loop of the validator is a
 * method that keeps the source's sets and tables and is proved to decide a declarative predicate;
 * the theorems say what an accepted asset guarantees.
 */
module AssetAccounting {
  import opened Prelude
  import opened Distinctness
  import D = SchemaDecoder

  datatype Source = Source(sourceId: string, sourceEpochId: string)

  datatype SourceRecord = SourceRecord(identity: Source, current: bool)

  datatype Binding = Binding(bindingId: string, assetId: string, source: Source, driverGeneration: string, current: bool)

  datatype Pack = Pack(id: string, version: string)

  datatype Service = Service(
    instanceId: string, assetId: string, bindingId: string, sourceEpochId: string, driverGeneration: string, pack: Pack)

  datatype Capability = Capability(
    instanceId: string, assetId: string, serviceInstance: string, bindingId: string, sourceEpochId: string,
    driverGeneration: string, pack: Pack, definitionId: string)

  datatype Link = Link(assetId: string, bindingId: string, qualified: bool, hasBasis: bool)

  datatype Dimension = Dimension(id: string, value: D.Value)

  datatype Key = Key(packId: string, packVersion: string, factId: string, dimensions: seq<Dimension>)

  datatype Origin = Origin(
    native: bool, hasEvidence: bool, bindingId: Option<string>, sourceId: Option<string>, sourceEpochId: Option<string>)

  /** `observed`: the assertion; `admitted`: qualified, promoted, good and available. */
  datatype Quality = Quality(observed: bool, admitted: bool)

  /** A quantity counts its number in units of 10^-18. */
  datatype FactValue =
    | Quantity(scaled: int, unit: string)
    | SymbolIs(namespace: string, token: string, known: bool)
    | OtherValue

  datatype Candidate = Candidate(
    candidateId: string, key: Key, bindingId: Option<string>, sourceEpochId: Option<string>,
    driverGeneration: Option<string>, revision: string, origin: Origin, hasEvidence: bool, quality: Quality,
    value: Option<FactValue>)

  datatype Fact = Fact(assetId: string, key: Key, candidates: seq<Candidate>, conflicts: seq<seq<string>>)

  /** `content` stands for the members of the record that no check looks into. */
  datatype Observation = Observation(contract: string, candidate: Candidate, content: D.Value)

  datatype Snapshot = Snapshot(
    contract: string, snapshotId: string, assetId: string, revisions: D.Value, sources: seq<SourceRecord>,
    bindings: seq<Binding>, links: seq<Link>, facts: seq<Fact>, retained: Option<seq<Observation>>,
    services: seq<Service>, capabilities: seq<Capability>)

  datatype EvaluatedFact = EvaluatedFact(
    candidateId: string, candidateRevision: string, freshness: string, availability: string)

  datatype Evaluation = Evaluation(
    contract: string, snapshotId: string, revisions: D.Value, context: D.Value, facts: seq<EvaluatedFact>,
    retained: Option<seq<Observation>>, digest: string)

  datatype Manifest = Manifest(
    targetId: string, targetVersion: string, kernelVersion: string, packs: seq<Pack>, mappingRevision: string)

  datatype Item = Item(kind: string, itemId: string)

  datatype Disposition = Disposition(
    item: Item, outcome: string, sourceKeys: seq<Key>, losses: seq<D.Value>, reason: Option<string>)

  datatype Projection = Projection(
    contract: string, snapshotId: string, revisions: D.Value, manifest: Manifest, requested: seq<Item>,
    dispositions: seq<Disposition>)

  datatype Selection = Selection(
    contract: string, snapshotId: string, revisions: D.Value, digest: string, context: D.Value, key: Key,
    selectedCandidate: string, candidateRevision: string, presentationOnly: bool)

  datatype Asset = Asset(
    assetId: string, snapshot: Option<Snapshot>, evaluation: Option<Evaluation>, projection: Option<Projection>,
    selections: seq<Selection>, unavailableReason: Option<string>)

  function Listed<T>(items: Option<seq<T>>): seq<T> { if items.Some? then items.value else [] }

  // ---- provenance: sources, bindings, services, capabilities ----

  function Identities(sources: seq<SourceRecord>): seq<Source> {
    seq(|sources|, i requires 0 <= i < |sources| => sources[i].identity)
  }

  method CheckSources(sources: seq<SourceRecord>) returns (ok: bool, known: set<Source>)
    ensures ok <==> Distinct(Identities(sources))
    ensures ok ==> known == Elements(Identities(sources))
  {
    known := {};
    for i := 0 to |sources|
      invariant known == Elements(Identities(sources[..i]))
      invariant Distinct(Identities(sources[..i]))
    {
      var identity := sources[i].identity;
      assert Identities(sources[..i + 1]) == Identities(sources[..i]) + [identity];
      if identity in known {
        ghost var j :| 0 <= j < i && Identities(sources[..i])[j] == identity;
        assert Identities(sources)[j] == Identities(sources)[i];
        return false, known;
      }
      known := known + {identity};
    }
    ok := true;
    assert sources[..|sources|] == sources;
  }

  predicate BindingSound(assetId: string, sources: seq<Source>, b: Binding) { b.assetId == assetId && b.source in sources }

  predicate BindingsSound(assetId: string, sources: seq<Source>, bindings: seq<Binding>) {
    && (forall b | b in bindings :: BindingSound(assetId, sources, b))
    && (forall i, j :: 0 <= i < j < |bindings| ==> bindings[i].bindingId != bindings[j].bindingId)
  }

  /** The table finds exactly the listed bindings, by their id. */
  predicate FindsBindings(table: map<string, Binding>, bindings: seq<Binding>) {
    && (forall b | b in bindings :: b.bindingId in table && table[b.bindingId] == b)
    && (forall id | id in table :: table[id].bindingId == id && table[id] in bindings)
  }

  method CheckBindings(assetId: string, known: set<Source>, ghost sources: seq<Source>, bindings: seq<Binding>)
    returns (ok: bool, table: map<string, Binding>)
    requires known == Elements(sources)
    ensures ok <==> BindingsSound(assetId, sources, bindings)
    ensures ok ==> FindsBindings(table, bindings)
  {
    table := map[];
    for i := 0 to |bindings|
      invariant FindsBindings(table, bindings[..i])
      invariant BindingsSound(assetId, sources, bindings[..i])
    {
      var b := bindings[i];
      assert bindings[..i + 1] == bindings[..i] + [b];
      if b.assetId != assetId || b.source !in known {
        assert b in bindings;
        return false, table;
      }
      if b.bindingId in table {
        assert table[b.bindingId] in bindings[..i];
        return false, table;
      }
      table := table[b.bindingId := b];
    }
    ok := true;
    assert bindings[..|bindings|] == bindings;
  }

  predicate Serves(b: Binding, s: Service) {
    b.bindingId == s.bindingId && b.source.sourceEpochId == s.sourceEpochId && b.driverGeneration == s.driverGeneration
  }

  predicate ServiceSound(bindings: seq<Binding>, s: Service) { exists b :: b in bindings && Serves(b, s) }

  predicate ServicesSound(bindings: seq<Binding>, services: seq<Service>) {
    && (forall s | s in services :: ServiceSound(bindings, s))
    && (forall i, j :: 0 <= i < j < |services| ==> services[i].instanceId != services[j].instanceId)
  }

  lemma ServiceLookup(table: map<string, Binding>, bindings: seq<Binding>, s: Service)
    requires FindsBindings(table, bindings)
    ensures s.bindingId in table && Serves(table[s.bindingId], s) <==> ServiceSound(bindings, s)
  {
  }

  predicate FindsServices(table: map<string, Service>, services: seq<Service>) {
    && (forall s | s in services :: s.instanceId in table && table[s.instanceId] == s)
    && (forall id | id in table :: table[id].instanceId == id && table[id] in services)
  }

  method CheckServices(table: map<string, Binding>, ghost bindings: seq<Binding>, services: seq<Service>)
    returns (ok: bool, found: map<string, Service>)
    requires FindsBindings(table, bindings)
    ensures ok <==> ServicesSound(bindings, services)
    ensures ok ==> FindsServices(found, services)
  {
    found := map[];
    for i := 0 to |services|
      invariant FindsServices(found, services[..i])
      invariant ServicesSound(bindings, services[..i])
    {
      var s := services[i];
      assert services[..i + 1] == services[..i] + [s];
      ServiceLookup(table, bindings, s);
      if s.instanceId in found {
        assert found[s.instanceId] in services[..i];
        return false, found;
      }
      if s.bindingId !in table || !Serves(table[s.bindingId], s) {
        assert s in services;
        return false, found;
      }
      found := found[s.instanceId := s];
    }
    ok := true;
    assert services[..|services|] == services;
  }

  predicate Offers(s: Service, c: Capability) {
    && s.instanceId == c.serviceInstance && s.bindingId == c.bindingId
    && s.sourceEpochId == c.sourceEpochId && s.driverGeneration == c.driverGeneration
  }

  predicate CapabilitySound(services: seq<Service>, c: Capability) { exists s :: s in services && Offers(s, c) }

  predicate CapabilitiesSound(services: seq<Service>, capabilities: seq<Capability>) {
    && (forall i :: 0 <= i < |capabilities| ==> CapabilitySound(services, capabilities[i]))
    && (forall i, j :: 0 <= i < j < |capabilities| ==> capabilities[i].instanceId != capabilities[j].instanceId)
  }

  lemma CapabilityLookup(found: map<string, Service>, services: seq<Service>, c: Capability)
    requires FindsServices(found, services)
    ensures c.serviceInstance in found && Offers(found[c.serviceInstance], c) <==> CapabilitySound(services, c)
  {
  }

  method CheckCapabilities(found: map<string, Service>, ghost services: seq<Service>, capabilities: seq<Capability>)
    returns (ok: bool)
    requires FindsServices(found, services)
    ensures ok <==> CapabilitiesSound(services, capabilities)
  {
    var ids: set<string> := {};
    for i := 0 to |capabilities|
      invariant ids == set j | 0 <= j < i :: capabilities[j].instanceId
      invariant CapabilitiesSound(services, capabilities[..i])
    {
      var c := capabilities[i];
      CapabilityLookup(found, services, c);
      if c.instanceId in ids || c.serviceInstance !in found || !Offers(found[c.serviceInstance], c) { return false; }
      ids := ids + {c.instanceId};
    }
    ok := true;
    assert capabilities[..|capabilities|] == capabilities;
  }

  // ---- facts and their candidates ----

  predicate EpochKnown(sources: seq<Source>, epoch: string) {
    exists source :: source in sources && source.sourceEpochId == epoch
  }

  predicate Observes(b: Binding, c: Candidate) {
    && c.bindingId == Some(b.bindingId)
    && (c.sourceEpochId.Some? ==> c.sourceEpochId.value == b.source.sourceEpochId)
    && (c.driverGeneration.Some? ==> c.driverGeneration.value == b.driverGeneration)
  }

  /** The provenance that a candidate names, as far as it names any, is that of a listed binding and source. */
  predicate CandidateSound(sources: seq<Source>, bindings: seq<Binding>, c: Candidate) {
    && (c.sourceEpochId.Some? ==> EpochKnown(sources, c.sourceEpochId.value))
    && (c.bindingId.Some? ==> exists b :: b in bindings && Observes(b, c))
  }

  predicate CandidatesSound(sources: seq<Source>, bindings: seq<Binding>, key: Key, candidates: seq<Candidate>) {
    forall c | c in candidates :: c.key == key && CandidateSound(sources, bindings, c)
  }

  predicate ConflictsResolve(fact: Fact) {
    forall i, k :: 0 <= i < |fact.conflicts| && 0 <= k < |fact.conflicts[i]|
      ==> exists j :: 0 <= j < |fact.candidates| && fact.candidates[j].candidateId == fact.conflicts[i][k]
  }

  predicate FactSound(assetId: string, sources: seq<Source>, bindings: seq<Binding>, fact: Fact) {
    && fact.assetId == assetId
    && CandidatesSound(sources, bindings, fact.key, fact.candidates)
    && ConflictsResolve(fact)
  }

  function Keys(facts: seq<Fact>): seq<Key> { seq(|facts|, i requires 0 <= i < |facts| => facts[i].key) }

  function AllCandidates(facts: seq<Fact>): seq<Candidate> {
    if facts == [] then [] else AllCandidates(facts[..|facts| - 1]) + facts[|facts| - 1].candidates
  }

  predicate CandidateIdsDiffer(candidates: seq<Candidate>) {
    forall i, j :: 0 <= i < j < |candidates| ==> candidates[i].candidateId != candidates[j].candidateId
  }

  predicate FactsSound(assetId: string, sources: seq<Source>, bindings: seq<Binding>, facts: seq<Fact>) {
    && (forall fact | fact in facts :: FactSound(assetId, sources, bindings, fact))
    && Distinct(Keys(facts))
    && CandidateIdsDiffer(AllCandidates(facts))
  }

  predicate FindsCandidates(table: map<string, Candidate>, candidates: seq<Candidate>) {
    && (forall c | c in candidates :: c.candidateId in table && table[c.candidateId] == c)
    && (forall id | id in table :: table[id].candidateId == id && table[id] in candidates)
  }

  lemma CandidateLookup(sources: seq<Source>, table: map<string, Binding>, bindings: seq<Binding>, c: Candidate)
    requires FindsBindings(table, bindings) && c.bindingId.Some?
    ensures c.bindingId.value in table && Observes(table[c.bindingId.value], c)
      <==> exists b :: b in bindings && Observes(b, c)
  {
  }

  lemma OneMoreCandidate(table: map<string, Candidate>, candidates: seq<Candidate>, c: Candidate)
    requires FindsCandidates(table, candidates) && CandidateIdsDiffer(candidates)
    ensures c.candidateId in table <==> !CandidateIdsDiffer(candidates + [c])
    ensures c.candidateId !in table ==> FindsCandidates(table[c.candidateId := c], candidates + [c])
  {
    var more := candidates + [c];
    if c.candidateId in table {
      var i :| 0 <= i < |candidates| && candidates[i] == table[c.candidateId];
      assert more[i].candidateId == more[|candidates|].candidateId;
    } else {
      assert forall i | 0 <= i < |candidates| :: candidates[i] in candidates;
    }
  }

  lemma CandidateIdsDifferInPrefix(some: seq<Candidate>, more: seq<Candidate>)
    requires some <= more && CandidateIdsDiffer(more)
    ensures CandidateIdsDiffer(some)
  {
  }

  method CheckProvenance(known: set<Source>, ghost sources: seq<Source>, table: map<string, Binding>,
                         ghost bindings: seq<Binding>, c: Candidate)
    returns (ok: bool)
    requires known == Elements(sources) && FindsBindings(table, bindings)
    requires forall b | b in bindings :: b.source in sources
    ensures ok <==> CandidateSound(sources, bindings, c)
  {
    var epochs := set source | source in known :: source.sourceEpochId;
    if c.sourceEpochId.Some? && c.sourceEpochId.value !in epochs { return false; }
    if c.bindingId.Some? {
      CandidateLookup(sources, table, bindings, c);
      if c.bindingId.value !in table { return false; }
      var b := table[c.bindingId.value];
      assert b in bindings;
      if b.source !in known || !Observes(b, c) { return false; }
    }
    ok := true;
  }

  /** The inner loop: one fact's candidates join the table of all candidates seen so far. */
  method CheckCandidates(known: set<Source>, ghost sources: seq<Source>, table: map<string, Binding>,
                         ghost bindings: seq<Binding>, fact: Fact, before: map<string, Candidate>,
                         ghost earlier: seq<Candidate>)
    returns (ok: bool, after: map<string, Candidate>)
    requires known == Elements(sources) && FindsBindings(table, bindings)
    requires forall b | b in bindings :: b.source in sources
    requires FindsCandidates(before, earlier) && CandidateIdsDiffer(earlier)
    ensures ok
      <==> CandidateIdsDiffer(earlier + fact.candidates) && CandidatesSound(sources, bindings, fact.key, fact.candidates)
    ensures ok ==> FindsCandidates(after, earlier + fact.candidates)
  {
    after := before;
    assert earlier + fact.candidates[..0] == earlier;
    for j := 0 to |fact.candidates|
      invariant FindsCandidates(after, earlier + fact.candidates[..j])
      invariant CandidateIdsDiffer(earlier + fact.candidates[..j])
      invariant CandidatesSound(sources, bindings, fact.key, fact.candidates[..j])
    {
      var c := fact.candidates[j];
      CandidatesGrow(earlier, fact.candidates, j);
      OneMoreCandidate(after, earlier + fact.candidates[..j], c);
      if c.candidateId in after { return false, after; }
      var traced := CheckProvenance(known, sources, table, bindings, c);
      if c.key != fact.key || !traced {
        assert c in fact.candidates;
        return false, after;
      }
      after := after[c.candidateId := c];
    }
    ok := true;
    assert fact.candidates[..|fact.candidates|] == fact.candidates;
  }

  lemma CandidatesGrow(earlier: seq<Candidate>, candidates: seq<Candidate>, j: nat)
    requires j < |candidates|
    ensures candidates[..j + 1] == candidates[..j] + [candidates[j]]
    ensures earlier + candidates[..j + 1] == earlier + candidates[..j] + [candidates[j]]
    ensures CandidateIdsDiffer(earlier + candidates) ==> CandidateIdsDiffer(earlier + candidates[..j + 1])
  {
    if CandidateIdsDiffer(earlier + candidates) {
      CandidateIdsDifferInPrefix(earlier + candidates[..j + 1], earlier + candidates);
    }
  }

  method CheckFacts(assetId: string, known: set<Source>, ghost sources: seq<Source>, table: map<string, Binding>,
                    ghost bindings: seq<Binding>, facts: seq<Fact>)
    returns (ok: bool, keys: seq<Key>, candidates: map<string, Candidate>)
    requires known == Elements(sources) && FindsBindings(table, bindings)
    requires forall b | b in bindings :: b.source in sources
    ensures ok <==> FactsSound(assetId, sources, bindings, facts)
    ensures ok ==> keys == Keys(facts) && FindsCandidates(candidates, AllCandidates(facts))
  {
    keys, candidates := [], map[];
    for i := 0 to |facts|
      invariant keys == Keys(facts[..i])
      invariant FindsCandidates(candidates, AllCandidates(facts[..i]))
      invariant FactsSound(assetId, sources, bindings, facts[..i])
    {
      var fact := facts[i];
      FactsGrow(assetId, sources, bindings, facts, i);
      if fact.assetId != assetId || fact.key in keys { return false, keys, candidates; }
      keys := keys + [fact.key];
      var fits;
      fits, candidates := CheckCandidates(known, sources, table, bindings, fact, candidates, AllCandidates(facts[..i]));
      if !fits || !ConflictsResolve(fact) { return false, keys, candidates; }
    }
    ok := true;
    assert facts[..|facts|] == facts;
  }

  /** What the loop over facts checks at each fact, and that failing it once is failing for good. */
  lemma FactsGrow(assetId: string, sources: seq<Source>, bindings: seq<Binding>, facts: seq<Fact>, i: nat)
    requires i < |facts| && FactsSound(assetId, sources, bindings, facts[..i])
    ensures Keys(facts[..i + 1]) == Keys(facts[..i]) + [facts[i].key]
    ensures AllCandidates(facts[..i + 1]) == AllCandidates(facts[..i]) + facts[i].candidates
    ensures FactsSound(assetId, sources, bindings, facts[..i + 1])
      <==> (FactSound(assetId, sources, bindings, facts[i]) && facts[i].key !in Keys(facts[..i])
            && CandidateIdsDiffer(AllCandidates(facts[..i]) + facts[i].candidates))
    ensures FactsSound(assetId, sources, bindings, facts) ==> FactsSound(assetId, sources, bindings, facts[..i + 1])
  {
    assert facts[..i + 1][..i] == facts[..i];
    assert facts[..i + 1] == facts[..i] + [facts[i]];
    assert Keys(facts[..i + 1]) == Keys(facts[..i]) + [facts[i].key];
    DistinctGrows(Keys(facts[..i]), facts[i].key);
    if FactsSound(assetId, sources, bindings, facts) {
      assert Keys(facts[..i + 1]) <= Keys(facts);
      CandidatesOfPrefix(facts, i + 1);
      CandidateIdsDifferInPrefix(AllCandidates(facts[..i + 1]), AllCandidates(facts));
    }
  }

  lemma {:induction false} CandidatesOfPrefix(facts: seq<Fact>, n: nat)
    requires n <= |facts|
    ensures AllCandidates(facts[..n]) <= AllCandidates(facts)
    decreases |facts|
  {
    if n < |facts| {
      var front := facts[..|facts| - 1];
      assert front[..n] == facts[..n];
      CandidatesOfPrefix(front, n);
    } else {
      assert facts[..n] == facts;
    }
  }

  // ---- evaluation ----

  predicate Evaluates(fact: EvaluatedFact, c: Candidate) {
    fact.candidateId == c.candidateId && fact.candidateRevision == c.revision
  }

  predicate IsEvaluated(facts: seq<EvaluatedFact>, c: Candidate) { exists fact :: fact in facts && Evaluates(fact, c) }

  predicate EvaluationSound(candidates: seq<Candidate>, facts: seq<EvaluatedFact>) {
    && (forall i, j :: 0 <= i < j < |facts| ==> facts[i].candidateId != facts[j].candidateId)
    && (forall fact | fact in facts :: exists c :: c in candidates && Evaluates(fact, c))
    && (forall c | c in candidates :: IsEvaluated(facts, c))
  }

  lemma EvaluationLookup(table: map<string, Candidate>, candidates: seq<Candidate>, fact: EvaluatedFact)
    requires FindsCandidates(table, candidates)
    ensures fact.candidateId in table && Evaluates(fact, table[fact.candidateId])
      <==> exists c :: c in candidates && Evaluates(fact, c)
  {
  }

  lemma AllEvaluated(table: map<string, Candidate>, candidates: seq<Candidate>, facts: seq<EvaluatedFact>)
    requires FindsCandidates(table, candidates)
    requires forall fact | fact in facts :: fact.candidateId in table && Evaluates(fact, table[fact.candidateId])
    ensures (set fact | fact in facts :: fact.candidateId) == table.Keys
      <==> forall c | c in candidates :: IsEvaluated(facts, c)
  {
    var ids := set fact | fact in facts :: fact.candidateId;
    if ids == table.Keys {
      forall c | c in candidates
        ensures IsEvaluated(facts, c)
      {
        assert c.candidateId in ids;
      }
    }
    if forall c | c in candidates :: IsEvaluated(facts, c) {
      forall id | id in table.Keys
        ensures id in ids
      {
        assert IsEvaluated(facts, table[id]);
      }
    }
  }

  method CheckEvaluation(table: map<string, Candidate>, ghost candidates: seq<Candidate>, facts: seq<EvaluatedFact>)
    returns (ok: bool)
    requires FindsCandidates(table, candidates)
    ensures ok <==> EvaluationSound(candidates, facts)
  {
    var evaluated: set<string> := {};
    for i := 0 to |facts|
      invariant evaluated == set fact | fact in facts[..i] :: fact.candidateId
      invariant forall j, k :: 0 <= j < k < i ==> facts[j].candidateId != facts[k].candidateId
      invariant forall fact | fact in facts[..i] :: fact.candidateId in table && Evaluates(fact, table[fact.candidateId])
    {
      var fact := facts[i];
      assert facts[..i + 1] == facts[..i] + [fact];
      EvaluationLookup(table, candidates, fact);
      if fact.candidateId in evaluated {
        assert exists j :: 0 <= j < i && facts[j].candidateId == facts[i].candidateId;
        return false;
      }
      if fact.candidateId !in table || !Evaluates(fact, table[fact.candidateId]) {
        assert fact in facts;
        return false;
      }
      evaluated := evaluated + {fact.candidateId};
    }
    assert facts[..|facts|] == facts;
    AllEvaluated(table, candidates, facts);
    ok := evaluated == table.Keys;
  }

  // ---- retained observations ----

  const RETAINED_CONTRACT := "helianthus.semantic.retained-observation/v1"

  function Identity(o: Observation): (string, string) { (o.candidate.candidateId, o.candidate.revision) }

  predicate RetainedSound(listed: seq<Observation>) {
    && (forall o | o in listed :: o.contract == RETAINED_CONTRACT)
    && (forall i, j :: 0 <= i < j < |listed| ==> Identity(listed[i]) != Identity(listed[j]))
  }

  predicate FindsRetained(table: map<(string, string), Observation>, listed: seq<Observation>) {
    && (forall o | o in listed :: Identity(o) in table && table[Identity(o)] == o)
    && (forall id | id in table :: Identity(table[id]) == id && table[id] in listed)
  }

  method CheckRetained(listed: seq<Observation>) returns (ok: bool, table: map<(string, string), Observation>)
    ensures ok <==> RetainedSound(listed)
    ensures ok ==> FindsRetained(table, listed)
  {
    table := map[];
    for i := 0 to |listed|
      invariant FindsRetained(table, listed[..i])
      invariant RetainedSound(listed[..i])
    {
      var o := listed[i];
      assert listed[..i + 1] == listed[..i] + [o];
      if o.contract != RETAINED_CONTRACT { return false, table; }
      if Identity(o) in table {
        assert table[Identity(o)] in listed[..i];
        return false, table;
      }
      table := table[Identity(o) := o];
    }
    ok := true;
    assert listed[..|listed|] == listed;
  }

  method CheckEvaluatedRetained(table: map<(string, string), Observation>, ghost listed: seq<Observation>,
                                evaluated: seq<Observation>)
    returns (ok: bool)
    requires FindsRetained(table, listed) && RetainedSound(listed)
    ensures ok <==> Distinct(evaluated) && Elements(evaluated) == Elements(listed)
  {
    var ids: set<(string, string)> := {};
    for i := 0 to |evaluated|
      invariant ids == set j | 0 <= j < i :: Identity(evaluated[j])
      invariant Distinct(evaluated[..i])
      invariant forall j :: 0 <= j < i ==> evaluated[j] in listed
    {
      var o := evaluated[i];
      if o.contract != RETAINED_CONTRACT || Identity(o) !in table || o != table[Identity(o)] {
        assert o in Elements(evaluated) && o !in listed;
        return false;
      }
      if Identity(o) in ids {
        var j :| 0 <= j < i && Identity(evaluated[j]) == Identity(o);
        assert evaluated[j] == table[Identity(o)] == evaluated[i];
        return false;
      }
      ids := ids + {Identity(o)};
    }
    assert evaluated[..|evaluated|] == evaluated;
    ok := ids == table.Keys;
    AllIdentified(table, listed, evaluated);
  }

  lemma AllIdentified(table: map<(string, string), Observation>, listed: seq<Observation>, evaluated: seq<Observation>)
    requires FindsRetained(table, listed) && forall o | o in evaluated :: o in listed
    ensures (set j | 0 <= j < |evaluated| :: Identity(evaluated[j])) == table.Keys
      <==> Elements(evaluated) == Elements(listed)
  {
    var ids := set j | 0 <= j < |evaluated| :: Identity(evaluated[j]);
    if ids == table.Keys {
      forall o | o in listed
        ensures o in evaluated
      {
        assert Identity(o) in ids;
        var j :| 0 <= j < |evaluated| && Identity(evaluated[j]) == Identity(o);
        assert evaluated[j] in listed;
      }
      assert forall o :: o in Elements(evaluated) <==> o in Elements(listed);
    }
    if Elements(evaluated) == Elements(listed) {
      forall id | id in table
        ensures id in ids
      {
        assert table[id] in Elements(listed);
        assert table[id] in evaluated;
      }
    }
  }

  // ---- the projection's accounting ----

  predicate AllDiffer<T(==)>(s: seq<T>)
    ensures AllDiffer(s) <==> Distinct(s)
  {
    SizesTell(s);
    |Elements(s)| == |s|
  }

  function Items(dispositions: seq<Disposition>): seq<Item> {
    seq(|dispositions|, i requires 0 <= i < |dispositions| => dispositions[i].item)
  }

  predicate ItemsAccounted(requested: seq<Item>, dispositions: seq<Disposition>) {
    AllDiffer(requested) && AllDiffer(Items(dispositions)) && Elements(requested) == Elements(Items(dispositions))
  }

  function FactPacks(facts: seq<Fact>): set<Pack> {
    set fact | fact in facts :: Pack(fact.key.packId, fact.key.packVersion)
  }

  function ServicePacks(services: seq<Service>): set<Pack> { set service | service in services :: service.pack }

  function CapabilityPacks(capabilities: seq<Capability>): set<Pack> {
    set capability | capability in capabilities :: capability.pack
  }

  predicate PacksSound(assetId: string, s: Snapshot, packs: seq<Pack>) {
    && (forall service | service in s.services :: service.assetId == assetId)
    && (forall capability | capability in s.capabilities :: capability.assetId == assetId)
    && AllDiffer(packs)
    && FactPacks(s.facts) + ServicePacks(s.services) + CapabilityPacks(s.capabilities) <= Elements(packs)
  }

  method CheckPacks(assetId: string, s: Snapshot, packs: seq<Pack>) returns (ok: bool)
    ensures ok <==> PacksSound(assetId, s, packs)
  {
    var applicable := FactPacks(s.facts);
    for i := 0 to |s.services|
      invariant forall service | service in s.services[..i] :: service.assetId == assetId
      invariant applicable == FactPacks(s.facts) + ServicePacks(s.services[..i])
    {
      assert s.services[..i + 1] == s.services[..i] + [s.services[i]];
      if s.services[i].assetId != assetId { return false; }
      applicable := applicable + {s.services[i].pack};
    }
    assert s.services[..|s.services|] == s.services;
    for i := 0 to |s.capabilities|
      invariant forall capability | capability in s.capabilities[..i] :: capability.assetId == assetId
      invariant applicable == FactPacks(s.facts) + ServicePacks(s.services) + CapabilityPacks(s.capabilities[..i])
    {
      assert s.capabilities[..i + 1] == s.capabilities[..i] + [s.capabilities[i]];
      if s.capabilities[i].assetId != assetId { return false; }
      applicable := applicable + {s.capabilities[i].pack};
    }
    assert s.capabilities[..|s.capabilities|] == s.capabilities;
    ok := AllDiffer(packs) && applicable <= Elements(packs);
  }

  predicate ClaimsRequested(s: Snapshot, requested: seq<Item>) {
    && (forall fact | fact in s.facts :: Item("fact", fact.key.factId) in requested)
    && (forall capability | capability in s.capabilities :: Item("capability", capability.definitionId) in requested)
  }

  /** The keys of one fact, in order. */
  function KeysOf(keys: seq<Key>, factId: string): seq<Key> {
    if keys == [] then []
    else
      var front, last := keys[..|keys| - 1], keys[|keys| - 1];
      KeysOf(front, factId) + if last.factId == factId then [last] else []
  }

  const OUTCOMES := {"exact", "transformed", "withheld", "unrepresentable", "unsupported", "unknown"}

  predicate LossSound(d: Disposition) {
    && d.outcome in OUTCOMES
    && (d.outcome == "exact" ==> d.losses == [])
    && (d.outcome == "transformed" ==> d.losses != [])
    && (d.outcome in OUTCOMES - {"exact", "transformed"} ==> d.reason.Some? && d.reason.value != "")
  }

  predicate SourceKeysSound(keys: seq<Key>, d: Disposition) {
    && |d.sourceKeys| <= 32
    && (forall k | k in d.sourceKeys :: k in keys)
    && (d.item.kind == "fact" ==>
          && |d.sourceKeys| == |KeysOf(keys, d.item.itemId)|
          && forall k | k in KeysOf(keys, d.item.itemId) :: k in d.sourceKeys)
  }

  predicate DispositionsSound(keys: seq<Key>, dispositions: seq<Disposition>) {
    forall d | d in dispositions :: SourceKeysSound(keys, d) && LossSound(d)
  }

  // ---- the whole asset ----

  predicate RevisionsAgree(s: Snapshot, e: Evaluation, p: Projection, selections: seq<Selection>) {
    && e.snapshotId == s.snapshotId && e.revisions == s.revisions
    && p.snapshotId == s.snapshotId && p.revisions == s.revisions
    && forall x | x in selections :: x.snapshotId == s.snapshotId && x.revisions == s.revisions
  }

  predicate ContractsSupported(s: Snapshot, e: Evaluation, p: Projection) {
    && s.contract == "helianthus.semantic.kernel/v1"
    && e.contract == "helianthus.semantic.evaluation/v1"
    && p.contract == "helianthus.semantic.projection/v1"
    && p.manifest.targetId == "target:semantic-snapshot-read"
    && p.manifest.targetVersion == "1"
    && p.manifest.kernelVersion == s.contract
    && p.manifest.mappingRevision == "1"
  }

  predicate LinksSound(assetId: string, bindings: seq<Binding>, links: seq<Link>) {
    forall link | link in links :: link.assetId == assetId && exists b :: b in bindings && b.bindingId == link.bindingId
  }

  predicate Chooses(selection: Selection, c: Candidate) {
    && c.candidateId == selection.selectedCandidate
    && c.revision == selection.candidateRevision
    && c.key == selection.key
  }

  predicate SelectionSound(candidates: seq<Candidate>, e: Evaluation, selection: Selection) {
    && selection.contract == "helianthus.semantic.selection/v1"
    && (exists c :: c in candidates && Chooses(selection, c))
    && selection.context == e.context && selection.digest == e.digest && selection.presentationOnly
  }

  const UNAVAILABLE_REASONS := {
    "semantic.read.reason.asset_unknown", "semantic.read.reason.snapshot_unavailable",
    "semantic.read.reason.source_unavailable", "semantic.read.reason.publication_withheld" }

  predicate ProvenanceAccepted(assetId: string, s: Snapshot) {
    && s.assetId == assetId
    && Distinct(Identities(s.sources))
    && BindingsSound(assetId, Identities(s.sources), s.bindings)
    && ServicesSound(s.bindings, s.services)
    && CapabilitiesSound(s.services, s.capabilities)
    && LinksSound(assetId, s.bindings, s.links)
  }

  predicate EvidenceAccepted(assetId: string, s: Snapshot, e: Evaluation, selections: seq<Selection>) {
    && FactsSound(assetId, Identities(s.sources), s.bindings, s.facts)
    && EvaluationSound(AllCandidates(s.facts), e.facts)
    && RetainedSound(Listed(s.retained))
    && Distinct(Listed(e.retained)) && Elements(Listed(e.retained)) == Elements(Listed(s.retained))
    && forall x | x in selections :: SelectionSound(AllCandidates(s.facts), e, x)
  }

  predicate ProjectionAccepted(assetId: string, s: Snapshot, p: Projection) {
    && ItemsAccounted(p.requested, p.dispositions)
    && PacksSound(assetId, s, p.manifest.packs)
    && ClaimsRequested(s, p.requested)
    && DispositionsSound(Keys(s.facts), p.dispositions)
  }

  predicate ReadableAccepted(assetId: string, s: Snapshot, e: Evaluation, p: Projection, selections: seq<Selection>) {
    && ProvenanceAccepted(assetId, s)
    && RevisionsAgree(s, e, p, selections)
    && ContractsSupported(s, e, p)
    && EvidenceAccepted(assetId, s, e, selections)
    && ProjectionAccepted(assetId, s, p)
  }

  predicate Accepted(asset: Asset) {
    if asset.unavailableReason.Some? then
      && asset.unavailableReason.value in UNAVAILABLE_REASONS
      && asset.snapshot.None? && asset.evaluation.None? && asset.projection.None? && asset.selections == []
    else
      && asset.snapshot.Some? && asset.evaluation.Some? && asset.projection.Some?
      && ReadableAccepted(asset.assetId, asset.snapshot.value, asset.evaluation.value, asset.projection.value,
                          asset.selections)
  }

  method CheckLinks(assetId: string, table: map<string, Binding>, ghost bindings: seq<Binding>, links: seq<Link>)
    returns (ok: bool)
    requires FindsBindings(table, bindings)
    ensures ok <==> LinksSound(assetId, bindings, links)
  {
    ok := forall link | link in links :: link.assetId == assetId && link.bindingId in table;
  }

  method CheckSelections(table: map<string, Candidate>, ghost candidates: seq<Candidate>, e: Evaluation,
                         selections: seq<Selection>)
    returns (ok: bool)
    requires FindsCandidates(table, candidates)
    ensures ok <==> forall x | x in selections :: SelectionSound(candidates, e, x)
  {
    ok := forall x | x in selections ::
      && x.contract == "helianthus.semantic.selection/v1"
      && x.selectedCandidate in table && Chooses(x, table[x.selectedCandidate])
      && x.context == e.context && x.digest == e.digest && x.presentationOnly;
  }

  method ValidateAsset(asset: Asset) returns (ok: bool)
    ensures ok <==> Accepted(asset)
  {
    if asset.unavailableReason.Some? {
      return asset.unavailableReason.value in UNAVAILABLE_REASONS
          && asset.snapshot.None? && asset.evaluation.None? && asset.projection.None? && asset.selections == [];
    }
    if asset.snapshot.None? || asset.evaluation.None? || asset.projection.None? { return false; }
    ok := ValidateReadable(asset.assetId, asset.snapshot.value, asset.evaluation.value, asset.projection.value,
                           asset.selections);
  }

  method ValidateReadable(assetId: string, s: Snapshot, e: Evaluation, p: Projection, selections: seq<Selection>)
    returns (ok: bool)
    ensures ok <==> ReadableAccepted(assetId, s, e, p, selections)
  {
    if s.assetId != assetId { return false; }
    var known, bindings, services, keys, candidates, retained;
    ok, known := CheckSources(s.sources);
    if !ok { return; }
    ok, bindings := CheckBindings(assetId, known, Identities(s.sources), s.bindings);
    if !ok { return; }
    ok, services := CheckServices(bindings, s.bindings, s.services);
    if !ok { return; }
    ok := CheckCapabilities(services, s.services, s.capabilities);
    if !ok { return; }
    ok := CheckLinks(assetId, bindings, s.bindings, s.links);
    if !ok { return; }
    assert ProvenanceAccepted(assetId, s);
    if !RevisionsAgree(s, e, p, selections) || !ContractsSupported(s, e, p) { return false; }
    ok, keys, candidates := CheckFacts(assetId, known, Identities(s.sources), bindings, s.bindings, s.facts);
    if !ok { return; }
    ok := CheckEvaluation(candidates, AllCandidates(s.facts), e.facts);
    if !ok { return; }
    ok, retained := CheckRetained(Listed(s.retained));
    if !ok { return; }
    ok := CheckEvaluatedRetained(retained, Listed(s.retained), Listed(e.retained));
    if !ok { return; }
    ok := CheckSelections(candidates, AllCandidates(s.facts), e, selections);
    if !ok { return; }
    assert EvidenceAccepted(assetId, s, e, selections);
    if !ItemsAccounted(p.requested, p.dispositions) { return false; }
    ok := CheckPacks(assetId, s, p.manifest.packs);
    if !ok { return; }
    ok := ClaimsRequested(s, p.requested) && DispositionsSound(keys, p.dispositions);
  }

  // ---- what acceptance guarantees ----

  /** The keys that the fact dispositions account for, in the order in which they do. */
  function AccountedKeys(dispositions: seq<Disposition>): seq<Key> {
    if dispositions == [] then []
    else
      var front, last := dispositions[..|dispositions| - 1], dispositions[|dispositions| - 1];
      AccountedKeys(front) + if last.item.kind == "fact" then last.sourceKeys else []
  }

  function FactItems(dispositions: seq<Disposition>): set<string> {
    set d | d in dispositions && d.item.kind == "fact" :: d.item.itemId
  }

  /** The keys of the facts in `ids`, in order. */
  function KeysIn(keys: seq<Key>, ids: set<string>): seq<Key> {
    if keys == [] then []
    else
      var front, last := keys[..|keys| - 1], keys[|keys| - 1];
      KeysIn(front, ids) + if last.factId in ids then [last] else []
  }

  lemma {:induction false} KeysOfMembers(keys: seq<Key>, factId: string)
    ensures forall k :: k in KeysOf(keys, factId) <==> k in keys && k.factId == factId
    ensures Distinct(keys) ==> Distinct(KeysOf(keys, factId))
  {
    if keys != [] {
      var front, last := keys[..|keys| - 1], keys[|keys| - 1];
      assert keys == front + [last];
      KeysOfMembers(front, factId);
      DistinctGrows(front, last);
      DistinctGrows(KeysOf(front, factId), last);
    }
  }

  lemma {:induction false} KeysInGrow(keys: seq<Key>, ids: set<string>, id: string)
    requires id !in ids
    ensures multiset(KeysIn(keys, ids + {id})) == multiset(KeysIn(keys, ids)) + multiset(KeysOf(keys, id))
  {
    if keys != [] { KeysInGrow(keys[..|keys| - 1], ids, id); }
  }

  lemma {:induction false} KeysInAll(keys: seq<Key>, ids: set<string>)
    requires forall k | k in keys :: k.factId in ids
    ensures KeysIn(keys, ids) == keys
  {
    if keys != [] {
      var front, last := keys[..|keys| - 1], keys[|keys| - 1];
      assert keys == front + [last];
      KeysInAll(front, ids);
    }
  }

  lemma {:induction false} KeysInNone(keys: seq<Key>)
    ensures KeysIn(keys, {}) == []
  {
    if keys != [] { KeysInNone(keys[..|keys| - 1]); }
  }

  /** A fact disposition lists exactly the keys of its own fact, each once. */
  lemma DispositionListsItsFact(keys: seq<Key>, d: Disposition)
    requires Distinct(keys) && SourceKeysSound(keys, d) && d.item.kind == "fact"
    ensures multiset(d.sourceKeys) == multiset(KeysOf(keys, d.item.itemId))
    ensures Distinct(d.sourceKeys)
    ensures forall k :: k in d.sourceKeys <==> k in keys && k.factId == d.item.itemId
  {
    var expected := KeysOf(keys, d.item.itemId);
    KeysOfMembers(keys, d.item.itemId);
    Pigeonhole(expected, d.sourceKeys);
    assert forall k :: k in d.sourceKeys <==> k in multiset(d.sourceKeys);
    assert forall k :: k in expected <==> k in multiset(expected);
  }

  lemma FactItemsGrow(front: seq<Disposition>, last: Disposition)
    requires Distinct(Items(front + [last]))
    ensures Distinct(Items(front))
    ensures last.item.kind == "fact" ==>
      FactItems(front + [last]) == FactItems(front) + {last.item.itemId} && last.item.itemId !in FactItems(front)
    ensures last.item.kind != "fact" ==> FactItems(front + [last]) == FactItems(front)
  {
    assert Items(front + [last]) == Items(front) + [last.item];
    DistinctGrows(Items(front), last.item);
    forall i | 0 <= i < |front|
      ensures front[i].item != last.item
    {
      assert Items(front)[i] == front[i].item;
    }
  }

  lemma {:induction false} AccountedKeysAreTheirs(keys: seq<Key>, dispositions: seq<Disposition>)
    requires Distinct(keys) && DispositionsSound(keys, dispositions) && Distinct(Items(dispositions))
    ensures multiset(AccountedKeys(dispositions)) == multiset(KeysIn(keys, FactItems(dispositions)))
  {
    if dispositions == [] {
      KeysInNone(keys);
      assert FactItems(dispositions) == {};
    } else {
      var front, last := dispositions[..|dispositions| - 1], dispositions[|dispositions| - 1];
      assert dispositions == front + [last];
      FactItemsGrow(front, last);
      AccountedKeysAreTheirs(keys, front);
      if last.item.kind == "fact" {
        DispositionListsItsFact(keys, last);
        KeysInGrow(keys, FactItems(front), last.item.itemId);
      }
    }
  }

  /**
   * The fact dispositions partition the snapshot's fact keys: together they list every key exactly once
   * and nothing else, each under its own fact.
   */
  lemma DispositionsPartitionFacts(asset: Asset)
    requires Accepted(asset) && asset.unavailableReason.None?
    ensures
      var keys, dispositions := Keys(asset.snapshot.value.facts), asset.projection.value.dispositions;
      && multiset(AccountedKeys(dispositions)) == multiset(keys)
      && Distinct(keys)
      && forall d, k | d in dispositions && d.item.kind == "fact" ::
           k in d.sourceKeys <==> k in keys && k.factId == d.item.itemId
  {
    var s, p := asset.snapshot.value, asset.projection.value;
    var keys := Keys(s.facts);
    AccountedKeysAreTheirs(keys, p.dispositions);
    forall k | k in keys
      ensures k.factId in FactItems(p.dispositions)
    {
      var i :| 0 <= i < |keys| && keys[i] == k;
      assert s.facts[i] in s.facts && Item("fact", k.factId) in Elements(p.requested);
      assert Item("fact", k.factId) in Items(p.dispositions);
      var j :| 0 <= j < |p.dispositions| && Items(p.dispositions)[j] == Item("fact", k.factId);
      assert p.dispositions[j] in p.dispositions;
    }
    KeysInAll(keys, FactItems(p.dispositions));
    forall d, k | d in p.dispositions && d.item.kind == "fact"
      ensures k in d.sourceKeys <==> k in keys && k.factId == d.item.itemId
    {
      DispositionListsItsFact(keys, d);
    }
  }

  /** A candidate's id and revision. */
  datatype Ref = Ref(candidateId: string, revision: string)

  function CandidateRefs(candidates: seq<Candidate>): seq<Ref> {
    seq(|candidates|, i requires 0 <= i < |candidates| => Ref(candidates[i].candidateId, candidates[i].revision))
  }

  function EvaluatedRefs(facts: seq<EvaluatedFact>): seq<Ref> {
    seq(|facts|, i requires 0 <= i < |facts| => Ref(facts[i].candidateId, facts[i].candidateRevision))
  }

  lemma RefsOfEvaluated(candidates: seq<Candidate>, facts: seq<EvaluatedFact>, ref: Ref)
    requires EvaluationSound(candidates, facts) && ref in EvaluatedRefs(facts)
    ensures ref in CandidateRefs(candidates)
  {
    var j :| 0 <= j < |facts| && EvaluatedRefs(facts)[j] == ref;
    assert facts[j] in facts;
    var c :| c in candidates && Evaluates(facts[j], c);
    var i :| 0 <= i < |candidates| && candidates[i] == c;
    assert CandidateRefs(candidates)[i] == ref;
  }

  lemma RefsOfCandidates(candidates: seq<Candidate>, facts: seq<EvaluatedFact>, ref: Ref)
    requires EvaluationSound(candidates, facts) && ref in CandidateRefs(candidates)
    ensures ref in EvaluatedRefs(facts)
  {
    var i :| 0 <= i < |candidates| && CandidateRefs(candidates)[i] == ref;
    assert IsEvaluated(facts, candidates[i]);
    var fact :| fact in facts && Evaluates(fact, candidates[i]);
    var j :| 0 <= j < |facts| && facts[j] == fact;
    assert EvaluatedRefs(facts)[j] == ref;
  }

  /** Every candidate is evaluated exactly once, at its own revision, and nothing else is. */
  lemma CandidatesEvaluatedOnce(candidates: seq<Candidate>, facts: seq<EvaluatedFact>)
    requires CandidateIdsDiffer(candidates) && EvaluationSound(candidates, facts)
    ensures multiset(EvaluatedRefs(facts)) == multiset(CandidateRefs(candidates))
  {
    forall ref
      ensures ref in EvaluatedRefs(facts) <==> ref in CandidateRefs(candidates)
    {
      if ref in EvaluatedRefs(facts) { RefsOfEvaluated(candidates, facts, ref); }
      if ref in CandidateRefs(candidates) { RefsOfCandidates(candidates, facts, ref); }
    }
    assert Elements(EvaluatedRefs(facts)) == Elements(CandidateRefs(candidates));
    SameMembers(EvaluatedRefs(facts), CandidateRefs(candidates));
  }

  /** Retained observations are evaluated as they stand, each exactly once; so are the requested items. */
  lemma EverythingAccountedOnce(asset: Asset)
    requires Accepted(asset) && asset.unavailableReason.None?
    ensures
      var s, e, p := asset.snapshot.value, asset.evaluation.value, asset.projection.value;
      && multiset(EvaluatedRefs(e.facts)) == multiset(CandidateRefs(AllCandidates(s.facts)))
      && multiset(Listed(e.retained)) == multiset(Listed(s.retained))
      && multiset(Items(p.dispositions)) == multiset(p.requested)
  {
    var s, e, p := asset.snapshot.value, asset.evaluation.value, asset.projection.value;
    CandidatesEvaluatedOnce(AllCandidates(s.facts), e.facts);
    assert Distinct(Listed(s.retained));
    SameMembers(Listed(e.retained), Listed(s.retained));
    SameMembers(Items(p.dispositions), p.requested);
  }

  /** Every capability resolves, through one service and one binding, to a source that the snapshot lists. */
  lemma CapabilitiesResolve(asset: Asset, c: Capability)
    requires Accepted(asset) && asset.unavailableReason.None? && c in asset.snapshot.value.capabilities
    ensures
      var s, p := asset.snapshot.value, asset.projection.value;
      && c.assetId == asset.assetId
      && Item("capability", c.definitionId) in Items(p.dispositions)
      && exists service, b ::
           && service in s.services && Offers(service, c) && service.assetId == asset.assetId
           && b in s.bindings && Serves(b, service) && b.assetId == asset.assetId
           && b.source in Identities(s.sources) && b.source.sourceEpochId == c.sourceEpochId
           && b.driverGeneration == c.driverGeneration
  {
    var s, p := asset.snapshot.value, asset.projection.value;
    assert CapabilitySound(s.services, c);
    var service :| service in s.services && Offers(service, c);
    assert ServiceSound(s.bindings, service);
    var b :| b in s.bindings && Serves(b, service);
    assert Item("capability", c.definitionId) in Elements(p.requested);
    assert Item("capability", c.definitionId) in Elements(Items(p.dispositions));
    assert service.assetId == asset.assetId && BindingSound(asset.assetId, Identities(s.sources), b);
  }

  // ---- the whole view ----

  /** The bytes of a text in UTF-8. */
  function Utf8Size(s: string): nat {
    if s == "" then 0
    else
      var c := s[0] as int;
      (if c < 0x80 then 1 else if c < 0x800 then 2 else if c < 0x1_0000 then 3 else 4) + Utf8Size(s[1..])
  }

  /** The identifiers that a caller may ask for. */
  predicate AssetIdsValid(ids: seq<string>) {
    1 <= |ids| <= 32 && AllDiffer(ids) && forall id | id in ids :: 1 <= Utf8Size(id) <= 256
  }

  const MAX_VIEW_BYTES := 4 * 1024 * 1024

  /**
   * What the gateway returned: no root; or a root with or without errors, the size of its text if it has one, and
   * its assets if it decodes.
   */
  datatype Answer = NoRoot | Root(errors: bool, bytes: Option<nat>, assets: Option<seq<Asset>>)

  /** There is a root without errors, of bounded size, that decodes. */
  predicate Readable(answer: Answer) {
    && answer.Root? && !answer.errors && answer.assets.Some?
    && answer.bytes.Some? && answer.bytes.value <= MAX_VIEW_BYTES
  }

  function AssetIds(assets: seq<Asset>): seq<string> {
    seq(|assets|, i requires 0 <= i < |assets| => assets[i].assetId)
  }

  /** The evaluation contexts of the readable assets, in order. */
  function Contexts(assets: seq<Asset>): seq<D.Value> {
    if assets == [] then []
    else
      var last := assets[|assets| - 1];
      Contexts(assets[..|assets| - 1]) + if last.evaluation.Some? then [last.evaluation.value.context] else []
  }

  predicate AllSame<T(==)>(s: seq<T>) { forall x, y | x in s && y in s :: x == y }

  lemma ReturnedAsAsked(ids: seq<string>, returned: seq<string>)
    requires Distinct(ids)
    ensures |returned| == |ids| && Elements(returned) == Elements(ids) <==> multiset(returned) == multiset(ids)
  {
    if |returned| == |ids| && Elements(returned) == Elements(ids) {
      forall id | id in ids
        ensures id in returned
      {
        assert id in Elements(ids);
      }
      Pigeonhole(ids, returned);
    }
    if multiset(returned) == multiset(ids) {
      assert |returned| == |multiset(returned)| == |ids|;
      forall id
        ensures id in returned <==> id in ids
      {
        assert id in returned <==> id in multiset(returned);
        assert id in ids <==> id in multiset(ids);
      }
    }
  }

  lemma TwoContexts<T>(some: seq<T>, x: T, y: T, all: seq<T>)
    requires x in some && x != y && some + [y] <= all
    ensures !AllSame(all)
  {
    assert forall z | z in some + [y] :: z in all;
    assert x in some + [y] && y in some + [y];
  }

  predicate AllAccepted(assets: seq<Asset>) {
    assets == [] || (AllAccepted(assets[..|assets| - 1]) && Accepted(assets[|assets| - 1]))
  }

  lemma {:induction false} AllAcceptedMeansEach(assets: seq<Asset>)
    ensures AllAccepted(assets) <==> forall asset | asset in assets :: Accepted(asset)
  {
    if assets != [] {
      var front, last := assets[..|assets| - 1], assets[|assets| - 1];
      assert assets == front + [last];
      AllAcceptedMeansEach(front);
    }
  }

  lemma {:induction false} AcceptedGrows(assets: seq<Asset>, i: nat)
    requires i < |assets|
    ensures AllAccepted(assets[..i + 1]) <==> AllAccepted(assets[..i]) && Accepted(assets[i])
    ensures AllAccepted(assets) ==> AllAccepted(assets[..i + 1])
    decreases |assets|
  {
    assert assets[..i + 1][..i] == assets[..i];
    if i + 1 == |assets| {
      assert assets[..i + 1] == assets;
    } else {
      var front := assets[..|assets| - 1];
      assert front[..i] == assets[..i] && front[..i + 1] == assets[..i + 1];
      AcceptedGrows(front, i);
    }
  }

  lemma {:induction false} ContextsGrow(assets: seq<Asset>, i: nat)
    requires i < |assets|
    ensures Contexts(assets[..i + 1])
      == Contexts(assets[..i]) + if assets[i].evaluation.Some? then [assets[i].evaluation.value.context] else []
    ensures Contexts(assets[..i + 1]) <= Contexts(assets)
    decreases |assets|
  {
    assert assets[..i + 1][..i] == assets[..i];
    if i + 1 == |assets| {
      assert assets[..i + 1] == assets;
    } else {
      var front := assets[..|assets| - 1];
      assert front[..i] == assets[..i] && front[..i + 1] == assets[..i + 1];
      ContextsGrow(front, i);
    }
  }

  /** The context seen last is one of those seen, if any was. */
  predicate SeenLast(context: Option<D.Value>, seen: seq<D.Value>) {
    if context.None? then seen == [] else context.value in seen
  }

  method JoinContext(assets: seq<Asset>, i: nat, context: Option<D.Value>) returns (ok: bool, next: Option<D.Value>)
    requires i < |assets| && SeenLast(context, Contexts(assets[..i])) && AllSame(Contexts(assets[..i]))
    ensures ok ==> SeenLast(next, Contexts(assets[..i + 1])) && AllSame(Contexts(assets[..i + 1]))
    ensures !ok ==> !AllSame(Contexts(assets))
  {
    ContextsGrow(assets, i);
    if assets[i].evaluation.None? { return true, context; }
    var current := assets[i].evaluation.value.context;
    if context.Some? && current != context.value {
      TwoContexts(Contexts(assets[..i]), context.value, current, Contexts(assets));
      return false, context;
    }
    return true, Some(current);
  }

  method CheckAssets(assets: seq<Asset>) returns (ok: bool)
    ensures ok <==> AllAccepted(assets) && AllSame(Contexts(assets))
  {
    var context: Option<D.Value> := None;
    for i := 0 to |assets|
      invariant AllAccepted(assets[..i])
      invariant SeenLast(context, Contexts(assets[..i])) && AllSame(Contexts(assets[..i]))
    {
      ok := ValidateAsset(assets[i]);
      AcceptedGrows(assets, i);
      if !ok { return; }
      ok, context := JoinContext(assets, i, context);
      if !ok { return; }
    }
    assert assets[..|assets|] == assets;
    ok := true;
  }

  /** A view is accepted iff it answers for each asked asset once, with acceptable assets of one evaluation. */
  predicate ViewAccepted(answer: Answer, ids: seq<string>) {
    && AssetIdsValid(ids) && Readable(answer)
    && multiset(AssetIds(answer.assets.value)) == multiset(ids)
    && (forall asset | asset in answer.assets.value :: Accepted(asset))
    && AllSame(Contexts(answer.assets.value))
  }

  method NormalizeView(answer: Answer, ids: seq<string>) returns (ok: bool)
    ensures ok <==> ViewAccepted(answer, ids)
  {
    if !AssetIdsValid(ids) || !Readable(answer) { return false; }
    var assets := answer.assets.value;
    var returned := AssetIds(assets);
    ReturnedAsAsked(ids, returned);
    if |returned| != |ids| || Elements(returned) != Elements(ids) { return false; }
    AllAcceptedMeansEach(assets);
    ok := CheckAssets(assets);
  }

  /** An accepted view has each asset once. */
  lemma AssetsDiffer(answer: Answer, ids: seq<string>)
    requires ViewAccepted(answer, ids)
    ensures Distinct(AssetIds(answer.assets.value))
  {
    var returned := AssetIds(answer.assets.value);
    assert |multiset(returned)| == |returned| && |multiset(ids)| == |ids|;
    forall id | id in ids
      ensures id in returned
    {
      assert id in multiset(returned);
    }
    Pigeonhole(ids, returned);
  }
}

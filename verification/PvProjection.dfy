/**
 * The photovoltaic consumer's reading of one response: mapped and admitted candidates, their evaluation
 * and selection, and a projection that must account for every published key.
 */
module PvProjection {
  import opened Prelude
  import opened Distinctness
  import opened M2MEvaluation
  import opened DecimalText

  const MAX_FACTS := 256

  /** A fact, its one dimension and the text of that. */
  datatype Key = Key(factId: string, dimension: string, text: string)

  datatype LegacyKey = LegacyKey(factId: string, kind: string, value: string)

  /** What the table says of a key: no row, a row whose dimension value does not fit, or a legacy identity. */
  datatype Mapping = NoRow | BadDimension | To(key: LegacyKey)

  const PHASES := {"phase:L1", "phase:L2", "phase:L3"}

  function Fixed(key: Key, text: string, factId: string, kind: string, value: string): Mapping {
    if key.text == text then To(LegacyKey(factId, kind, value)) else BadDimension
  }

  function Phase(key: Key, factId: string): Mapping {
    if key.text in PHASES then To(LegacyKey(factId, "phase", key.text[6..])) else BadDimension
  }

  function MapKey(key: Key): Mapping {
    if key.dimension == "pv.dimension.inverter" then
      match key.factId
      case "pv.ac.aggregate_active_power" => Fixed(key, "inverter", "pv.ac.power.active", "scope", "total")
      case "pv.ac.frequency" => Fixed(key, "inverter", "pv.ac.frequency", "scope", "total")
      case "pv.temperature.inverter" => Fixed(key, "inverter", "pv.temperature", "sensor_id", "inverter")
      case "pv.status.operating" => Fixed(key, "inverter", "pv.operating.state", "scope", "total")
      case _ => NoRow
    else if key.dimension == "pv.dimension.system" then
      if key.factId == "pv.energy.generated" then Fixed(key, "system", ENERGY, "scope", "total") else NoRow
    else if key.dimension == "pv.dimension.phase" then
      match key.factId
      case "pv.ac.current" => Phase(key, "pv.ac.current")
      case "pv.ac.voltage" => Phase(key, "pv.ac.voltage.line_to_neutral")
      case _ => NoRow
    else NoRow
  }

  const ENERGY := "pv.energy.active_export_total"
  const ENERGY_OUTPUT := "inverter.ac.energy_lifetime"

  /** Where a key goes in the projection, how, and with which kinds of loss. */
  datatype Output = Output(item: string, outcome: string, losses: set<string>)

  function PhaseOutput(a: string, b: string, c: string, text: string): Option<Output> {
    if text == "phase:L1" then Some(Output(a, "exact", {}))
    else if text == "phase:L2" then Some(Output(b, "exact", {}))
    else if text == "phase:L3" then Some(Output(c, "exact", {}))
    else None
  }

  function OutputOf(key: Key): Option<Output> {
    if key.dimension == "pv.dimension.inverter" && key.text == "inverter" then
      match key.factId
      case "pv.ac.aggregate_active_power" => Some(Output("inverter.ac.power.active", "exact", {}))
      case "pv.ac.frequency" => Some(Output("inverter.ac.frequency", "exact", {}))
      case "pv.temperature.inverter" => Some(Output("inverter.temperature.cabinet", "transformed", {"provenance"}))
      case "pv.status.operating" => Some(Output("inverter.operating_state", "transformed", {"symbol"}))
      case _ => None
    else if key == Key("pv.energy.generated", "pv.dimension.system", "system") then
      Some(Output(ENERGY_OUTPUT, "transformed", {"policy"}))
    else if key.dimension == "pv.dimension.phase" then
      if key.factId == "pv.ac.current" then
        PhaseOutput("inverter.ac.current.phase_a", "inverter.ac.current.phase_b", "inverter.ac.current.phase_c", key.text)
      else if key.factId == "pv.ac.voltage" then
        PhaseOutput("inverter.ac.voltage.phase_a", "inverter.ac.voltage.phase_b", "inverter.ac.voltage.phase_c", key.text)
      else None
    else None
  }

  // ---- the two tables fit each other ----

  /** The key that a legacy identity came from. */
  function Unmap(k: LegacyKey): Key {
    match k.factId
    case "pv.ac.power.active" => Key("pv.ac.aggregate_active_power", "pv.dimension.inverter", "inverter")
    case "pv.ac.frequency" => Key("pv.ac.frequency", "pv.dimension.inverter", "inverter")
    case "pv.temperature" => Key("pv.temperature.inverter", "pv.dimension.inverter", "inverter")
    case "pv.operating.state" => Key("pv.status.operating", "pv.dimension.inverter", "inverter")
    case "pv.energy.active_export_total" => ENERGY_KEY
    case "pv.ac.current" => Key("pv.ac.current", "pv.dimension.phase", "phase:" + k.value)
    case _ => Key("pv.ac.voltage", "pv.dimension.phase", "phase:" + k.value)
  }

  /** A legacy identity can be undone, so two keys never share one. */
  lemma LegacyKeyUndone(key: Key)
    requires MapKey(key).To?
    ensures Unmap(MapKey(key).key) == key
  {
  }

  /** The legacy identities there are. */
  predicate IsLegacy(k: LegacyKey) {
    match k.factId
    case "pv.ac.power.active" => k.kind == "scope" && k.value == "total"
    case "pv.ac.frequency" => k.kind == "scope" && k.value == "total"
    case "pv.operating.state" => k.kind == "scope" && k.value == "total"
    case "pv.energy.active_export_total" => k.kind == "scope" && k.value == "total"
    case "pv.temperature" => k.kind == "sensor_id" && k.value == "inverter"
    case "pv.ac.current" => k.kind == "phase" && k.value in {"L1", "L2", "L3"}
    case "pv.ac.voltage.line_to_neutral" => k.kind == "phase" && k.value in {"L1", "L2", "L3"}
    case _ => false
  }

  /** Each of them is the image of its key. */
  lemma LegacyIdentitiesAreMapped(k: LegacyKey)
    requires IsLegacy(k)
    ensures MapKey(Unmap(k)) == To(k)
  {
    assert ("phase:" + k.value)[6..] == k.value;
    assert "phase:" + "L1" == "phase:L1" && "phase:" + "L2" == "phase:L2" && "phase:" + "L3" == "phase:L3";
  }

  lemma MappedIdentitiesAreLegacy(key: Key)
    requires MapKey(key).To?
    ensures IsLegacy(MapKey(key).key)
  {
    assert "phase:L1"[6..] == "L1" && "phase:L2"[6..] == "L2" && "phase:L3"[6..] == "L3";
  }

  /** A key is mapped to a legacy identity exactly if it is that identity's key. */
  lemma MapsToIff(key: Key, k: LegacyKey)
    ensures MapKey(key) == To(k) <==> IsLegacy(k) && key == Unmap(k)
  {
    if MapKey(key) == To(k) {
      LegacyKeyUndone(key);
      MappedIdentitiesAreLegacy(key);
    }
    if IsLegacy(k) { LegacyIdentitiesAreMapped(k); }
  }

  /** Exactly the keys with a legacy identity have an output. */
  lemma MappedIffOutput(key: Key)
    ensures MapKey(key).To? <==> OutputOf(key).Some?
  {
  }

  /** The key that goes to an item of the projection. */
  function SourceOf(item: string): Key {
    match item
    case "inverter.ac.power.active" => Key("pv.ac.aggregate_active_power", "pv.dimension.inverter", "inverter")
    case "inverter.ac.frequency" => Key("pv.ac.frequency", "pv.dimension.inverter", "inverter")
    case "inverter.temperature.cabinet" => Key("pv.temperature.inverter", "pv.dimension.inverter", "inverter")
    case "inverter.operating_state" => Key("pv.status.operating", "pv.dimension.inverter", "inverter")
    case "inverter.ac.energy_lifetime" => ENERGY_KEY
    case "inverter.ac.current.phase_a" => Key("pv.ac.current", "pv.dimension.phase", "phase:L1")
    case "inverter.ac.current.phase_b" => Key("pv.ac.current", "pv.dimension.phase", "phase:L2")
    case "inverter.ac.current.phase_c" => Key("pv.ac.current", "pv.dimension.phase", "phase:L3")
    case "inverter.ac.voltage.phase_a" => Key("pv.ac.voltage", "pv.dimension.phase", "phase:L1")
    case "inverter.ac.voltage.phase_b" => Key("pv.ac.voltage", "pv.dimension.phase", "phase:L2")
    case _ => Key("pv.ac.voltage", "pv.dimension.phase", "phase:L3")
  }

  /** An item of the projection names its source, so no two keys go to the same one. */
  lemma ItemNamesItsSource(key: Key)
    requires OutputOf(key).Some?
    ensures SourceOf(OutputOf(key).value.item) == key
  {
  }

  // ---- a response ----

  datatype Reading = Reading(coefficient: string, scale: int, unit: string, origin: string)

  /** Admitted are candidates whose quality is qualified, promoted and good. */
  type Candidate = M2MEvaluation.Candidate<Key, Reading>

  /** `bound` says that contract, snapshot, revisions, digest and policy are those of this response. */
  datatype Selection = Selection(bound: bool, candidateId: string, key: Key, candidateRevision: string)

  /** The kinds of the losses stand for the losses. */
  type Disposition = M2MEvaluation.Disposition<Key, string>

  datatype Projection = Projection(bound: bool, requested: seq<Pair>, dispositions: seq<Disposition>)

  datatype Response = Response(
    candidates: seq<Candidate>, bound: bool, evaluated: seq<Evaluated>, selections: seq<Selection>, projection: Projection)

  datatype Fact = Fact(key: LegacyKey, reading: Reading, state: Lifecycle)

  // ---- energy is republished in watt-hours ----

  function InWattHours(r: Reading): Reading { r.(coefficient := r.coefficient + "000", unit := "Wh") }

  /** Three zeros on the coefficient are three on the exponent; only zero itself is not a canonical integer then. */
  lemma WattHoursKeepTheirWorth(r: Reading)
    requires IsInteger(r.coefficient) && -18 <= r.scale <= 18
    ensures Scaled(InWattHours(r).coefficient, r.scale) == Scaled(r.coefficient, r.scale + 3)
    ensures IsInteger(InWattHours(r).coefficient) <==> r.coefficient != "0"
  {
    ThousandTimes(r.coefficient);
    ThreePowers(r.scale + 18);
    Regroup(IntegerValue(r.coefficient), Pow10(r.scale + 18));
    IntegersTakeZeros(r.coefficient);
  }

  lemma ThousandTimes(c: string)
    requires c != ""
    ensures IntegerValue(c + "000") == 1000 * IntegerValue(c)
  {
    var one, two := c + "0", c + "00";
    assert two == one + "0" && c + "000" == two + "0";
    TenTimes(c);
    TenTimes(one);
    TenTimes(two);
  }

  lemma ThreePowers(n: nat)
    ensures Pow10(n + 3) == 1000 * Pow10(n)
  {
    assert Pow10(n + 3) == 10 * Pow10(n + 2) && Pow10(n + 2) == 10 * Pow10(n + 1);
  }

  lemma Regroup(a: int, p: int)
    ensures (1000 * a) * p == a * (1000 * p)
  {
  }

  lemma IntegersTakeZeros(c: string)
    requires IsInteger(c)
    ensures IsInteger(c + "000") <==> c != "0"
  {
    var more := c + "000";
    if Negative(c) {
      assert more[1..] == c[1..] + "000" && more[1..][0] == c[1..][0];
    } else {
      assert more[0] == c[0];
    }
  }

  lemma TenTimes(c: string)
    requires c != ""
    ensures IntegerValue(c + "0") == 10 * IntegerValue(c)
  {
    var more := c + "0";
    if Negative(c) {
      assert more[1..] == c[1..] + "0" && more[1..][..|more[1..]| - 1] == c[1..];
    } else {
      assert more[..|more| - 1] == c;
    }
  }

  // ---- selections ----

  const CURRENT := Lifecycle("fresh", "available")

  predicate Selects(s: Selection, c: Candidate) {
    s.candidateId == c.id && s.key == c.key && s.candidateRevision == c.revision
  }

  predicate SelectionSound(candidates: seq<Candidate>, states: map<string, Lifecycle>, s: Selection) {
    && s.bound && (exists c :: c in candidates && Selects(s, c))
    && s.candidateId in states && states[s.candidateId] == CURRENT
  }

  predicate SelectionsSound(candidates: seq<Candidate>, states: map<string, Lifecycle>, selections: seq<Selection>) {
    && (forall s | s in selections :: SelectionSound(candidates, states, s))
    && (forall i, j :: 0 <= i < j < |selections| ==> selections[i].candidateId != selections[j].candidateId)
  }

  function Selected(selections: seq<Selection>): set<string> { set s | s in selections :: s.candidateId }

  function ById(candidates: seq<Candidate>): map<string, Candidate> {
    if candidates == [] then map[]
    else ById(candidates[..|candidates| - 1])[candidates[|candidates| - 1].id := candidates[|candidates| - 1]]
  }

  lemma {:induction false} ByIdFinds(candidates: seq<Candidate>)
    requires IdsDiffer(Refs(candidates))
    ensures forall c | c in candidates :: c.id in ById(candidates) && ById(candidates)[c.id] == c
    ensures forall id | id in ById(candidates) :: ById(candidates)[id] in candidates && ById(candidates)[id].id == id
  {
    if candidates != [] {
      var front, last := candidates[..|candidates| - 1], candidates[|candidates| - 1];
      assert candidates == front + [last];
      assert forall i :: 0 <= i < |front| ==> Refs(front)[i] == Refs(candidates)[i];
      ByIdFinds(front);
      forall i | 0 <= i < |front|
        ensures front[i].id != last.id
      {
        assert Refs(candidates)[i].id != Refs(candidates)[|front|].id;
      }
    }
  }

  method CheckSelections(candidates: seq<Candidate>, states: map<string, Lifecycle>, selections: seq<Selection>)
    returns (ok: bool, selected: set<string>)
    requires IdsDiffer(Refs(candidates))
    ensures ok <==> SelectionsSound(candidates, states, selections)
    ensures ok ==> selected == Selected(selections)
  {
    var bindings := ById(candidates);
    ByIdFinds(candidates);
    selected := {};
    for i := 0 to |selections|
      invariant SelectionsSound(candidates, states, selections[..i])
      invariant selected == Selected(selections[..i])
    {
      var s := selections[i];
      assert selections[..i + 1] == selections[..i] + [s];
      if s.candidateId in selected {
        assert exists j :: 0 <= j < i && selections[j].candidateId == s.candidateId;
        return false, selected;
      }
      if !s.bound || s.candidateId !in states || s.candidateId !in bindings
         || !Selects(s, bindings[s.candidateId]) || states[s.candidateId] != CURRENT {
        assert s in selections && !SelectionSound(candidates, states, s);
        return false, selected;
      }
      assert SelectionSound(candidates, states, s);
      selected := selected + {s.candidateId};
    }
    assert selections[..|selections|] == selections;
    ok := true;
  }

  // ---- facts ----

  predicate Mapped(c: Candidate) { MapKey(c.key).To? && c.admitted }

  predicate Published(states: map<string, Lifecycle>, c: Candidate) {
    Mapped(c) && c.id in states && states[c.id].availability !in {"degraded", "withdrawn"}
  }

  predicate Offered(states: map<string, Lifecycle>, selected: set<string>, c: Candidate) {
    Mapped(c) && c.id in states && states[c.id] == CURRENT ==> c.id in selected
  }

  function FactsOf(states: map<string, Lifecycle>, candidates: seq<Candidate>): seq<Fact> {
    if candidates == [] then []
    else
      var front, last := candidates[..|candidates| - 1], candidates[|candidates| - 1];
      FactsOf(states, front)
        + if Published(states, last) then [Fact(MapKey(last.key).key, last.reading, states[last.id])] else []
  }

  function PublishedKeys(states: map<string, Lifecycle>, candidates: seq<Candidate>): set<Key> {
    set c | c in candidates && Published(states, c) :: c.key
  }

  const ENERGY_KEY := Key("pv.energy.generated", "pv.dimension.system", "system")

  predicate HasEnergy(candidates: seq<Candidate>) { exists c :: c in candidates && Mapped(c) && c.key == ENERGY_KEY }

  method CollectFacts(candidates: seq<Candidate>, states: map<string, Lifecycle>, selected: set<string>)
    returns (ok: bool, facts: seq<Fact>, energy: bool, published: set<Key>)
    requires forall c | c in candidates :: c.id in states
    ensures ok <==> forall c | c in candidates :: Offered(states, selected, c)
    ensures ok ==> facts == FactsOf(states, candidates) && published == PublishedKeys(states, candidates)
    ensures ok ==> energy == HasEnergy(candidates)
  {
    facts, energy, published := [], false, {};
    for i := 0 to |candidates|
      invariant forall c | c in candidates[..i] :: Offered(states, selected, c)
      invariant facts == FactsOf(states, candidates[..i]) && published == PublishedKeys(states, candidates[..i])
      invariant energy == HasEnergy(candidates[..i])
    {
      var c := candidates[i];
      CollectsOneMore(candidates, states, i);
      if MapKey(c.key).To? && c.admitted {
        if states[c.id] == CURRENT && c.id !in selected {
          assert !Offered(states, selected, c);
          return false, facts, energy, published;
        }
        if MapKey(c.key).key.factId == ENERGY { energy := true; }
        EnergyHasOneKey(c.key);
        if states[c.id].availability !in {"degraded", "withdrawn"} {
          published := published + {c.key};
          facts := facts + [Fact(MapKey(c.key).key, c.reading, states[c.id])];
        }
      }
    }
    assert candidates[..|candidates|] == candidates;
    ok := true;
  }

  lemma CollectsOneMore(candidates: seq<Candidate>, states: map<string, Lifecycle>, i: nat)
    requires i < |candidates| && candidates[i].id in states
    ensures
      var before, c, after := candidates[..i], candidates[i], candidates[..i + 1];
      && after == before + [c] && c in candidates
      && FactsOf(states, after) == FactsOf(states, before)
           + (if Published(states, c) then [Fact(MapKey(c.key).key, c.reading, states[c.id])] else [])
      && PublishedKeys(states, after) == PublishedKeys(states, before) + (if Published(states, c) then {c.key} else {})
      && HasEnergy(after) == (HasEnergy(before) || (Mapped(c) && c.key == ENERGY_KEY))
  {
    var before, c, after := candidates[..i], candidates[i], candidates[..i + 1];
    assert after == before + [c] && after[..i] == before;
    assert PublishedKeys(states, after) == PublishedKeys(states, before) + if Published(states, c) then {c.key} else {};
  }

  lemma EnergyHasOneKey(key: Key)
    requires MapKey(key).To?
    ensures MapKey(key).key.factId == ENERGY <==> key == ENERGY_KEY
  {
  }

  // ---- the projection ----

  /** The published key that a disposition accounts for, if its item, outcome and losses are the right ones. */
  function Accounts(d: Disposition, published: set<Key>): Option<Key> {
    if |d.sourceKeys| != 1 then None
    else
      var key := d.sourceKeys[0];
      var output := OutputOf(key);
      if output.Some? && key in published && d.pair == Pair("fact", output.value.item)
         && d.outcome == output.value.outcome && Elements(d.losses) == output.value.losses
      then Some(key) else None
  }

  predicate LossListSound(d: Disposition) { |d.sourceKeys| == 1 ==> |d.losses| <= MAX_FACTS && Distinct(d.losses) }

  predicate EnergyRight(d: Disposition) {
    && d.pair == Pair("fact", ENERGY_OUTPUT) && d.sourceKeys == [ENERGY_KEY] && d.outcome == "transformed"
    && d.reason == Some("counter_continuity_unavailable") && "policy" in d.losses
  }

  /** Each disposition of the energy item decides anew. */
  function EnergyLoss(energy: bool, dispositions: seq<Disposition>): bool {
    if dispositions == [] then !energy
    else
      var front, last := dispositions[..|dispositions| - 1], dispositions[|dispositions| - 1];
      if energy && last.pair.itemId == ENERGY_OUTPUT then EnergyRight(last) else EnergyLoss(energy, front)
  }

  function Accounted(dispositions: seq<Disposition>, published: set<Key>): set<Key> {
    set d | d in dispositions && Accounts(d, published).Some? :: Accounts(d, published).value
  }

  /** All that is demanded of a projection but the verdict on energy. */
  predicate AccountsSound(p: Projection, published: set<Key>) {
    && p.bound && |p.requested| == |p.dispositions|
    && Distinct(p.requested) && Distinct(Pairs(p.dispositions)) && Elements(Pairs(p.dispositions)) == Elements(p.requested)
    && (forall d | d in p.dispositions :: LossListSound(d))
    && Accounted(p.dispositions, published) == published
  }

  predicate ProjectionSound(p: Projection, energy: bool, published: set<Key>) {
    AccountsSound(p, published) && EnergyLoss(energy, p.dispositions)
  }

  method CheckDispositions(dispositions: seq<Disposition>, requested: set<Pair>, energy: bool, published: set<Key>)
    returns (ok: bool)
    ensures ok <==>
      && Distinct(Pairs(dispositions)) && Elements(Pairs(dispositions)) == requested
      && (forall d | d in dispositions :: LossListSound(d))
      && EnergyLoss(energy, dispositions) && Accounted(dispositions, published) == published
  {
    var seen: set<Pair>, accounted: set<Key> := {}, {};
    var energyLoss := !energy;
    for i := 0 to |dispositions|
      invariant Distinct(Pairs(dispositions[..i])) && seen == Elements(Pairs(dispositions[..i])) <= requested
      invariant forall d | d in dispositions[..i] :: LossListSound(d)
      invariant energyLoss == EnergyLoss(energy, dispositions[..i])
      invariant accounted == Accounted(dispositions[..i], published)
    {
      var d := dispositions[i];
      PairsGrow(dispositions, i);
      AccountedGrows(dispositions, published, i);
      if d.pair in seen {
        assert Pairs(dispositions[..i + 1]) <= Pairs(dispositions);
        return false;
      }
      if d.pair !in requested {
        assert Pairs(dispositions)[i] in Elements(Pairs(dispositions));
        return false;
      }
      seen := seen + {d.pair};
      if !LossListSound(d) {
        assert d in dispositions;
        return false;
      }
      if Accounts(d, published).Some? { accounted := accounted + {Accounts(d, published).value}; }
      if energy && d.pair.itemId == ENERGY_OUTPUT { energyLoss := EnergyRight(d); }
    }
    assert dispositions[..|dispositions|] == dispositions;
    ok := seen == requested && energyLoss && accounted == published;
  }

  lemma AccountedGrows(dispositions: seq<Disposition>, published: set<Key>, i: nat)
    requires i < |dispositions|
    ensures
      var one := Accounts(dispositions[i], published);
      Accounted(dispositions[..i + 1], published)
        == Accounted(dispositions[..i], published) + if one.Some? then {one.value} else {}
  {
    assert dispositions[..i + 1] == dispositions[..i] + [dispositions[i]];
  }

  // ---- the whole response ----

  predicate CandidatesSound(r: Response) {
    && |r.candidates| <= MAX_FACTS
    && (forall c | c in r.candidates :: !MapKey(c.key).BadDimension?)
    && Distinct(Keys(r.candidates)) && IdsDiffer(Refs(r.candidates))
    && r.bound && |r.evaluated| == |r.candidates| && EvaluationSound(Refs(r.candidates), r.evaluated)
  }

  /** The lifecycles that an evaluation records. */
  function States(evaluated: seq<Evaluated>): map<string, Lifecycle> {
    if evaluated == [] then map[]
    else
      var last := evaluated[|evaluated| - 1];
      States(evaluated[..|evaluated| - 1])[last.candidateId := Lifecycle(last.freshness, last.availability)]
  }

  lemma {:induction false} StatesRecord(evaluated: seq<Evaluated>)
    requires forall i, j :: 0 <= i < j < |evaluated| ==> evaluated[i].candidateId != evaluated[j].candidateId
    ensures Records(States(evaluated), evaluated)
  {
    if evaluated != [] {
      var front, last := evaluated[..|evaluated| - 1], evaluated[|evaluated| - 1];
      assert evaluated == front + [last];
      StatesRecord(front);
    }
  }

  lemma RecordsAreUnique(a: map<string, Lifecycle>, b: map<string, Lifecycle>, evaluated: seq<Evaluated>)
    requires Records(a, evaluated) && Records(b, evaluated)
    ensures a == b
  {
    forall id
      ensures id in a <==> id in b
      ensures id in a ==> a[id] == b[id]
    {
      if id in a { var e :| e in evaluated && e.candidateId == id; }
      if id in b { var e :| e in evaluated && e.candidateId == id; }
    }
  }

  lemma EvaluationIsRecorded(candidates: seq<Candidate>, evaluated: seq<Evaluated>, states: map<string, Lifecycle>)
    requires EvaluationSound(Refs(candidates), evaluated) && Records(states, evaluated)
    ensures states == States(evaluated)
    ensures forall c | c in candidates :: c.id in states
  {
    StatesRecord(evaluated);
    RecordsAreUnique(states, States(evaluated), evaluated);
    var refs := Refs(candidates);
    forall i | 0 <= i < |candidates|
      ensures candidates[i].id in states
    {
      assert refs[i] in refs && IsEvaluated(evaluated, refs[i]);
    }
  }

  predicate Accepted(r: Response) {
    && CandidatesSound(r)
    && var states := States(r.evaluated);
       && SelectionsSound(r.candidates, states, r.selections)
       && (forall c | c in r.candidates :: Offered(states, Selected(r.selections), c))
       && ProjectionSound(r.projection, HasEnergy(r.candidates), PublishedKeys(states, r.candidates))
  }

  function LegacyKeys(facts: seq<Fact>): seq<LegacyKey> { seq(|facts|, i requires 0 <= i < |facts| => facts[i].key) }

  predicate MapsTo(candidates: seq<Candidate>, k: LegacyKey) {
    exists c :: c in candidates && MapKey(c.key) == To(k)
  }

  lemma LegacyKeysGrow(states: map<string, Lifecycle>, candidates: seq<Candidate>)
    requires candidates != []
    ensures
      var front, last := candidates[..|candidates| - 1], candidates[|candidates| - 1];
      LegacyKeys(FactsOf(states, candidates))
        == LegacyKeys(FactsOf(states, front)) + if Published(states, last) then [MapKey(last.key).key] else []
  {
  }

  /** A fact's legacy key is that of a candidate. */
  lemma {:induction false} FactsAreMapped(states: map<string, Lifecycle>, candidates: seq<Candidate>)
    ensures forall k | k in LegacyKeys(FactsOf(states, candidates)) :: MapsTo(candidates, k)
  {
    if candidates != [] {
      var n := |candidates| - 1;
      var front, last := candidates[..n], candidates[n];
      assert last in candidates && forall c | c in front :: c in candidates;
      FactsAreMapped(states, front);
      LegacyKeysGrow(states, candidates);
      var before := FactsOf(states, front);
      forall k | k in LegacyKeys(FactsOf(states, candidates))
        ensures MapsTo(candidates, k)
      {
        if k in LegacyKeys(before) {
          assert MapsTo(front, k);
        } else {
          assert Published(states, last) && k == MapKey(last.key).key;
        }
      }
    }
  }

  /** Facts of distinct keys have distinct legacy keys. */
  lemma {:induction false} MappedFactsDiffer(states: map<string, Lifecycle>, candidates: seq<Candidate>)
    requires Distinct(Keys(candidates))
    ensures Distinct(LegacyKeys(FactsOf(states, candidates)))
  {
    if candidates != [] {
      var n := |candidates| - 1;
      var front, last := candidates[..n], candidates[n];
      assert Keys(candidates) == Keys(front) + [last.key];
      DistinctGrows(Keys(front), last.key);
      MappedFactsDiffer(states, front);
      LegacyKeysGrow(states, candidates);
      if Published(states, last) {
        var before, k := FactsOf(states, front), MapKey(last.key).key;
        DistinctGrows(LegacyKeys(before), k);
        FactsAreMapped(states, front);
        UnmappedYet(front, last.key);
      }
    }
  }

  lemma UnmappedYet(candidates: seq<Candidate>, key: Key)
    requires key !in Keys(candidates) && MapKey(key).To?
    ensures !MapsTo(candidates, MapKey(key).key)
  {
    forall i | 0 <= i < |candidates|
      ensures MapKey(candidates[i].key) != MapKey(key)
    {
      assert Keys(candidates)[i] == candidates[i].key;
      if MapKey(candidates[i].key) == MapKey(key) {
        LegacyKeyUndone(candidates[i].key);
        LegacyKeyUndone(key);
      }
    }
  }

  method ParseCandidates(r: Response) returns (ok: bool, states: map<string, Lifecycle>)
    ensures ok <==> CandidatesSound(r)
    ensures ok ==> states == States(r.evaluated) && forall c | c in r.candidates :: c.id in states
  {
    states := map[];
    if |r.candidates| > MAX_FACTS || exists c | c in r.candidates :: MapKey(c.key).BadDimension? { return false, states; }
    SizesTell(Keys(r.candidates));
    if |Elements(Keys(r.candidates))| != |r.candidates| || !NoIdRepeats(Refs(r.candidates)) { return false, states; }
    if !r.bound || |r.evaluated| != |r.candidates| { return false, states; }
    RevisionsFind(Refs(r.candidates));
    ok, states := CheckEvaluation(Revisions(Refs(r.candidates)), Refs(r.candidates), r.evaluated);
    if ok { EvaluationIsRecorded(r.candidates, r.evaluated, states); }
  }

  method CheckProjection(p: Projection, energy: bool, published: set<Key>) returns (ok: bool)
    ensures ok <==> ProjectionSound(p, energy, published)
  {
    if !p.bound || |p.requested| != |p.dispositions| { return false; }
    var requested;
    ok, requested := CheckRequested(p.requested);
    if !ok { return; }
    ok := CheckDispositions(p.dispositions, requested, energy, published);
  }

  method ParseResponse(r: Response) returns (facts: Option<seq<Fact>>)
    ensures facts.Some? <==> Accepted(r)
    ensures facts.Some? ==> facts.value == FactsOf(States(r.evaluated), r.candidates)
  {
    var ok, states := ParseCandidates(r);
    if !ok { return None; }
    var selected, collected, energy, published;
    ok, selected := CheckSelections(r.candidates, states, r.selections);
    if !ok { return None; }
    ok, collected, energy, published := CollectFacts(r.candidates, states, selected);
    if !ok { return None; }
    SizesTell(LegacyKeys(collected));
    MappedFactsDiffer(states, r.candidates);
    if |Elements(LegacyKeys(collected))| != |collected| { return None; }
    ok := CheckProjection(r.projection, energy, published);
    return if ok then Some(collected) else None;
  }

  // ---- what acceptance guarantees ----

  /** Every published key is accounted for by exactly one disposition. */
  lemma EveryKeyAccountedOnce(p: Projection, energy: bool, published: set<Key>, key: Key)
    requires ProjectionSound(p, energy, published) && key in published
    ensures exists i :: 0 <= i < |p.dispositions| && Accounts(p.dispositions[i], published) == Some(key)
    ensures forall i, j | 0 <= i < |p.dispositions| && 0 <= j < |p.dispositions| ::
      Accounts(p.dispositions[i], published) == Some(key) == Accounts(p.dispositions[j], published) ==> i == j
  {
    assert key in Accounted(p.dispositions, published);
    var d :| d in p.dispositions && Accounts(d, published) == Some(key);
    forall i, j | 0 <= i < |p.dispositions| && 0 <= j < |p.dispositions|
      && Accounts(p.dispositions[i], published) == Some(key) == Accounts(p.dispositions[j], published)
      ensures i == j
    {
      assert Pairs(p.dispositions)[i] == Pairs(p.dispositions)[j];
    }
  }

  /** Among mapped and admitted candidates, exactly those that are fresh and available are selected. */
  lemma SelectedIffCurrent(r: Response, c: Candidate)
    requires Accepted(r) && c in r.candidates && Mapped(c)
    ensures c.id in Selected(r.selections) <==> c.id in States(r.evaluated) && States(r.evaluated)[c.id] == CURRENT
  {
    if c.id in Selected(r.selections) {
      var s :| s in r.selections && s.candidateId == c.id;
      assert SelectionSound(r.candidates, States(r.evaluated), s);
    }
  }

  /** The published facts are of distinct legacy identities, so the check for duplicates never fires. */
  lemma DuplicateCheckNeverFires(r: Response)
    requires CandidatesSound(r)
    ensures
      var facts := FactsOf(States(r.evaluated), r.candidates);
      |Elements(LegacyKeys(facts))| == |facts|
  {
    MappedFactsDiffer(States(r.evaluated), r.candidates);
    SizesTell(LegacyKeys(FactsOf(States(r.evaluated), r.candidates)));
  }

  /** The disposition at `i` is right and no later one names the energy item. */
  predicate DecidesWell(dispositions: seq<Disposition>, i: nat) {
    && i < |dispositions| && EnergyRight(dispositions[i])
    && forall j :: i < j < |dispositions| ==> dispositions[j].pair.itemId != ENERGY_OUTPUT
  }

  /** With energy among the candidates, the last disposition that names its item decides. */
  lemma {:induction false} LastEnergyDispositionDecides(dispositions: seq<Disposition>)
    ensures EnergyLoss(true, dispositions) <==> exists i :: DecidesWell(dispositions, i)
  {
    if dispositions != [] {
      var n := |dispositions| - 1;
      var front, last := dispositions[..n], dispositions[n];
      if last.pair.itemId == ENERGY_OUTPUT {
        assert EnergyRight(last) ==> DecidesWell(dispositions, n);
      } else {
        LastEnergyDispositionDecides(front);
        assert forall i: nat | i < n :: DecidesWell(front, i) <==> DecidesWell(dispositions, i);
        assert !DecidesWell(dispositions, n);
      }
    }
  }

  predicate NamesEnergy(d: Disposition) { d.pair.itemId == ENERGY_OUTPUT }

  /** Either none of the dispositions that name the energy item is right, or all of them are. */
  predicate OneVerdict(dispositions: seq<Disposition>) {
    forall r, d | r in dispositions && d in dispositions :: EnergyRight(r) && NamesEnergy(d) ==> EnergyRight(d)
  }

  /** Where the dispositions agree, their order does not matter: one right disposition is all it takes. */
  lemma OneVerdictDecides(dispositions: seq<Disposition>)
    requires OneVerdict(dispositions)
    ensures EnergyLoss(true, dispositions) <==> exists d :: d in dispositions && EnergyRight(d)
  {
    if d :| d in dispositions && EnergyRight(d) {
      LastNaming(dispositions);
    } else {
      LastEnergyDispositionDecides(dispositions);
    }
  }

  lemma {:induction false} LastNaming(dispositions: seq<Disposition>)
    requires exists d :: d in dispositions && NamesEnergy(d)
    requires forall d | d in dispositions :: NamesEnergy(d) ==> EnergyRight(d)
    ensures EnergyLoss(true, dispositions)
  {
    var n := |dispositions| - 1;
    var front, last := dispositions[..n], dispositions[n];
    assert dispositions == front + [last];
    assert last in dispositions;
    if !NamesEnergy(last) { LastNaming(front); }
  }

  /** Behind any dispositions: right last is accepted, right but one is not. */
  lemma EnergyDependsOnOrder(before: seq<Disposition>, right: Disposition, other: Disposition)
    requires EnergyRight(right) && NamesEnergy(other) && !EnergyRight(other)
    ensures EnergyLoss(true, before + [other, right]) && !EnergyLoss(true, before + [right, other])
  {
    var late, early := before + [other, right], before + [right, other];
    assert late[..|late| - 1] == before + [other] && early[..|early| - 1] == before + [right];
  }

  /** A projection that names the energy item twice: in one order it is accepted, in the other it is not. */
  lemma AnAcceptedProjectionCanBeReordered(right: Disposition, other: Disposition)
    requires EnergyRight(right) && right.losses == ["policy"]
    requires other.pair == Pair("relation", ENERGY_OUTPUT) && other.sourceKeys == []
    ensures
      var requested := [right.pair, other.pair];
      && ProjectionSound(Projection(true, requested, [other, right]), true, {ENERGY_KEY})
      && !ProjectionSound(Projection(true, requested, [right, other]), true, {ENERGY_KEY})
  {
    var late := [other, right];
    EnergyDependsOnOrder([], right, other);
    assert [] + late == late && [] + [right, other] == [right, other];
    assert Pairs(late) == [other.pair, right.pair];
    assert right in late && Accounts(right, {ENERGY_KEY}) == Some(ENERGY_KEY);
    assert Accounts(other, {ENERGY_KEY}) == None;
    assert Accounted(late, {ENERGY_KEY}) == {ENERGY_KEY};
  }

  // ---- in which order the dispositions come ----

  predicate Reordered(a: seq<Disposition>, b: seq<Disposition>) { multiset(a) == multiset(b) }

  lemma ReorderedMembers(a: seq<Disposition>, b: seq<Disposition>)
    requires Reordered(a, b)
    ensures |a| == |b| && forall d :: d in a <==> d in b
  {
    assert |multiset(a)| == |a| && |multiset(b)| == |b|;
    forall d
      ensures d in a <==> d in b
    {
      assert d in a <==> d in multiset(a);
      assert d in b <==> d in multiset(b);
    }
  }

  lemma PairsKnowPositions(dispositions: seq<Disposition>, d: Disposition, e: Disposition)
    requires Distinct(Pairs(dispositions)) && d in dispositions && e in dispositions && d.pair == e.pair
    ensures d == e
  {
    var i :| 0 <= i < |dispositions| && dispositions[i] == d;
    var j :| 0 <= j < |dispositions| && dispositions[j] == e;
    assert Pairs(dispositions)[i] == Pairs(dispositions)[j];
  }

  lemma ReorderedPairsDiffer(a: seq<Disposition>, b: seq<Disposition>)
    requires Reordered(a, b) && Distinct(Pairs(a))
    ensures Distinct(Pairs(b))
  {
    ReorderedMembers(a, b);
    assert Distinct(a) by {
      assert forall i | 0 <= i < |a| :: Pairs(a)[i] == a[i].pair;
    }
    forall d
      ensures multiset(b)[d] <= 1
    {
      DistinctCounts(a, d);
    }
    CountedOnceIsDistinct(b);
    forall i, j | 0 <= i < j < |b|
      ensures Pairs(b)[i] != Pairs(b)[j]
    {
      if b[i].pair == b[j].pair { PairsKnowPositions(a, b[i], b[j]); }
    }
  }

  /** Everything but the verdict on energy is the same in every order. */
  lemma ReorderedAccountsSound(p: Projection, dispositions: seq<Disposition>, published: set<Key>)
    requires Reordered(p.dispositions, dispositions) && AccountsSound(p, published)
    ensures AccountsSound(p.(dispositions := dispositions), published)
  {
    ReorderedMembers(p.dispositions, dispositions);
    ReorderedPairsDiffer(p.dispositions, dispositions);
    assert Accounted(dispositions, published) == Accounted(p.dispositions, published);
    forall pair
      ensures pair in Elements(Pairs(dispositions)) <==> pair in Elements(Pairs(p.dispositions))
    {
      PairIsNamed(dispositions, pair);
      PairIsNamed(p.dispositions, pair);
    }
  }

  lemma PairIsNamed(dispositions: seq<Disposition>, pair: Pair)
    ensures pair in Elements(Pairs(dispositions)) <==> exists d :: d in dispositions && d.pair == pair
  {
    if pair in Elements(Pairs(dispositions)) {
      var i :| 0 <= i < |Pairs(dispositions)| && Pairs(dispositions)[i] == pair;
      assert dispositions[i] in dispositions;
    }
    if d :| d in dispositions && d.pair == pair {
      var i :| 0 <= i < |dispositions| && dispositions[i] == d;
      assert Pairs(dispositions)[i] == pair;
    }
  }

  /** Acceptance with energy is the same in every order. */
  ghost predicate OrderIrrelevant(p: Projection, published: set<Key>) {
    forall ds | Reordered(p.dispositions, ds) ::
      ProjectionSound(p.(dispositions := ds), true, published) <==> ProjectionSound(p, true, published)
  }

  /**
   * The order of a projection's dispositions does not matter exactly when the projection is unsound in another
   * respect, or no disposition is right about energy, or every one that names the energy item is.
   */
  lemma EnergyOrderIrrelevantIff(p: Projection, published: set<Key>)
    ensures OrderIrrelevant(p, published) <==> !AccountsSound(p, published) || OneVerdict(p.dispositions)
  {
    if !AccountsSound(p, published) || OneVerdict(p.dispositions) {
      forall ds | Reordered(p.dispositions, ds)
        ensures ProjectionSound(p.(dispositions := ds), true, published) <==> ProjectionSound(p, true, published)
      {
        SameInThisOrder(p, ds, published);
      }
    } else {
      var right, other :| right in p.dispositions && other in p.dispositions
        && EnergyRight(right) && NamesEnergy(other) && !EnergyRight(other);
      var others := MoveBehind(p.dispositions, right, other);
      EnergyDependsOnOrder(others, right, other);
      ReorderedAccountsSound(p, others + [right, other], published);
      ReorderedAccountsSound(p, others + [other, right], published);
      assert ProjectionSound(p.(dispositions := others + [other, right]), true, published);
      assert !ProjectionSound(p.(dispositions := others + [right, other]), true, published);
    }
  }

  lemma SameInThisOrder(p: Projection, ds: seq<Disposition>, published: set<Key>)
    requires Reordered(p.dispositions, ds)
    requires !AccountsSound(p, published) || OneVerdict(p.dispositions)
    ensures ProjectionSound(p.(dispositions := ds), true, published) <==> ProjectionSound(p, true, published)
  {
    var q := p.(dispositions := ds);
    if AccountsSound(p, published) {
      ReorderedAccountsSound(p, ds, published);
      ReorderedMembers(p.dispositions, ds);
      OneVerdictDecides(p.dispositions);
      OneVerdictDecides(ds);
    } else if AccountsSound(q, published) {
      ReorderedAccountsSound(q, p.dispositions, published);
    }
  }

  /** As no pair is named twice, that is: no disposition is right about energy, or no other one names its item. */
  lemma OneVerdictIff(p: Projection, published: set<Key>)
    requires AccountsSound(p, published)
    ensures OneVerdict(p.dispositions) <==>
      forall r, d | r in p.dispositions && d in p.dispositions :: EnergyRight(r) && NamesEnergy(d) ==> d == r
  {
    forall r, d | r in p.dispositions && d in p.dispositions && EnergyRight(r) && EnergyRight(d)
      ensures r == d
    {
      PairsKnowPositions(p.dispositions, r, d);
    }
  }

  // ---- responses that are accepted ----

  function LossesOf(output: Output): seq<string> {
    if "provenance" in output.losses then ["provenance"]
    else if "symbol" in output.losses then ["symbol"]
    else if "policy" in output.losses then ["policy"]
    else []
  }

  lemma LossesAreListed(key: Key)
    requires OutputOf(key).Some?
    ensures Distinct(LossesOf(OutputOf(key).value)) && Elements(LossesOf(OutputOf(key).value)) == OutputOf(key).value.losses
    ensures OutputOf(key).value.item == ENERGY_OUTPUT <==> key == ENERGY_KEY
    ensures key == ENERGY_KEY ==> OutputOf(key).value.outcome == "transformed" && LossesOf(OutputOf(key).value) == ["policy"]
  {
  }

  function AccountFor(key: Key): Disposition
    requires OutputOf(key).Some?
  {
    var output := OutputOf(key).value;
    Disposition(
      Pair("fact", output.item), output.outcome, [key], LossesOf(output), Some("counter_continuity_unavailable"))
  }

  function SelectAll(candidates: seq<Candidate>): seq<Selection> {
    seq(|candidates|, i requires 0 <= i < |candidates| =>
      Selection(true, candidates[i].id, candidates[i].key, candidates[i].revision))
  }

  function AccountForAll(candidates: seq<Candidate>): seq<Disposition>
    requires forall c | c in candidates :: OutputOf(c.key).Some?
  {
    seq(|candidates|, i requires 0 <= i < |candidates| => AccountFor(candidates[i].key))
  }

  /** Mapped candidates of distinct keys and ids. */
  predicate MayPublish(candidates: seq<Candidate>) {
    && |candidates| <= 256 && Distinct(Keys(candidates)) && IdsDiffer(Refs(candidates))
    && forall c | c in candidates :: Mapped(c) && OutputOf(c.key).Some?
  }

  lemma AllAreCurrent(candidates: seq<Candidate>)
    requires IdsDiffer(Refs(candidates))
    ensures forall c | c in candidates ::
      c.id in States(FoundFresh(Refs(candidates))) && States(FoundFresh(Refs(candidates)))[c.id] == CURRENT
  {
    var evaluated := FoundFresh(Refs(candidates));
    FoundFreshIsSound(Refs(candidates));
    StatesRecord(evaluated);
    forall i | 0 <= i < |candidates|
      ensures candidates[i].id in States(evaluated) && States(evaluated)[candidates[i].id] == CURRENT
    {
      assert evaluated[i] in evaluated && evaluated[i].candidateId == candidates[i].id;
    }
  }

  lemma AllAreSelected(candidates: seq<Candidate>, states: map<string, Lifecycle>)
    requires IdsDiffer(Refs(candidates)) && forall c | c in candidates :: c.id in states && states[c.id] == CURRENT
    ensures SelectionsSound(candidates, states, SelectAll(candidates))
    ensures forall c | c in candidates :: c.id in Selected(SelectAll(candidates))
  {
    var selections := SelectAll(candidates);
    forall i | 0 <= i < |candidates|
      ensures Selects(selections[i], candidates[i]) && candidates[i] in candidates && selections[i] in selections
    {
    }
    forall i, j | 0 <= i < j < |candidates|
      ensures selections[i].candidateId != selections[j].candidateId
    {
      assert Refs(candidates)[i].id != Refs(candidates)[j].id;
    }
  }

  lemma PairsDiffer(candidates: seq<Candidate>)
    requires MayPublish(candidates)
    ensures Distinct(Pairs(AccountForAll(candidates)))
  {
    forall i, j | 0 <= i < j < |candidates|
      ensures Pairs(AccountForAll(candidates))[i] != Pairs(AccountForAll(candidates))[j]
    {
      assert candidates[i] in candidates && candidates[j] in candidates;
      assert Keys(candidates)[i] != Keys(candidates)[j];
      ItemNamesItsSource(candidates[i].key);
      ItemNamesItsSource(candidates[j].key);
    }
  }

  lemma AllAreAccounted(candidates: seq<Candidate>, published: set<Key>)
    requires MayPublish(candidates) && published == Elements(Keys(candidates))
    ensures Accounted(AccountForAll(candidates), published) == published
    ensures forall d | d in AccountForAll(candidates) :: LossListSound(d)
  {
    var ds := AccountForAll(candidates);
    forall i | 0 <= i < |candidates|
      ensures Accounts(ds[i], published) == Some(candidates[i].key) && LossListSound(ds[i]) && ds[i] in ds
    {
      assert candidates[i] in candidates && Keys(candidates)[i] in published;
      LossesAreListed(candidates[i].key);
    }
    forall key | key in published
      ensures key in Accounted(ds, published)
    {
      var i :| 0 <= i < |candidates| && Keys(candidates)[i] == key;
      assert Accounts(ds[i], published) == Some(key);
    }
  }

  lemma {:induction false} NoEnergyNoLoss(dispositions: seq<Disposition>)
    ensures EnergyLoss(false, dispositions)
  {
    if dispositions != [] { NoEnergyNoLoss(dispositions[..|dispositions| - 1]); }
  }

  lemma EnergyIsRight(candidates: seq<Candidate>)
    requires MayPublish(candidates)
    ensures EnergyLoss(HasEnergy(candidates), AccountForAll(candidates))
  {
    var ds := AccountForAll(candidates);
    forall i | 0 <= i < |candidates|
      ensures NamesEnergy(ds[i]) <==> candidates[i].key == ENERGY_KEY
      ensures NamesEnergy(ds[i]) ==> EnergyRight(ds[i])
    {
      assert candidates[i] in candidates;
      LossesAreListed(candidates[i].key);
    }
    if HasEnergy(candidates) {
      var c :| c in candidates && Mapped(c) && c.key == ENERGY_KEY;
      var i :| 0 <= i < |candidates| && candidates[i] == c;
      assert ds[i] in ds && EnergyRight(ds[i]);
      OneVerdictDecides(ds);
    } else {
      NoEnergyNoLoss(ds);
    }
  }

  lemma AllArePublished(states: map<string, Lifecycle>, candidates: seq<Candidate>)
    requires forall c | c in candidates :: Mapped(c) && c.id in states && states[c.id] == CURRENT
    ensures PublishedKeys(states, candidates) == Elements(Keys(candidates))
  {
    forall c | c in candidates
      ensures c.key in Keys(candidates)
    {
      var i :| 0 <= i < |candidates| && candidates[i] == c;
      assert Keys(candidates)[i] == c.key;
    }
    forall i | 0 <= i < |candidates|
      ensures Keys(candidates)[i] in PublishedKeys(states, candidates)
    {
      assert candidates[i] in candidates && Published(states, candidates[i]);
    }
  }

  /** Any mapped candidates, all found fresh, selected and accounted for, make an accepted response. */
  lemma FreshResponsesAreAccepted(candidates: seq<Candidate>)
    requires MayPublish(candidates)
    ensures
      var ds := AccountForAll(candidates);
      Accepted(Response(
        candidates, true, FoundFresh(Refs(candidates)), SelectAll(candidates), Projection(true, Pairs(ds), ds)))
  {
    var states := States(FoundFresh(Refs(candidates)));
    FoundFreshIsSound(Refs(candidates));
    AllAreCurrent(candidates);
    AllAreSelected(candidates, states);
    PairsDiffer(candidates);
    AllArePublished(states, candidates);
    AllAreAccounted(candidates, Elements(Keys(candidates)));
    EnergyIsRight(candidates);
  }
}

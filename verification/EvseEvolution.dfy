/**
 * How the EVSE consumer evolves over refreshes: accepted revisions, descriptors that only grow, and a
 * store that is written before anything new is published and reads back as it was written.
 */
module EvseEvolution {
  import opened Prelude
  import opened Distinctness
  import opened M2MEvaluation
  import E = EvseProjection

  /** A descriptor's identity: fact, dimension kind and dimension value. */
  datatype Identity = Identity(factId: string, kind: string, value: string)

  datatype Descriptor = Descriptor(identity: Identity, uniqueId: string)

  function KindOf(factId: string): string { if factId == E.CONFIGURED then "evse" else "connector" }

  function IdentityOf(key: E.Key): Identity { Identity(key.factId, KindOf(key.factId), key.text) }

  function Identities(ds: seq<Descriptor>): seq<Identity> { seq(|ds|, i requires 0 <= i < |ds| => ds[i].identity) }

  function UniqueIds(ds: seq<Descriptor>): seq<string> { seq(|ds|, i requires 0 <= i < |ds| => ds[i].uniqueId) }

  // ---- the descriptor store ----

  const SCHEMA_VERSION := 1

  /** A stored mapping; None stands for options that hold no store. */
  datatype Store = Misshapen | Store(version: int, asset: string, descriptors: seq<Descriptor>)

  datatype Result<T> = Ok(value: T) | Refused

  function Prefix(entryId: string): string { entryId + "-evse-" }

  /** What loading demands of a stored descriptor. */
  predicate Loadable(entryId: string, d: Descriptor) {
    && E.Known(d.identity.factId) && d.identity.kind == KindOf(d.identity.factId)
    && TextFits(d.identity.value, 256) && TextFits(d.uniqueId, 255)
    && Prefix(entryId) <= d.uniqueId
  }

  /** What writing demands of the list as a whole; `_validate_descriptor_dimension` of each entry. */
  predicate Storable(ds: seq<Descriptor>) {
    && |ds| <= E.MAX_FACTS && Distinct(Identities(ds)) && Distinct(UniqueIds(ds))
    && forall d | d in ds :: d.identity.kind in {"evse", "connector"} && TextFits(d.identity.value, 256)
  }

  function Serialize(asset: string, ds: seq<Descriptor>): Result<Store> {
    if Storable(ds) then Ok(Store(SCHEMA_VERSION, asset, ds)) else Refused
  }

  function Load(stored: Option<Store>, entryId: string, asset: string): Result<seq<Descriptor>> {
    if stored.None? then Ok([])
    else if stored.value.Misshapen? then Refused
    else if stored.value.asset != asset then Ok([])
    else if stored.value.version != SCHEMA_VERSION || |stored.value.descriptors| > E.MAX_FACTS then Refused
    else
      var ds := stored.value.descriptors;
      if (forall d | d in ds :: Loadable(entryId, d)) && Distinct(Identities(ds)) && Distinct(UniqueIds(ds)) then Ok(ds)
      else Refused
  }

  method LoadStore(stored: Option<Store>, entryId: string, asset: string) returns (loaded: Result<seq<Descriptor>>)
    ensures loaded == Load(stored, entryId, asset)
  {
    if stored.None? { return Ok([]); }
    if stored.value.Misshapen? { return Refused; }
    if stored.value.asset != asset { return Ok([]); }
    var ds := stored.value.descriptors;
    if stored.value.version != SCHEMA_VERSION || |ds| > E.MAX_FACTS { return Refused; }
    var result := [];
    for i := 0 to |ds|
      invariant result == ds[..i] && forall d | d in ds[..i] :: Loadable(entryId, d)
    {
      if !Loadable(entryId, ds[i]) {
        assert ds[i] in ds;
        return Refused;
      }
      assert ds[..i + 1] == ds[..i] + [ds[i]];
      result := result + [ds[i]];
    }
    assert ds[..|ds|] == ds;
    SizesTell(Identities(ds));
    SizesTell(UniqueIds(ds));
    if |Elements(Identities(result))| != |result| || |Elements(UniqueIds(result))| != |result| { return Refused; }
    return Ok(result);
  }

  /** No store, or one of another asset, is empty; one of this asset in another version, or too long, is refused. */
  lemma WhatIsNotLoaded(stored: Option<Store>, entryId: string, asset: string)
    ensures stored.None? || (stored.value.Store? && stored.value.asset != asset) ==> Load(stored, entryId, asset) == Ok([])
    ensures stored.Some? && stored.value.Misshapen? ==> Load(stored, entryId, asset) == Refused
    ensures stored.Some? && stored.value.Store? && stored.value.asset == asset ==>
      (stored.value.version != 1 || |stored.value.descriptors| > 256 ==> Load(stored, entryId, asset) == Refused)
  {
  }

  /** Loading undoes writing, exactly when every descriptor is this entry's own. */
  lemma LoadUndoesSerialize(entryId: string, asset: string, ds: seq<Descriptor>)
    requires Serialize(asset, ds).Ok?
    ensures Load(Some(Serialize(asset, ds).value), entryId, asset) == Ok(ds)
      <==> forall d | d in ds :: Loadable(entryId, d)
  {
  }

  /** And writing undoes loading: what is loaded can be stored again, and is stored as it was. */
  lemma SerializeUndoesLoad(entryId: string, asset: string, stored: Store)
    requires stored.Store? && stored.asset == asset && Load(Some(stored), entryId, asset).Ok?
    ensures Serialize(asset, Load(Some(stored), entryId, asset).value) == Ok(stored)
  {
    forall d | d in stored.descriptors
      ensures d.identity.kind in {"evse", "connector"} && TextFits(d.identity.value, 256)
    {
      assert Loadable(entryId, d);
    }
  }

  // ---- growth ----

  /** What one coordinator is set up with; `digest` is the SHA-256 in hexadecimal of asset and identity. */
  datatype Setup = Setup(entryId: string, asset: string, digest: Identity -> string)

  function NewDescriptor(setup: Setup, key: E.Key): Descriptor {
    Descriptor(IdentityOf(key), Prefix(setup.entryId) + setup.digest(IdentityOf(key)))
  }

  /** The descriptors after the first `n` facts: unknown ones join while there is room. */
  function Grown(setup: Setup, before: seq<Descriptor>, facts: seq<E.Fact>): seq<Descriptor> {
    if facts == [] then before
    else
      var sofar, key := Grown(setup, before, facts[..|facts| - 1]), facts[|facts| - 1].key;
      if IdentityOf(key) !in Identities(sofar) && |sofar| < E.MAX_FACTS then sofar + [NewDescriptor(setup, key)] else sofar
  }

  method Grow(setup: Setup, before: seq<Descriptor>, facts: seq<E.Fact>) returns (descriptors: seq<Descriptor>)
    ensures descriptors == Grown(setup, before, facts)
  {
    descriptors := before;
    var known := Elements(Identities(before));
    for i := 0 to |facts|
      invariant descriptors == Grown(setup, before, facts[..i]) && known == Elements(Identities(descriptors))
    {
      assert facts[..i + 1][..i] == facts[..i];
      var key := facts[i].key;
      if IdentityOf(key) !in known && |descriptors| < E.MAX_FACTS {
        var d := NewDescriptor(setup, key);
        assert Identities(descriptors + [d]) == Identities(descriptors) + [d.identity];
        descriptors := descriptors + [d];
        known := known + {d.identity};
      }
    }
    assert facts[..|facts|] == facts;
  }

  /** Growth keeps every descriptor with its id, adds no identity twice, and stops at the limit. */
  lemma {:induction false} GrowthOnlyAdds(setup: Setup, before: seq<Descriptor>, facts: seq<E.Fact>)
    ensures before <= Grown(setup, before, facts)
    ensures Distinct(Identities(before)) ==> Distinct(Identities(Grown(setup, before, facts)))
    ensures |before| <= E.MAX_FACTS ==> |Grown(setup, before, facts)| <= E.MAX_FACTS
    ensures forall d | d in Grown(setup, before, facts) && d !in before ::
      exists f :: f in facts && d == NewDescriptor(setup, f.key)
  {
    if facts != [] {
      var front, last := facts[..|facts| - 1], facts[|facts| - 1];
      GrowthOnlyAdds(setup, before, front);
      var sofar := Grown(setup, before, front);
      var d := NewDescriptor(setup, last.key);
      assert Identities(sofar + [d]) == Identities(sofar) + [d.identity];
      DistinctGrows(Identities(sofar), d.identity);
      assert facts == front + [last];
    }
  }

  /** Every fact is described after growth, unless the limit was reached. */
  lemma {:induction false} GrowthDescribes(setup: Setup, before: seq<Descriptor>, facts: seq<E.Fact>)
    ensures |Grown(setup, before, facts)| < E.MAX_FACTS ==>
      forall f | f in facts :: IdentityOf(f.key) in Identities(Grown(setup, before, facts))
  {
    if facts != [] {
      var front, last := facts[..|facts| - 1], facts[|facts| - 1];
      GrowthDescribes(setup, before, front);
      var sofar := Grown(setup, before, front);
      var d := NewDescriptor(setup, last.key);
      assert Identities(sofar + [d]) == Identities(sofar) + [d.identity];
      assert facts == front + [last];
    }
  }

  // ---- refreshes ----

  datatype Data = Data(descriptors: seq<Descriptor>, facts: map<Identity, E.Fact>, available: bool, error: Option<string>)

  /** The coordinator and the option entry that outlives it. */
  datatype State = State(data: Data, lastRevision: Option<nat>, stored: Option<Store>)

  /** How a persist call ends when the store can be written: done, or failed with or without effect. */
  datatype Write = Written | WriteFailed(effect: bool)

  datatype Event =
    | NotConfigured
    | TransportFailed
    | RemoteRefused(code: string)
    | ContractFailed
    | Received(revision: Option<int>, facts: seq<E.Fact>, write: Write)
    | MarkedUnavailable(reason: string)

  function Unavailable(s: State, error: string): State { s.(data := s.data.(available := false, error := Some(error))) }

  predicate RevisionAccepted(s: State, revision: Option<int>) {
    revision.Some? && revision.value >= 1 && (s.lastRevision.Some? ==> s.lastRevision.value <= revision.value)
  }

  function FactsByIdentity(facts: seq<E.Fact>): map<Identity, E.Fact> {
    if facts == [] then map[]
    else FactsByIdentity(facts[..|facts| - 1])[IdentityOf(facts[|facts| - 1].key) := facts[|facts| - 1]]
  }

  function Accept(s: State, revision: int, descriptors: seq<Descriptor>, facts: seq<E.Fact>): State
    requires revision >= 1
  {
    s.(data := Data(descriptors, FactsByIdentity(facts), true, None), lastRevision := Some(revision))
  }

  /** A refused or failed write raises out of the refresh: nothing is published, the revision is not taken. */
  function Receive(setup: Setup, s: State, revision: Option<int>, facts: seq<E.Fact>, write: Write): State {
    if !RevisionAccepted(s, revision) then Unavailable(s, "contract_failure")
    else
      var descriptors := Grown(setup, s.data.descriptors, facts);
      if descriptors == s.data.descriptors then Accept(s, revision.value, descriptors, facts)
      else
        match Serialize(setup.asset, descriptors)
        case Refused => s
        case Ok(store) =>
          match write
          case Written => Accept(s, revision.value, descriptors, facts).(stored := Some(store))
          case WriteFailed(effect) => if effect then s.(stored := Some(store)) else s
  }

  function Step(setup: Setup, s: State, e: Event): State {
    match e
    case NotConfigured => Unavailable(s, "configuration_failure")
    case TransportFailed => Unavailable(s, "transport_failure")
    case RemoteRefused(code) => Unavailable(s, code)
    case ContractFailed => Unavailable(s, "contract_failure")
    case Received(revision, facts, write) => Receive(setup, s, revision, facts, write)
    case MarkedUnavailable(reason) => Unavailable(s, reason)
  }

  function Run(setup: Setup, s: State, events: seq<Event>): State { Fold((a, e) => Step(setup, a, e), s, events) }

  /** The descriptors that a restart would begin with; a store that does not load counts as empty. */
  function Restarted(setup: Setup, stored: Option<Store>): seq<Descriptor> {
    var loaded := Load(stored, setup.entryId, setup.asset);
    if loaded.Ok? then loaded.value else []
  }

  function Started(setup: Setup, stored: Option<Store>): State {
    State(Data(Restarted(setup, stored), map[], false, Some("not_refreshed")), None, stored)
  }

  /** Unique ids of this entry fit the store, and published dimension values are bounded texts. */
  predicate IdsFit(setup: Setup, facts: seq<E.Fact>) {
    forall f | f in facts ::
      && E.Known(f.key.factId) && TextFits(f.key.text, 256) && TextFits(NewDescriptor(setup, f.key).uniqueId, 255)
  }

  predicate EventFits(setup: Setup, e: Event) { e.Received? ==> IdsFit(setup, e.facts) }

  // ---- what holds on every run ----

  predicate NoLess(a: Option<nat>, b: Option<nat>) { a.Some? ==> b.Some? && a.value <= b.value }

  lemma StepOnlyAdvances(setup: Setup, s: State, e: Event)
    ensures NoLess(s.lastRevision, Step(setup, s, e).lastRevision)
    ensures s.data.descriptors <= Step(setup, s, e).data.descriptors
  {
    if e.Received? { GrowthOnlyAdds(setup, s.data.descriptors, e.facts); }
  }

  /** Accepted revisions never decrease, and every descriptor stays in its place with its id. */
  lemma {:induction false} RunOnlyAdvances(setup: Setup, s: State, events: seq<Event>)
    ensures NoLess(s.lastRevision, Run(setup, s, events).lastRevision)
    ensures s.data.descriptors <= Run(setup, s, events).data.descriptors
  {
    if events != [] {
      RunOnlyAdvances(setup, s, events[..|events| - 1]);
      StepOnlyAdvances(setup, Run(setup, s, events[..|events| - 1]), events[|events| - 1]);
    }
  }

  predicate AllLoadable(setup: Setup, ds: seq<Descriptor>) {
    && |ds| <= E.MAX_FACTS && Distinct(Identities(ds))
    && forall d | d in ds :: Loadable(setup.entryId, d)
  }

  /** What is published is valid and would survive a restart. */
  predicate Safe(setup: Setup, s: State) {
    AllLoadable(setup, s.data.descriptors) && s.data.descriptors <= Restarted(setup, s.stored)
  }

  lemma GrownIsLoadable(setup: Setup, before: seq<Descriptor>, facts: seq<E.Fact>)
    requires AllLoadable(setup, before) && IdsFit(setup, facts)
    ensures AllLoadable(setup, Grown(setup, before, facts)) && before <= Grown(setup, before, facts)
  {
    GrowthOnlyAdds(setup, before, facts);
    forall d | d in Grown(setup, before, facts)
      ensures Loadable(setup.entryId, d)
    {
      if d !in before {
        var f :| f in facts && d == NewDescriptor(setup, f.key);
        assert Prefix(setup.entryId) <= d.uniqueId;
      }
    }
  }

  lemma StepKeepsSafe(setup: Setup, s: State, e: Event)
    requires Safe(setup, s) && EventFits(setup, e)
    ensures Safe(setup, Step(setup, s, e))
  {
    if e.Received? {
      var grown := Grown(setup, s.data.descriptors, e.facts);
      GrownIsLoadable(setup, s.data.descriptors, e.facts);
      if Serialize(setup.asset, grown).Ok? { LoadUndoesSerialize(setup.entryId, setup.asset, grown); }
    }
  }

  lemma StartIsSafe(setup: Setup, stored: Option<Store>)
    ensures Safe(setup, Started(setup, stored))
  {
  }

  /**
   * Nothing is published that is not stored: at any point of any run, whatever writes failed, a restart
   * begins with every published descriptor in its place and with its id.
   */
  lemma {:induction false} RestartForgetsNothing(setup: Setup, stored: Option<Store>, events: seq<Event>)
    requires forall e | e in events :: EventFits(setup, e)
    ensures
      var s := Run(setup, Started(setup, stored), events);
      && AllLoadable(setup, s.data.descriptors)
      && s.data.descriptors <= Restarted(setup, s.stored)
  {
    StartIsSafe(setup, stored);
    if events != [] {
      var front, last := events[..|events| - 1], events[|events| - 1];
      assert last in events && forall e | e in front :: e in events;
      RestartForgetsNothing(setup, stored, front);
      StepKeepsSafe(setup, Run(setup, Started(setup, stored), front), last);
    }
  }

  /** A store is written that the loader will refuse, and something published depends on it. */
  predicate Forgets(setup: Setup, s: State, e: Event) {
    && e.Received? && RevisionAccepted(s, e.revision)
    && var grown := Grown(setup, s.data.descriptors, e.facts);
       && grown != s.data.descriptors && Serialize(setup.asset, grown).Ok?
       && (exists d | d in grown :: !Loadable(setup.entryId, d))
       && (e.write.Written? || (e.write.effect && s.data.descriptors != []))
  }

  lemma GrowthIsSafeIff(setup: Setup, s: State, e: Event)
    requires Safe(setup, s) && e.Received? && RevisionAccepted(s, e.revision)
    ensures Safe(setup, Step(setup, s, e)) <==> !Forgets(setup, s, e)
  {
    var grown := Grown(setup, s.data.descriptors, e.facts);
    GrowthOnlyAdds(setup, s.data.descriptors, e.facts);
    if grown != s.data.descriptors && Serialize(setup.asset, grown).Ok? {
      LoadUndoesSerialize(setup.entryId, setup.asset, grown);
    }
  }

  ghost predicate SafeAllAlong(setup: Setup, stored: Option<Store>, events: seq<Event>) {
    forall k | 0 <= k <= |events| :: Safe(setup, Run(setup, Started(setup, stored), events[..k]))
  }

  ghost predicate NeverForgets(setup: Setup, stored: Option<Store>, events: seq<Event>) {
    forall k | 0 <= k < |events| :: !Forgets(setup, Run(setup, Started(setup, stored), events[..k]), events[k])
  }

  lemma NextIsSafeIff(setup: Setup, stored: Option<Store>, events: seq<Event>, k: nat)
    requires k < |events| && Safe(setup, Run(setup, Started(setup, stored), events[..k]))
    ensures Safe(setup, Run(setup, Started(setup, stored), events[..k + 1]))
      <==> !Forgets(setup, Run(setup, Started(setup, stored), events[..k]), events[k])
  {
    var s, e := Run(setup, Started(setup, stored), events[..k]), events[k];
    assert events[..k + 1][..k] == events[..k];
    if e.Received? && RevisionAccepted(s, e.revision) { GrowthIsSafeIff(setup, s, e); }
  }

  lemma {:induction false} SafeSoFar(setup: Setup, stored: Option<Store>, events: seq<Event>, k: nat)
    requires k <= |events| && NeverForgets(setup, stored, events)
    ensures Safe(setup, Run(setup, Started(setup, stored), events[..k]))
  {
    if k == 0 {
      StartIsSafe(setup, stored);
    } else {
      SafeSoFar(setup, stored, events, k - 1);
      NextIsSafeIff(setup, stored, events, k - 1);
    }
  }

  /**
   * All along a run, whatever writes fail, a restart would begin with every published descriptor in its place and
   * with its id, exactly when no store is written whose new descriptors the loader refuses.
   */
  lemma RestartForgetsNothingIff(setup: Setup, stored: Option<Store>, events: seq<Event>)
    ensures SafeAllAlong(setup, stored, events) <==> NeverForgets(setup, stored, events)
  {
    if SafeAllAlong(setup, stored, events) {
      forall k | 0 <= k < |events|
        ensures !Forgets(setup, Run(setup, Started(setup, stored), events[..k]), events[k])
      {
        assert Safe(setup, Run(setup, Started(setup, stored), events[..k + 1]));
        NextIsSafeIff(setup, stored, events, k);
      }
    }
    if NeverForgets(setup, stored, events) {
      forall k | 0 <= k <= |events|
        ensures Safe(setup, Run(setup, Started(setup, stored), events[..k]))
      {
        SafeSoFar(setup, stored, events, k);
      }
    }
  }

  lemma FirstGrowth(setup: Setup, facts: seq<E.Fact>)
    requires |facts| == 1
    ensures Grown(setup, [], facts) == [NewDescriptor(setup, facts[0].key)]
  {
    var none: seq<Descriptor> := [];
    assert facts[..|facts| - 1] == [];
    assert Identities(none) == [];
    assert none + [NewDescriptor(setup, facts[0].key)] == [NewDescriptor(setup, facts[0].key)];
  }

  /** Ids too long for the loader are written but not read back: a restart forgets them. */
  lemma LongIdsAreForgotten(setup: Setup, facts: seq<E.Fact>)
    requires |facts| == 1 && E.Known(facts[0].key.factId) && TextFits(facts[0].key.text, 256)
    requires |NewDescriptor(setup, facts[0].key).uniqueId| > 255
    ensures
      var s := Step(setup, Started(setup, None), Received(Some(1), facts, Written));
      s.data.descriptors == [NewDescriptor(setup, facts[0].key)] && Restarted(setup, s.stored) == []
  {
    var ds := [NewDescriptor(setup, facts[0].key)];
    FirstGrowth(setup, facts);
    assert Serialize(setup.asset, ds).Ok?;
    LoadUndoesSerialize(setup.entryId, setup.asset, ds);
    assert ds[0] in ds && !Loadable(setup.entryId, ds[0]);
  }

  /** What a response is parsed into: known facts, with bounded dimension values. */
  predicate EventParsed(e: Event) {
    e.Received? ==> forall f | f in e.facts :: E.Known(f.key.factId) && TextFits(f.key.text, 256)
  }

  /** The facts of an accepted response are parsed, and each has its own identity. */
  lemma AcceptedResponsesAreParsed(r: E.Response, facts: seq<E.Fact>, revision: Option<int>, write: Write)
    requires E.Accepted(r) && E.InOrder(facts) && multiset(facts) == multiset(E.FactsOf(r.candidates))
    ensures EventParsed(Received(revision, facts, write))
    ensures forall i, j :: 0 <= i < j < |facts| ==> IdentityOf(facts[i].key) != IdentityOf(facts[j].key)
  {
    forall f | f in facts
      ensures E.Known(f.key.factId) && TextFits(f.key.text, 256)
    {
      assert f in multiset(facts) && f in E.FactsOf(r.candidates);
      var i :| 0 <= i < |r.candidates| && E.FactsOf(r.candidates)[i] == f;
      assert r.candidates[i] in r.candidates && E.KeyFits(r.candidates[i].key);
      assert E.Publishable(r.evaluated, r.candidates[i]);
    }
    forall i, j | 0 <= i < j < |facts|
      ensures IdentityOf(facts[i].key) != IdentityOf(facts[j].key)
    {
      E.TextNotBeforeItself(facts[i].key.text);
      assert E.Before(facts[i].key, facts[j].key);
    }
  }

  /** At any point of any run, whatever writes failed, a restart begins with every published descriptor. */
  ghost predicate ForgetsNothing(setup: Setup) {
    forall stored, events | forall e | e in events :: EventParsed(e) ::
      Safe(setup, Run(setup, Started(setup, stored), events))
  }

  /** With digests of 64 characters nothing is ever forgotten exactly when the entry's id has at most 185. */
  lemma ForgetsNothingIff(setup: Setup)
    requires forall id :: |setup.digest(id)| == 64
    ensures ForgetsNothing(setup) <==> |setup.entryId| <= 185
  {
    if |setup.entryId| <= 185 {
      forall stored, events | forall e | e in events :: EventParsed(e)
        ensures Safe(setup, Run(setup, Started(setup, stored), events))
      {
        forall e | e in events ensures EventFits(setup, e) { ShortIdsFit(setup, e); }
        RestartForgetsNothing(setup, stored, events);
      }
    } else {
      var facts := [E.Fact(E.Key(E.CONFIGURED, "1"), E.Reading("0", 0, "", ""))];
      var e := Received(Some(1), facts, Written);
      LongIdsAreForgotten(setup, facts);
      RunOfOne(setup, Started(setup, None), e);
      assert !Safe(setup, Run(setup, Started(setup, None), [e]));
      assert EventParsed(e);
    }
  }

  lemma RunOfOne(setup: Setup, s: State, e: Event)
    ensures Run(setup, s, [e]) == Step(setup, s, e)
  {
    var none: seq<Event> := [];
    assert [e][..|[e]| - 1] == none && Run(setup, s, none) == s;
  }

  lemma ShortIdsFit(setup: Setup, e: Event)
    requires (forall id :: |setup.digest(id)| == 64) && |setup.entryId| <= 185 && EventParsed(e)
    ensures EventFits(setup, e)
  {
    if e.Received? {
      forall f | f in e.facts
        ensures TextFits(NewDescriptor(setup, f.key).uniqueId, 255)
      {
        assert |setup.digest(IdentityOf(f.key))| == 64 && |"-evse-"| == 6;
      }
    }
  }

  /** A refresh with an acceptable revision, whose growth can be stored, publishes each of its facts as read. */
  lemma AcceptedFactsArePublished(setup: Setup, s: State, revision: int, facts: seq<E.Fact>, i: nat)
    requires revision >= 1 && (s.lastRevision.Some? ==> revision >= s.lastRevision.value)
    requires Storable(Grown(setup, s.data.descriptors, facts))
    requires i < |facts| && forall j :: 0 <= j < |facts| && j != i ==> IdentityOf(facts[j].key) != IdentityOf(facts[i].key)
    ensures
      var later := Step(setup, s, Received(Some(revision), facts, Written));
      && later.data.available && later.data.error == None && later.lastRevision == Some(revision)
      && IdentityOf(facts[i].key) in later.data.facts && later.data.facts[IdentityOf(facts[i].key)] == facts[i]
  {
    FactIsFiled(facts, i);
  }

  /** Any other outcome keeps descriptors, facts, revision and store, and reports the data as unavailable with its reason. */
  lemma FailuresKeepFacts(setup: Setup, s: State, e: Event)
    requires e.Received? ==> e.revision.None? || e.revision.value < 1
                             || (s.lastRevision.Some? && e.revision.value < s.lastRevision.value)
    ensures
      var later := Step(setup, s, e);
      && later == s.(data := later.data) && later.data.descriptors == s.data.descriptors && later.data.facts == s.data.facts
      && !later.data.available
      && later.data.error == Some(
           match e
           case NotConfigured => "configuration_failure"
           case TransportFailed => "transport_failure"
           case RemoteRefused(code) => code
           case ContractFailed => "contract_failure"
           case Received(_, _, _) => "contract_failure"
           case MarkedUnavailable(reason) => reason)
  {
  }

  /** A write that fails raises out of the refresh: nothing published changes, and neither does the accepted revision. */
  lemma FailedWritesPublishNothing(setup: Setup, s: State, revision: int, facts: seq<E.Fact>, effect: bool)
    requires revision >= 1 && (s.lastRevision.Some? ==> revision >= s.lastRevision.value)
    requires Grown(setup, s.data.descriptors, facts) != s.data.descriptors
    ensures
      var later := Step(setup, s, Received(Some(revision), facts, WriteFailed(effect)));
      later.data == s.data && later.lastRevision == s.lastRevision && (!effect ==> later.stored == s.stored)
  {
  }

  /** What is published of an accepted refresh is each of its facts by its identity, and nothing of earlier ones. */
  lemma OnlyTheLatestFacts(setup: Setup, s: State, revision: int, facts: seq<E.Fact>, id: Identity)
    requires revision >= 1 && (s.lastRevision.Some? ==> revision >= s.lastRevision.value)
    requires Storable(Grown(setup, s.data.descriptors, facts))
    ensures
      var later := Step(setup, s, Received(Some(revision), facts, Written));
      id in later.data.facts <==> exists f :: f in facts && IdentityOf(f.key) == id
  {
    FactsByIdentityNames(facts, id);
  }

  lemma {:induction false} FactIsFiled(facts: seq<E.Fact>, i: nat)
    requires i < |facts| && forall j :: 0 <= j < |facts| && j != i ==> IdentityOf(facts[j].key) != IdentityOf(facts[i].key)
    ensures IdentityOf(facts[i].key) in FactsByIdentity(facts)
    ensures FactsByIdentity(facts)[IdentityOf(facts[i].key)] == facts[i]
  {
    if i < |facts| - 1 { FactIsFiled(facts[..|facts| - 1], i); }
  }

  predicate Described(s: State) {
    |s.data.descriptors| < E.MAX_FACTS ==> forall id | id in s.data.facts :: id in Identities(s.data.descriptors)
  }

  lemma {:induction false} FactsByIdentityNames(facts: seq<E.Fact>, id: Identity)
    ensures id in FactsByIdentity(facts) <==> exists f :: f in facts && IdentityOf(f.key) == id
  {
    if facts != [] {
      FactsByIdentityNames(facts[..|facts| - 1], id);
      assert facts == facts[..|facts| - 1] + [facts[|facts| - 1]];
    }
  }

  lemma StepKeepsDescribed(setup: Setup, s: State, e: Event)
    requires Described(s)
    ensures Described(Step(setup, s, e))
  {
    if e.Received? {
      GrowthDescribes(setup, s.data.descriptors, e.facts);
      forall id | id in FactsByIdentity(e.facts)
        ensures exists f :: f in e.facts && IdentityOf(f.key) == id
      {
        FactsByIdentityNames(e.facts, id);
      }
    }
  }

  /** On every run each published fact has a descriptor, unless the limit of descriptors was reached. */
  lemma {:induction false} PublishedFactsAreDescribed(setup: Setup, stored: Option<Store>, events: seq<Event>)
    ensures Described(Run(setup, Started(setup, stored), events))
  {
    if events != [] {
      var front := events[..|events| - 1];
      PublishedFactsAreDescribed(setup, stored, front);
      StepKeepsDescribed(setup, Run(setup, Started(setup, stored), front), events[|events| - 1]);
    }
  }

  function FactIdentities(facts: seq<E.Fact>): set<Identity> { set f | f in facts :: IdentityOf(f.key) }

  predicate AllDescribed(facts: seq<E.Fact>, ds: seq<Descriptor>) {
    forall f | f in facts :: IdentityOf(f.key) in Identities(ds)
  }

  /** After growth every fact is described exactly when old and new identities together keep to the limit. */
  lemma GrowthDescribesIff(setup: Setup, before: seq<Descriptor>, facts: seq<E.Fact>)
    requires Distinct(Identities(before)) && |before| <= E.MAX_FACTS
    ensures AllDescribed(facts, Grown(setup, before, facts))
      <==> |Elements(Identities(before)) + FactIdentities(facts)| <= E.MAX_FACTS
  {
    var grown := Grown(setup, before, facts);
    var wanted := Elements(Identities(before)) + FactIdentities(facts);
    GrowthOnlyAdds(setup, before, facts);
    GrowthDescribes(setup, before, facts);
    SizesTell(Identities(grown));
    GrownIdentities(setup, before, facts);
    assert |Elements(Identities(grown))| == |grown| <= E.MAX_FACTS;
    if AllDescribed(facts, grown) {
      SubsetIsSmaller(wanted, Elements(Identities(grown)));
    } else {
      assert |grown| == E.MAX_FACTS;
      var f :| f in facts && IdentityOf(f.key) !in Identities(grown);
      assert IdentityOf(f.key) in wanted && IdentityOf(f.key) !in Elements(Identities(grown));
      SubsetIsSmaller(Elements(Identities(grown)), wanted);
    }
  }

  lemma GrownIdentities(setup: Setup, before: seq<Descriptor>, facts: seq<E.Fact>)
    ensures
      var grown := Elements(Identities(Grown(setup, before, facts)));
      Elements(Identities(before)) <= grown <= Elements(Identities(before)) + FactIdentities(facts)
  {
    var grown := Grown(setup, before, facts);
    GrowthOnlyAdds(setup, before, facts);
    forall i | 0 <= i < |before|
      ensures Identities(before)[i] in Identities(grown)
    {
      assert Identities(grown)[i] == Identities(before)[i];
    }
    forall i | 0 <= i < |grown|
      ensures Identities(grown)[i] in Elements(Identities(before)) + FactIdentities(facts)
    {
      if grown[i] in before {
        var j :| 0 <= j < |before| && before[j] == grown[i];
        assert Identities(before)[j] == Identities(grown)[i];
      } else {
        var f :| f in facts && grown[i] == NewDescriptor(setup, f.key);
        assert IdentityOf(f.key) in FactIdentities(facts);
      }
    }
  }

  lemma SubsetIsSmaller<T>(a: set<T>, b: set<T>)
    requires a <= b
    ensures |a| <= |b| && (|a| == |b| ==> a == b)
  {
    assert |b| == |b - a| + |a|;
    if |a| == |b| { assert b - a == {}; }
  }

  /** On every run the descriptors are of distinct identities and keep to the limit. */
  lemma {:induction false} DescriptorsKeepToTheLimit(setup: Setup, stored: Option<Store>, events: seq<Event>)
    ensures
      var ds := Run(setup, Started(setup, stored), events).data.descriptors;
      Distinct(Identities(ds)) && |ds| <= E.MAX_FACTS
  {
    if events == [] {
      assert Identities([]) == [];
    } else {
      var front, last := events[..|events| - 1], events[|events| - 1];
      DescriptorsKeepToTheLimit(setup, stored, front);
      if last.Received? { GrowthOnlyAdds(setup, Run(setup, Started(setup, stored), front).data.descriptors, last.facts); }
    }
  }

  /**
   * At any point of any run, a refresh that is accepted and stored describes every fact it publishes exactly when
   * the identities described before and those of its facts are together at most 256.
   */
  lemma AcceptedFactsAreDescribedIff(
      setup: Setup, stored: Option<Store>, events: seq<Event>, revision: int, facts: seq<E.Fact>)
    requires
      var s := Run(setup, Started(setup, stored), events);
      && revision >= 1 && (s.lastRevision.Some? ==> revision >= s.lastRevision.value)
      && Storable(Grown(setup, s.data.descriptors, facts))
    ensures
      var s := Run(setup, Started(setup, stored), events);
      var later := Step(setup, s, Received(Some(revision), facts, Written));
      && later.data.facts == FactsByIdentity(facts)
      && (AllDescribed(facts, later.data.descriptors)
          <==> |Elements(Identities(s.data.descriptors)) + FactIdentities(facts)| <= E.MAX_FACTS)
  {
    DescriptorsKeepToTheLimit(setup, stored, events);
    GrowthDescribesIff(setup, Run(setup, Started(setup, stored), events).data.descriptors, facts);
  }

  // ---- the coordinator ----

  class HelianthusEVSEM2MCoordinator {
    const setup: Setup
    var data: Data
    var lastSemanticRevision: Option<nat>
    var stored: Option<Store>

    ghost function View(): State
      reads this
    {
      State(data, lastSemanticRevision, stored)
    }

    constructor (setup: Setup, stored: Option<Store>)
      ensures this.setup == setup && View() == Started(setup, stored)
    {
      this.setup, this.stored := setup, stored;
      data := Data(Restarted(setup, stored), map[], false, Some("not_refreshed"));
      lastSemanticRevision := None;
    }

    method MarkUnavailable(reason: string)
      modifies this`data
      ensures View() == Unavailable(old(View()), reason)
    {
      data := Data(data.descriptors, data.facts, false, Some(reason));
    }

    /** `raised` when the write is refused or fails; the option entry is the only thing it may have changed. */
    method Persist(descriptors: seq<Descriptor>, write: Write) returns (raised: bool)
      modifies this`stored
      ensures raised <==> Serialize(setup.asset, descriptors).Refused? || write.WriteFailed?
      ensures stored == if Serialize(setup.asset, descriptors).Ok? && (write.Written? || write.effect)
                        then Some(Serialize(setup.asset, descriptors).value) else old(stored)
    {
      var store := Serialize(setup.asset, descriptors);
      if store.Refused? { return true; }
      if write.Written? || write.effect { stored := Some(store.value); }
      raised := write.WriteFailed?;
    }

    method Update(revision: Option<int>, facts: seq<E.Fact>, write: Write)
      modifies this
      ensures View() == Receive(setup, old(View()), revision, facts, write)
    {
      if revision.None? || revision.value < 1
         || (lastSemanticRevision.Some? && revision.value < lastSemanticRevision.value) {
        MarkUnavailable("contract_failure");
        return;
      }
      var descriptors := Grow(setup, data.descriptors, facts);
      if descriptors != data.descriptors {
        var raised := Persist(descriptors, write);
        if raised { return; }
      }
      lastSemanticRevision := Some(revision.value);
      data := Data(descriptors, FactsByIdentity(facts), true, None);
    }

    /** One refresh or notice; what is published is stored before and after. */
    method Perform(e: Event)
      modifies this
      ensures View() == Step(setup, old(View()), e)
      ensures old(Safe(setup, View())) && EventFits(setup, e) ==> Safe(setup, View())
      ensures NoLess(old(lastSemanticRevision), lastSemanticRevision) && old(data).descriptors <= data.descriptors
    {
      StepOnlyAdvances(setup, View(), e);
      if Safe(setup, View()) && EventFits(setup, e) { StepKeepsSafe(setup, View(), e); }
      match e {
        case NotConfigured => MarkUnavailable("configuration_failure");
        case TransportFailed => MarkUnavailable("transport_failure");
        case RemoteRefused(code) => MarkUnavailable(code);
        case ContractFailed => MarkUnavailable("contract_failure");
        case Received(revision, facts, write) => Update(revision, facts, write);
        case MarkedUnavailable(reason) => MarkUnavailable(reason);
      }
    }
  }
}

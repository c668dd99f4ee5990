/**
 * The EVSE consumer's reading of one response: candidates, their evaluation, and a projection that must
 * account for every published key. Field shapes are taken as already checked; identities, references
 * and accounting are not.
 */
module EvseProjection {
  import opened Prelude
  import opened Distinctness
  import opened M2MEvaluation

  const CONFIGURED := "evse.limit.configured_current"
  const ALLOCATED := "evse.limit.allocated_current"
  const MAX_FACTS := 256

  predicate Known(factId: string) { factId == CONFIGURED || factId == ALLOCATED }

  /** A fact and the text of its one dimension. */
  datatype Key = Key(factId: string, text: string)

  datatype Reading = Reading(coefficient: string, scale: int, policy: string, origin: string)

  /** Admitted are candidates whose quality is qualified, promoted, good, available and fresh. */
  type Candidate = M2MEvaluation.Candidate<Key, Reading>

  datatype Loss = Loss(kind: string, items: seq<string>)

  type Disposition = M2MEvaluation.Disposition<Key, Loss>

  /** `bound` says that contract, manifest, snapshot id and revisions are those of this snapshot. */
  datatype Projection = Projection(bound: bool, requested: seq<Pair>, dispositions: seq<Disposition>)

  /** `bound` says that the evaluation's contract, snapshot id and revisions are those of this snapshot. */
  datatype Response = Response(
    snapshotId: string, revisions: seq<string>, candidates: seq<Candidate>, bound: bool, evaluated: seq<Evaluated>,
    selections: nat, projection: Projection)

  datatype Fact = Fact(key: Key, reading: Reading)

  // ---- the facts ----

  function FactsOf(candidates: seq<Candidate>): seq<Fact> {
    seq(|candidates|, i requires 0 <= i < |candidates| => Fact(candidates[i].key, candidates[i].reading))
  }

  predicate Publishable(evaluated: seq<Evaluated>, c: Candidate) {
    && Known(c.key.factId) && c.admitted
    && exists e :: e in evaluated && e.candidateId == c.id && e.freshness == "fresh" && e.availability == "available"
  }

  method CollectFacts(candidates: seq<Candidate>, ghost evaluated: seq<Evaluated>, states: map<string, Lifecycle>)
    returns (ok: bool, facts: seq<Fact>, published: set<Key>)
    requires IdsDiffer(Refs(candidates)) && EvaluationSound(Refs(candidates), evaluated) && Records(states, evaluated)
    ensures ok <==> forall c | c in candidates :: Publishable(evaluated, c)
    ensures ok ==> facts == FactsOf(candidates) && published == Elements(Keys(candidates))
  {
    facts, published := [], {};
    for i := 0 to |candidates|
      invariant forall c | c in candidates[..i] :: Publishable(evaluated, c)
      invariant facts == FactsOf(candidates[..i]) && published == Elements(Keys(candidates[..i]))
    {
      var c := candidates[i];
      assert candidates[..i + 1] == candidates[..i] + [c];
      assert Keys(candidates[..i + 1]) == Keys(candidates[..i]) + [c.key];
      assert Refs(candidates)[i] in Refs(candidates) && IsEvaluated(evaluated, Refs(candidates)[i]);
      assert c in candidates;
      if !Known(c.key.factId) || !c.admitted { return false, facts, published; }
      if states[c.id] != Lifecycle("fresh", "available") { return false, facts, published; }
      published := published + {c.key};
      facts := facts + [Fact(c.key, c.reading)];
    }
    ok := true;
    assert candidates[..|candidates|] == candidates;
  }

  // ---- the projection ----

  const EXPECTED := {Pair("fact", CONFIGURED), Pair("fact", ALLOCATED)}

  const WITHHELD_REASONS := {
    "withheld_provisional_missing", "withheld_provisional_malformed", "withheld_provisional_expired",
    "withheld_provisional_inhibited", "withheld_provisional_zero_timeout",
    "withheld_provisional_correlation_mismatch" }

  predicate IsLowerOrDigit(c: char) { 'a' <= c <= 'z' || '0' <= c <= '9' }

  predicate IsSeparator(c: char) { c == '.' || c == '_' || c == '-' }

  /** `[a-z][a-z0-9]*([._-][a-z0-9]+)+`, at most 160 characters. */
  predicate IsDefinitionId(s: string) {
    && 3 <= |s| <= 160 && 'a' <= s[0] <= 'z' && IsLowerOrDigit(s[|s| - 1])
    && (forall i | 0 <= i < |s| :: IsLowerOrDigit(s[i]) || IsSeparator(s[i]))
    && (forall i | 0 < i < |s| :: IsSeparator(s[i]) ==> IsLowerOrDigit(s[i - 1]))
    && (exists i | 0 <= i < |s| :: IsSeparator(s[i]))
  }

  predicate ExactSound(d: Disposition, published: set<Key>) {
    && Distinct(d.sourceKeys) && (forall k | k in d.sourceKeys :: k.factId == d.pair.itemId)
    && d.outcome == "exact" && Elements(d.sourceKeys) <= published && d.losses == []
  }

  predicate WithheldSound(d: Disposition) {
    && d.pair.itemId == ALLOCATED && d.outcome == "withheld"
    && d.reason.Some? && d.reason.value in WITHHELD_REASONS
    && |d.losses| == 1 && d.losses[0].kind == "policy"
    && |d.losses[0].items| == 1 && IsDefinitionId(d.losses[0].items[0])
  }

  predicate DispositionSound(d: Disposition, published: set<Key>) {
    if d.sourceKeys != [] then ExactSound(d, published) else WithheldSound(d)
  }

  function Accounted(dispositions: seq<Disposition>): seq<Key> {
    if dispositions == [] then []
    else Accounted(dispositions[..|dispositions| - 1]) + dispositions[|dispositions| - 1].sourceKeys
  }

  predicate ProjectionSound(p: Projection, published: set<Key>) {
    && p.bound && |p.requested| == |p.dispositions|
    && Distinct(p.requested) && Elements(p.requested) == EXPECTED
    && Distinct(Pairs(p.dispositions)) && Elements(Pairs(p.dispositions)) == EXPECTED
    && (forall d | d in p.dispositions :: DispositionSound(d, published))
    && Elements(Accounted(p.dispositions)) == published
  }

  method CheckDispositions(dispositions: seq<Disposition>, requested: set<Pair>, published: set<Key>) returns (ok: bool)
    requires requested == EXPECTED
    ensures ok <==>
      && Distinct(Pairs(dispositions)) && Elements(Pairs(dispositions)) == EXPECTED
      && (forall d | d in dispositions :: DispositionSound(d, published))
      && Elements(Accounted(dispositions)) == published
  {
    var seen: set<Pair>, accounted: set<Key> := {}, {};
    for i := 0 to |dispositions|
      invariant Distinct(Pairs(dispositions[..i])) && seen == Elements(Pairs(dispositions[..i])) <= EXPECTED
      invariant forall d | d in dispositions[..i] :: DispositionSound(d, published)
      invariant accounted == Elements(Accounted(dispositions[..i]))
    {
      var d := dispositions[i];
      PairsGrow(dispositions, i);
      AccountedGrows(dispositions, i);
      if d.pair in seen {
        assert Pairs(dispositions[..i + 1]) <= Pairs(dispositions);
        return false;
      }
      if d.pair !in requested {
        assert Pairs(dispositions)[i] in Elements(Pairs(dispositions));
        return false;
      }
      seen := seen + {d.pair};
      if !DispositionSound(d, published) {
        assert d in dispositions;
        return false;
      }
      accounted := accounted + Elements(d.sourceKeys);
    }
    assert dispositions[..|dispositions|] == dispositions;
    ok := seen == requested && accounted == published;
  }

  lemma AccountedGrows(dispositions: seq<Disposition>, i: nat)
    requires i < |dispositions|
    ensures Accounted(dispositions[..i + 1]) == Accounted(dispositions[..i]) + dispositions[i].sourceKeys
  {
    assert dispositions[..i + 1][..i] == dispositions[..i];
  }

  // ---- the order of the facts ----

  predicate TextBefore(a: string, b: string) {
    if a == "" || b == "" then a == "" && b != ""
    else a[0] < b[0] || (a[0] == b[0] && TextBefore(a[1..], b[1..]))
  }

  lemma {:induction false} TextOrderIsTotal(a: string, b: string)
    ensures a == b || TextBefore(a, b) || TextBefore(b, a)
  {
    if a != "" && b != "" {
      TextOrderIsTotal(a[1..], b[1..]);
      assert a == [a[0]] + a[1..] && b == [b[0]] + b[1..];
    }
  }

  lemma {:induction false} TextNotBeforeItself(a: string)
    ensures !TextBefore(a, a)
  {
    if a != "" { TextNotBeforeItself(a[1..]); }
  }

  lemma {:induction false} TextOrderIsTransitive(a: string, b: string, c: string)
    requires TextBefore(a, b) && TextBefore(b, c)
    ensures TextBefore(a, c)
  {
    if a != "" && a[0] == b[0] == c[0] { TextOrderIsTransitive(a[1..], b[1..], c[1..]); }
  }

  function Position(factId: string): nat { if factId == CONFIGURED then 0 else 1 }

  predicate Before(a: Key, b: Key) {
    Position(a.factId) < Position(b.factId) || (Position(a.factId) == Position(b.factId) && TextBefore(a.text, b.text))
  }

  predicate InOrder(facts: seq<Fact>) { forall i, j :: 0 <= i < j < |facts| ==> Before(facts[i].key, facts[j].key) }

  function Insert(f: Fact, facts: seq<Fact>): seq<Fact> {
    if facts == [] || Before(f.key, facts[0].key) then [f] + facts else [facts[0]] + Insert(f, facts[1..])
  }

  function Sort(facts: seq<Fact>): seq<Fact> { if facts == [] then [] else Insert(facts[0], Sort(facts[1..])) }

  lemma {:induction false} InsertKeepsOrder(f: Fact, facts: seq<Fact>)
    requires InOrder(facts) && Known(f.key.factId)
    requires forall other | other in facts :: Known(other.key.factId) && other.key != f.key
    ensures InOrder(Insert(f, facts))
    ensures forall other :: other in Insert(f, facts) <==> other == f || other in facts
  {
    if facts != [] {
      assert facts == [facts[0]] + facts[1..];
      if Before(f.key, facts[0].key) {
        forall i | 0 < i < |facts|
          ensures Before(f.key, facts[i].key)
        {
          OrderIsTransitive(f.key, facts[0].key, facts[i].key);
        }
      } else {
        InsertKeepsOrder(f, facts[1..]);
        TextOrderIsTotal(f.key.text, facts[0].key.text);
        var rest := Insert(f, facts[1..]);
        forall i | 0 <= i < |rest|
          ensures Before(facts[0].key, rest[i].key)
        {
          assert rest[i] in rest;
        }
      }
    }
  }

  lemma OrderIsTransitive(a: Key, b: Key, c: Key)
    requires Before(a, b) && Before(b, c)
    ensures Before(a, c)
  {
    if TextBefore(a.text, b.text) && TextBefore(b.text, c.text) { TextOrderIsTransitive(a.text, b.text, c.text); }
  }

  lemma {:induction false} InsertCounts(f: Fact, facts: seq<Fact>)
    ensures multiset(Insert(f, facts)) == multiset(facts) + multiset{f}
  {
    if facts != [] && !Before(f.key, facts[0].key) {
      InsertCounts(f, facts[1..]);
      assert facts == [facts[0]] + facts[1..];
    }
  }

  lemma {:induction false} SortSorts(facts: seq<Fact>)
    requires forall i :: 0 <= i < |facts| ==> Known(facts[i].key.factId)
    requires forall i, j :: 0 <= i < j < |facts| ==> facts[i].key != facts[j].key
    ensures InOrder(Sort(facts)) && multiset(Sort(facts)) == multiset(facts)
    ensures forall f :: f in Sort(facts) <==> f in facts
  {
    if facts != [] {
      SortSorts(facts[1..]);
      InsertKeepsOrder(facts[0], Sort(facts[1..]));
      InsertCounts(facts[0], Sort(facts[1..]));
      assert facts == [facts[0]] + facts[1..];
    }
  }

  // ---- the whole response ----

  datatype Snapshot = Snapshot(snapshotId: string, revisions: seq<string>, facts: seq<Fact>)

  predicate EvaluationAccepted(r: Response) {
    && Distinct(Keys(r.candidates)) && IdsDiffer(Refs(r.candidates))
    && r.bound && |r.evaluated| == |r.candidates|
    && EvaluationSound(Refs(r.candidates), r.evaluated) && r.selections == 0
    && forall c | c in r.candidates :: Publishable(r.evaluated, c)
  }

  predicate KeyFits(key: Key) { TextFits(key.factId, 96) && TextFits(key.text, 256) }

  predicate Accepted(r: Response) {
    && |r.candidates| <= MAX_FACTS && (forall c | c in r.candidates :: KeyFits(c.key))
    && EvaluationAccepted(r)
    && ProjectionSound(r.projection, Elements(Keys(r.candidates)))
  }

  method ParseFacts(r: Response) returns (ok: bool, facts: seq<Fact>, published: set<Key>)
    ensures ok <==> EvaluationAccepted(r)
    ensures ok ==> facts == FactsOf(r.candidates) && published == Elements(Keys(r.candidates))
  {
    facts, published := [], {};
    SizesTell(Keys(r.candidates));
    if |Elements(Keys(r.candidates))| != |r.candidates| || !NoIdRepeats(Refs(r.candidates)) {
      return false, facts, published;
    }
    if !r.bound || |r.evaluated| != |r.candidates| { return false, facts, published; }
    RevisionsFind(Refs(r.candidates));
    var states;
    ok, states := CheckEvaluation(Revisions(Refs(r.candidates)), Refs(r.candidates), r.evaluated);
    if !ok || r.selections != 0 { return false, facts, published; }
    ok, facts, published := CollectFacts(r.candidates, r.evaluated, states);
  }

  method CheckProjection(p: Projection, published: set<Key>) returns (ok: bool)
    ensures ok <==> ProjectionSound(p, published)
  {
    if !p.bound || |p.requested| != |p.dispositions| { return false; }
    var requested;
    ok, requested := CheckRequested(p.requested);
    if !ok || requested != EXPECTED { return false; }
    ok := CheckDispositions(p.dispositions, requested, published);
  }

  lemma FactsHaveKeys(candidates: seq<Candidate>, evaluated: seq<Evaluated>)
    requires Distinct(Keys(candidates)) && forall c | c in candidates :: Publishable(evaluated, c)
    ensures InOrder(Sort(FactsOf(candidates))) && multiset(Sort(FactsOf(candidates))) == multiset(FactsOf(candidates))
  {
    var facts := FactsOf(candidates);
    forall i | 0 <= i < |facts|
      ensures Known(facts[i].key.factId) && facts[i].key == Keys(candidates)[i]
    {
      assert candidates[i] in candidates && Publishable(evaluated, candidates[i]);
    }
    SortSorts(facts);
  }

  method ParseResponse(r: Response) returns (snapshot: Option<Snapshot>)
    ensures snapshot.Some? <==> Accepted(r)
    ensures snapshot.Some? ==>
      && snapshot.value.snapshotId == r.snapshotId && snapshot.value.revisions == r.revisions
      && InOrder(snapshot.value.facts) && multiset(snapshot.value.facts) == multiset(FactsOf(r.candidates))
  {
    if |r.candidates| > MAX_FACTS || exists c | c in r.candidates :: !KeyFits(c.key) { return None; }
    var ok, facts, published := ParseFacts(r);
    if !ok { return None; }
    ok := CheckProjection(r.projection, published);
    if !ok { return None; }
    FactsHaveKeys(r.candidates, r.evaluated);
    snapshot := Some(Snapshot(r.snapshotId, r.revisions, Sort(facts)));
  }

  // ---- what acceptance guarantees ----

  lemma DistinctJoins<T>(s: seq<T>, t: seq<T>)
    requires Distinct(s) && Distinct(t) && forall x :: x in s ==> x !in t
    ensures Distinct(s + t)
  {
    forall i, j | 0 <= i < j < |s + t|
      ensures (s + t)[i] != (s + t)[j]
    {
      if i < |s| { assert s[i] in s; }
    }
  }

  lemma {:induction false} AccountedOnce(dispositions: seq<Disposition>, published: set<Key>)
    requires Distinct(Pairs(dispositions)) && Elements(Pairs(dispositions)) <= EXPECTED
    requires forall d | d in dispositions :: DispositionSound(d, published)
    ensures Distinct(Accounted(dispositions))
    ensures forall k | k in Accounted(dispositions) :: Pair("fact", k.factId) in Pairs(dispositions)
  {
    if dispositions != [] {
      var n := |dispositions| - 1;
      var front, last := dispositions[..n], dispositions[n];
      PairsGrow(dispositions, n);
      AccountedGrows(dispositions, n);
      assert dispositions[..n + 1] == dispositions;
      AccountedOnce(front, published);
      assert last in dispositions && Pairs(dispositions)[n] in Elements(Pairs(dispositions));
      forall k | k in Accounted(front)
        ensures k !in last.sourceKeys
      {
        assert Pair("fact", k.factId) in Pairs(front);
      }
      DistinctJoins(Accounted(front), last.sourceKeys);
    }
  }

  /** The dispositions account for every published key exactly once and for nothing else. */
  lemma EveryKeyAccountedOnce(r: Response)
    requires Accepted(r)
    ensures multiset(Accounted(r.projection.dispositions)) == multiset(Keys(r.candidates))
  {
    AccountedOnce(r.projection.dispositions, Elements(Keys(r.candidates)));
    SameMembers(Accounted(r.projection.dispositions), Keys(r.candidates));
  }

  lemma {:induction false} AccountedBySome(dispositions: seq<Disposition>, k: Key)
    ensures k in Accounted(dispositions) <==> exists d :: d in dispositions && k in d.sourceKeys
  {
    if dispositions != [] {
      var n := |dispositions| - 1;
      assert dispositions == dispositions[..n] + [dispositions[n]];
      AccountedBySome(dispositions[..n], k);
    }
  }

  /** At least one configured-current fact is published. */
  lemma ConfiguredCurrentIsThere(r: Response)
    requires Accepted(r)
    ensures exists c :: c in r.candidates && c.key.factId == CONFIGURED
  {
    var d := DispositionOf(r.projection.dispositions, CONFIGURED);
    assert d.sourceKeys[0] in Elements(d.sourceKeys) && d.sourceKeys[0].factId == CONFIGURED;
    var c := CandidateWith(r.candidates, d.sourceKeys[0]);
  }

  /** The allocated current is withheld for a listed reason iff no allocated-current fact is published. */
  lemma WithheldIffAbsent(r: Response)
    requires Accepted(r)
    ensures (forall c | c in r.candidates :: c.key.factId != ALLOCATED)
      <==> exists d :: d in r.projection.dispositions && d.pair == Pair("fact", ALLOCATED) && WithheldSound(d)
  {
    var dispositions := r.projection.dispositions;
    var a := DispositionOf(dispositions, ALLOCATED);
    if a.sourceKeys != [] {
      assert a.sourceKeys[0] in Elements(a.sourceKeys) && a.sourceKeys[0].factId == ALLOCATED;
      var b := CandidateWith(r.candidates, a.sourceKeys[0]);
      DispositionsOfOneItem(dispositions, a);
    } else {
      forall c | c in r.candidates
        ensures c.key.factId != ALLOCATED
      {
        if c.key.factId == ALLOCATED { AllocatedIsExact(r.projection, r.candidates, c, a); }
      }
    }
  }

  lemma AllocatedIsExact(p: Projection, candidates: seq<Candidate>, c: Candidate, a: Disposition)
    requires ProjectionSound(p, Elements(Keys(candidates)))
    requires c in candidates && c.key.factId == ALLOCATED
    requires a in p.dispositions && a.pair == Pair("fact", ALLOCATED)
    ensures a.sourceKeys != []
  {
    var i :| 0 <= i < |candidates| && candidates[i] == c;
    assert Keys(candidates)[i] in Elements(Keys(candidates));
    assert c.key in Elements(Accounted(p.dispositions));
    AccountedBySome(p.dispositions, c.key);
    var d :| d in p.dispositions && c.key in d.sourceKeys;
    assert DispositionSound(d, Elements(Keys(candidates))) && d.pair.itemId == ALLOCATED;
    PairIsExpected(p.dispositions, d);
    DispositionsOfOneItem(p.dispositions, a);
    assert d == a;
  }

  lemma DispositionsOfOneItem(dispositions: seq<Disposition>, a: Disposition)
    requires Distinct(Pairs(dispositions)) && a in dispositions
    ensures forall d | d in dispositions && d.pair == a.pair :: d == a
  {
    forall d | d in dispositions && d.pair == a.pair
      ensures d == a
    {
      var i :| 0 <= i < |dispositions| && dispositions[i] == a;
      var j :| 0 <= j < |dispositions| && dispositions[j] == d;
      assert Pairs(dispositions)[i] == Pairs(dispositions)[j];
    }
  }

  lemma PairIsExpected(dispositions: seq<Disposition>, d: Disposition)
    requires Elements(Pairs(dispositions)) == EXPECTED && d in dispositions
    ensures d.pair in EXPECTED
  {
    var i :| 0 <= i < |dispositions| && dispositions[i] == d;
    assert Pairs(dispositions)[i] in Elements(Pairs(dispositions));
  }

  lemma DispositionOf(dispositions: seq<Disposition>, factId: string) returns (d: Disposition)
    requires Elements(Pairs(dispositions)) == EXPECTED && Known(factId)
    ensures d in dispositions && d.pair == Pair("fact", factId)
  {
    assert Pair("fact", factId) in Elements(Pairs(dispositions));
    var i :| 0 <= i < |dispositions| && Pairs(dispositions)[i] == Pair("fact", factId);
    d := dispositions[i];
  }

  lemma CandidateWith(candidates: seq<Candidate>, key: Key) returns (c: Candidate)
    requires key in Elements(Keys(candidates))
    ensures c in candidates && c.key == key
  {
    var i :| 0 <= i < |candidates| && Keys(candidates)[i] == key;
    c := candidates[i];
  }

  /** An evaluation finds each candidate in one place, at its revision. */
  lemma EvaluatedAtItsRevision(candidates: seq<Candidate>, evaluated: seq<Evaluated>, c: Candidate, e: Evaluated)
    requires IdsDiffer(Refs(candidates)) && EvaluationSound(Refs(candidates), evaluated)
    requires c in candidates && e in evaluated && e.candidateId == c.id
    ensures e.candidateRevision == c.revision
  {
    var refs := Refs(candidates);
    var ref :| ref in refs && Evaluates(e, ref);
    var k :| 0 <= k < |refs| && refs[k] == ref;
    var l :| 0 <= l < |candidates| && candidates[l] == c;
    assert refs[l] == Ref(c.id, c.revision) && refs[l].id == refs[k].id;
  }

  lemma OneEvaluation(evaluated: seq<Evaluated>, x: Evaluated, e: Evaluated)
    requires forall i, j :: 0 <= i < j < |evaluated| ==> evaluated[i].candidateId != evaluated[j].candidateId
    requires x in evaluated && e in evaluated && x.candidateId == e.candidateId
    ensures x == e
  {
    var i :| 0 <= i < |evaluated| && evaluated[i] == x;
    var j :| 0 <= j < |evaluated| && evaluated[j] == e;
  }

  /** Every candidate of an accepted response is of a known fact, admitted, and found fresh and available at its revision. */
  lemma PublishedAreFresh(r: Response, c: Candidate, e: Evaluated)
    requires Accepted(r) && c in r.candidates && e in r.evaluated && e.candidateId == c.id
    ensures (c.key.factId == CONFIGURED || c.key.factId == ALLOCATED) && c.admitted
    ensures e.candidateRevision == c.revision && e.freshness == "fresh" && e.availability == "available"
  {
    assert Publishable(r.evaluated, c);
    var x :| x in r.evaluated && x.candidateId == c.id && x.freshness == "fresh" && x.availability == "available";
    OneEvaluation(r.evaluated, x, e);
    EvaluatedAtItsRevision(r.candidates, r.evaluated, c, e);
  }

  // ---- responses that are accepted ----

  function OfFact(factId: string): Key -> bool { (k: Key) => k.factId == factId }

  /** All keys under their own facts; without an allocated current, that is withheld. */
  function AccountFor(keys: seq<Key>, reason: string, item: string): Projection {
    var granted := Filter(OfFact(ALLOCATED), keys);
    Projection(true, [Pair("fact", CONFIGURED), Pair("fact", ALLOCATED)], [
      Disposition(Pair("fact", CONFIGURED), "exact", Filter(OfFact(CONFIGURED), keys), [], None),
      if granted != [] then Disposition(Pair("fact", ALLOCATED), "exact", granted, [], None)
      else Disposition(Pair("fact", ALLOCATED), "withheld", [], [Loss("policy", [item])], Some(reason))])
  }

  /** Candidates that may be published: known facts of distinct keys and ids, a configured current among them. */
  predicate MayPublish(candidates: seq<Candidate>) {
    && |candidates| <= 256 && Distinct(Keys(candidates)) && IdsDiffer(Refs(candidates))
    && (forall c | c in candidates :: Known(c.key.factId) && KeyFits(c.key) && c.admitted)
    && (exists c | c in candidates :: c.key.factId == CONFIGURED)
  }

  /** The keys of each fact, without repetition, and together all of them. */
  lemma KeysSplit(candidates: seq<Candidate>)
    requires MayPublish(candidates)
    ensures
      var keys := Keys(candidates);
      var configured, granted := Filter(OfFact(CONFIGURED), keys), Filter(OfFact(ALLOCATED), keys);
      && Distinct(configured) && Distinct(granted) && configured != []
      && (forall k | k in configured :: k.factId == CONFIGURED) && (forall k | k in granted :: k.factId == ALLOCATED)
      && Elements(configured) + Elements(granted) == Elements(keys)
  {
    var keys := Keys(candidates);
    FilterMembers(OfFact(CONFIGURED), keys);
    FilterMembers(OfFact(ALLOCATED), keys);
    FilterKeepsDistinct(OfFact(CONFIGURED), keys);
    FilterKeepsDistinct(OfFact(ALLOCATED), keys);
    BothKinds(candidates);
    var c :| c in candidates && c.key.factId == CONFIGURED;
    var i :| 0 <= i < |candidates| && candidates[i] == c;
    assert keys[i] in keys && keys[i] in Filter(OfFact(CONFIGURED), keys);
  }

  lemma AccountForIsSound(candidates: seq<Candidate>, reason: string, item: string)
    requires MayPublish(candidates) && reason in WITHHELD_REASONS && IsDefinitionId(item)
    ensures ProjectionSound(AccountFor(Keys(candidates), reason, item), Elements(Keys(candidates)))
  {
    var published, p := Elements(Keys(candidates)), AccountFor(Keys(candidates), reason, item);
    KeysSplit(candidates);
    assert Pairs(p.dispositions) == p.requested;
    assert DispositionSound(p.dispositions[0], published) && DispositionSound(p.dispositions[1], published);
    AccountedOfTwo(p.dispositions);
    TwoPairs();
  }

  lemma TwoPairs()
    ensures Distinct([Pair("fact", CONFIGURED), Pair("fact", ALLOCATED)])
    ensures Elements([Pair("fact", CONFIGURED), Pair("fact", ALLOCATED)]) == EXPECTED
  {
    var two := [Pair("fact", CONFIGURED), Pair("fact", ALLOCATED)];
    assert two[0] in two && two[1] in two;
  }

  lemma AccountedOfTwo(dispositions: seq<Disposition>)
    requires |dispositions| == 2
    ensures Accounted(dispositions) == dispositions[0].sourceKeys + dispositions[1].sourceKeys
  {
    AccountedGrows(dispositions, 0);
    AccountedGrows(dispositions, 1);
    assert dispositions[..2] == dispositions && dispositions[..0] == [];
  }

  lemma BothKinds(candidates: seq<Candidate>)
    requires forall c | c in candidates :: Known(c.key.factId)
    ensures forall k | k in Keys(candidates) :: k.factId == CONFIGURED || k.factId == ALLOCATED
  {
    forall k | k in Keys(candidates)
      ensures Known(k.factId)
    {
      var i :| 0 <= i < |candidates| && Keys(candidates)[i] == k;
      assert candidates[i] in candidates;
    }
  }

  /** Any such candidates, all found fresh and all accounted for, make an accepted response. */
  lemma FreshResponsesAreAccepted(
      snapshotId: string, revisions: seq<string>, candidates: seq<Candidate>, reason: string, item: string)
    requires MayPublish(candidates) && reason in WITHHELD_REASONS && IsDefinitionId(item)
    ensures Accepted(Response(
      snapshotId, revisions, candidates, true, FoundFresh(Refs(candidates)), 0, AccountFor(Keys(candidates), reason, item)))
  {
    FoundFreshIsSound(Refs(candidates));
    AccountForIsSound(candidates, reason, item);
    forall i | 0 <= i < |candidates|
      ensures Publishable(FoundFresh(Refs(candidates)), candidates[i])
    {
      assert candidates[i] in candidates && Refs(candidates)[i] in Refs(candidates);
    }
  }
}

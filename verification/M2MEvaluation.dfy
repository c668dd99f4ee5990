/**
 * What the device-to-device responses share: candidates, dispositions, and an evaluation of every candidate, once,
 * at its revision, with a known lifecycle.
 */
module M2MEvaluation {
  import opened Prelude
  import opened Distinctness

  predicate TextFits(s: string, maximum: nat) { 1 <= |s| <= maximum }

  /** A candidate's id and revision. */
  datatype Ref = Ref(id: string, revision: string)

  /** `admitted` says that the candidate's quality is what its consumer asks for. */
  datatype Candidate<K, R> = Candidate(id: string, key: K, revision: string, admitted: bool, reading: R)

  function Refs<K, R>(candidates: seq<Candidate<K, R>>): seq<Ref> {
    seq(|candidates|, i requires 0 <= i < |candidates| => Ref(candidates[i].id, candidates[i].revision))
  }

  function Keys<K, R>(candidates: seq<Candidate<K, R>>): seq<K> {
    seq(|candidates|, i requires 0 <= i < |candidates| => candidates[i].key)
  }

  datatype Pair = Pair(kind: string, itemId: string)

  datatype Disposition<K, L> = Disposition(
    pair: Pair, outcome: string, sourceKeys: seq<K>, losses: seq<L>, reason: Option<string>)

  function Pairs<K, L>(dispositions: seq<Disposition<K, L>>): seq<Pair> {
    seq(|dispositions|, i requires 0 <= i < |dispositions| => dispositions[i].pair)
  }

  lemma PairsGrow<K, L>(dispositions: seq<Disposition<K, L>>, i: nat)
    requires i < |dispositions|
    ensures dispositions[..i + 1] == dispositions[..i] + [dispositions[i]] && dispositions[..i + 1][..i] == dispositions[..i]
    ensures Pairs(dispositions[..i + 1]) == Pairs(dispositions[..i]) + [dispositions[i].pair]
    ensures Distinct(Pairs(dispositions[..i + 1]))
      <==> Distinct(Pairs(dispositions[..i])) && dispositions[i].pair !in Pairs(dispositions[..i])
  {
    assert dispositions[..i + 1] == dispositions[..i] + [dispositions[i]];
    assert Pairs(dispositions[..i + 1]) == Pairs(dispositions[..i]) + [dispositions[i].pair];
    DistinctGrows(Pairs(dispositions[..i]), dispositions[i].pair);
  }

  method CheckRequested(requests: seq<Pair>) returns (ok: bool, requested: set<Pair>)
    ensures ok <==> Distinct(requests)
    ensures ok ==> requested == Elements(requests)
  {
    requested := {};
    for i := 0 to |requests|
      invariant Distinct(requests[..i]) && requested == Elements(requests[..i])
    {
      assert requests[..i + 1] == requests[..i] + [requests[i]];
      DistinctGrows(requests[..i], requests[i]);
      if requests[i] in requested { return false, requested; }
      requested := requested + {requests[i]};
    }
    assert requests[..|requests|] == requests;
    ok := true;
  }

  datatype Evaluated = Evaluated(candidateId: string, candidateRevision: string, freshness: string, availability: string)

  const FRESHNESS := {"fresh", "stale", "expired"}
  const AVAILABILITY := {"available", "degraded", "unavailable", "withdrawn"}

  predicate IdsDiffer(refs: seq<Ref>) {
    forall i, j :: 0 <= i < j < |refs| ==> refs[i].id != refs[j].id
  }

  function Ids(refs: seq<Ref>): seq<string> { seq(|refs|, i requires 0 <= i < |refs| => refs[i].id) }

  /** `len(set(ids)) == len(candidates)` */
  predicate NoIdRepeats(refs: seq<Ref>)
    ensures NoIdRepeats(refs) <==> IdsDiffer(refs)
  {
    SizesTell(Ids(refs));
    assert forall i :: 0 <= i < |refs| ==> Ids(refs)[i] == refs[i].id;
    |Elements(Ids(refs))| == |refs|
  }

  predicate Evaluates(e: Evaluated, c: Ref) { e.candidateId == c.id && e.candidateRevision == c.revision }

  predicate EvaluatedSound(refs: seq<Ref>, e: Evaluated) {
    && (exists c :: c in refs && Evaluates(e, c))
    && e.freshness in FRESHNESS && e.availability in AVAILABILITY
  }

  /** An evaluation that finds every candidate fresh and available. */
  function FoundFresh(refs: seq<Ref>): seq<Evaluated> {
    seq(|refs|, i requires 0 <= i < |refs| => Evaluated(refs[i].id, refs[i].revision, "fresh", "available"))
  }

  lemma FoundFreshIsSound(refs: seq<Ref>)
    requires IdsDiffer(refs)
    ensures EvaluationSound(refs, FoundFresh(refs))
    ensures forall c | c in refs ::
      exists e :: e in FoundFresh(refs) && e.candidateId == c.id && e.freshness == "fresh" && e.availability == "available"
  {
    var evaluated := FoundFresh(refs);
    forall i | 0 <= i < |refs|
      ensures evaluated[i] in evaluated && refs[i] in refs && Evaluates(evaluated[i], refs[i])
    {
    }
  }

  predicate IsEvaluated(evaluated: seq<Evaluated>, c: Ref) { exists e :: e in evaluated && e.candidateId == c.id }

  predicate EachSound(refs: seq<Ref>, evaluated: seq<Evaluated>) {
    && (forall i, j :: 0 <= i < j < |evaluated| ==> evaluated[i].candidateId != evaluated[j].candidateId)
    && (forall e | e in evaluated :: EvaluatedSound(refs, e))
  }

  predicate EvaluationSound(refs: seq<Ref>, evaluated: seq<Evaluated>) {
    && EachSound(refs, evaluated)
    && (forall c | c in refs :: IsEvaluated(evaluated, c))
  }

  datatype Lifecycle = Lifecycle(freshness: string, availability: string)

  predicate Records(states: map<string, Lifecycle>, evaluated: seq<Evaluated>) {
    && (forall e | e in evaluated ::
          e.candidateId in states && states[e.candidateId] == Lifecycle(e.freshness, e.availability))
    && (forall id | id in states :: exists e :: e in evaluated && e.candidateId == id)
  }

  /** The revision of each candidate by its id; of two candidates with one id the later wins. */
  function Revisions(refs: seq<Ref>): map<string, string> {
    if refs == [] then map[]
    else Revisions(refs[..|refs| - 1])[refs[|refs| - 1].id := refs[|refs| - 1].revision]
  }

  predicate FindsRevisions(table: map<string, string>, refs: seq<Ref>) {
    && (forall c | c in refs :: c.id in table && table[c.id] == c.revision)
    && (forall id | id in table :: exists c :: c in refs && c.id == id)
  }

  lemma {:induction false} RevisionsFind(refs: seq<Ref>)
    requires IdsDiffer(refs)
    ensures FindsRevisions(Revisions(refs), refs)
  {
    if refs != [] {
      var front, last := refs[..|refs| - 1], refs[|refs| - 1];
      RevisionsFind(front);
      assert refs == front + [last];
    }
  }

  lemma EvaluatedLookup(table: map<string, string>, refs: seq<Ref>, e: Evaluated)
    requires FindsRevisions(table, refs)
    ensures e.candidateId in table && e.candidateRevision == table[e.candidateId]
      <==> exists c :: c in refs && Evaluates(e, c)
  {
  }

  lemma RecordsMore(refs: seq<Ref>, states: map<string, Lifecycle>, evaluated: seq<Evaluated>, i: nat)
    requires i < |evaluated| && EachSound(refs, evaluated[..i]) && Records(states, evaluated[..i])
    ensures
      var e := evaluated[i];
      if e.candidateId in states || !EvaluatedSound(refs, e) then !EachSound(refs, evaluated)
      else
        && EachSound(refs, evaluated[..i + 1])
        && Records(states[e.candidateId := Lifecycle(e.freshness, e.availability)], evaluated[..i + 1])
  {
    assert evaluated[..i + 1] == evaluated[..i] + [evaluated[i]];
    if evaluated[i].candidateId in states {
      var e :| e in evaluated[..i] && e.candidateId == evaluated[i].candidateId;
      var j :| 0 <= j < i && evaluated[j] == e;
    }
  }

  method CheckEvaluation(bindings: map<string, string>, ghost refs: seq<Ref>, evaluated: seq<Evaluated>)
    returns (ok: bool, states: map<string, Lifecycle>)
    requires FindsRevisions(bindings, refs)
    ensures ok <==> EvaluationSound(refs, evaluated)
    ensures ok ==> Records(states, evaluated)
  {
    states := map[];
    for i := 0 to |evaluated|
      invariant EachSound(refs, evaluated[..i]) && Records(states, evaluated[..i])
    {
      var e := evaluated[i];
      EvaluatedLookup(bindings, refs, e);
      RecordsMore(refs, states, evaluated, i);
      if e.candidateId in states || e.candidateId !in bindings || e.candidateRevision != bindings[e.candidateId]
         || e.freshness !in FRESHNESS || e.availability !in AVAILABILITY {
        return false, states;
      }
      states := states[e.candidateId := Lifecycle(e.freshness, e.availability)];
    }
    assert evaluated[..|evaluated|] == evaluated;
    AllEvaluated(bindings, refs, evaluated, states);
    ok := states.Keys == bindings.Keys;
  }

  lemma AllEvaluated(bindings: map<string, string>, refs: seq<Ref>, evaluated: seq<Evaluated>,
                     states: map<string, Lifecycle>)
    requires FindsRevisions(bindings, refs) && Records(states, evaluated)
    requires forall e | e in evaluated :: EvaluatedSound(refs, e)
    ensures states.Keys == bindings.Keys <==> forall c | c in refs :: IsEvaluated(evaluated, c)
  {
    forall id | id in states
      ensures id in bindings
    {
      var e :| e in evaluated && e.candidateId == id;
      assert EvaluatedSound(refs, e);
    }
    if forall c | c in refs :: IsEvaluated(evaluated, c) {
      forall id | id in bindings
        ensures id in states
      {
        var c :| c in refs && c.id == id;
        assert IsEvaluated(evaluated, c);
      }
    }
    if states.Keys == bindings.Keys {
      forall c | c in refs
        ensures IsEvaluated(evaluated, c)
      {
        assert c.id in states;
      }
    }
  }
}

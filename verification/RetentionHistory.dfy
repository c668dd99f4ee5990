/**
  The retained and the published zones and DHW, compared with what the bare history says of them.

  Each comparison has its exact condition, on the events and the states they meet: what is retained matches all along
  a run iff no event brings back what has expired, what is published iff no refresh fails while it is published.
  Runs whose refreshes all succeed meet both; runs that do not are at the end.
 */
module RetentionHistory {
  import opened Prelude
  import opened ZoneRetention

  // ---------- presence: exact unless an expired zone is brought back ----------

  predicate Present(c: Cache, h: seq<Event>, z: string) {
    && (z in Ids(c.lastZones) <==> Seen(h, z) && Gaps(h, z) <= TRANSIENT_GAP_LIMIT)
    && (z in Ids(c.lastZones) ==> GapOf(c, z) == Gaps(h, z))
  }

  /** The published list still shows `z`, which is no longer retained. */
  predicate Lingers(c: Cache, z: string) {
    c.data.Some? && z in Ids(c.data.value.zones) && z !in Ids(c.lastZones)
  }

  /** `e` names another zone, or none, while `z` lingers. */
  predicate Resurrects(c: Cache, e: Event, z: string) {
    e.ZoneUpdate? && Lingers(c, z) && e.id != Some(z)
  }

  lemma MaterializePresent(c: Cache, h: seq<Event>, zones: seq<Item>, dhw: Option<Fields>, z: string)
    requires h != [] && IsPoll(Last(h)) && (Mentions(h, z) <==> z in Ids(zones))
    requires Present(c, Before(h), z)
    ensures Present(Materialize(c, zones, dhw), h, z)
  {
    KeptIds(c, Ids(zones), c.lastZones);
    IdsOfConcat(zones, Kept(c, Ids(zones), c.lastZones));
  }

  lemma ZoneUpdatePresent(c: Cache, h: seq<Event>, z: string)
    requires h != [] && Last(h).ZoneUpdate? && Tracks(c, Before(h), z) && Present(c, Before(h), z)
    ensures Present(Step(c, Last(h)), h, z) <==> !Resurrects(c, Last(h), z)
  {
    if c.data.Some? { IdsAfterMerge(c.data.value.zones, Last(h).id, Last(h).fields); }
  }

  lemma PollStepPresent(h: seq<Event>, z: string)
    requires h != [] && IsPoll(Last(h)) && Present(Run(Before(h)), Before(h), z)
    ensures Present(Run(h), h, z)
  {
    var zones := if Last(h).Poll? then Last(h).zones else [];
    var dhw := if Last(h).Poll? then Last(h).dhw else None;
    MaterializePresent(Run(Before(h)), h, zones, dhw, z);
    StepRetains(Run(Before(h)), Last(h), zones, dhw);
  }

  /** Published or not, what is retained after a poll is what was materialized. */
  lemma StepRetains(c: Cache, e: Event, zones: seq<Item>, dhw: Option<Fields>)
    requires e == Poll(zones, dhw) || (e == TransportGap && zones == [] && dhw == None)
    ensures var m, later := Materialize(c, zones, dhw), Step(c, e);
            later.lastZones == m.lastZones && later.gaps == m.gaps && later.lastDhw == m.lastDhw
  {
  }

  lemma EventStepPresent(h: seq<Event>, z: string)
    requires h != [] && Last(h).ZoneUpdate? && Present(Run(Before(h)), Before(h), z)
    ensures Present(Run(h), h, z) <==> !Resurrects(Run(Before(h)), Last(h), z)
  {
    RunTracks(Before(h), z);
    ZoneUpdatePresent(Run(Before(h)), h, z);
  }

  lemma OtherStepPresent(h: seq<Event>, z: string)
    requires h != [] && (Last(h).HardFailure? || Last(h).DhwUpdate?) && Present(Run(Before(h)), Before(h), z)
    ensures Present(Run(h), h, z)
  {
  }

  lemma StepPresent(h: seq<Event>, z: string)
    requires h != [] && Present(Run(Before(h)), Before(h), z)
    ensures Present(Run(h), h, z) <==> !Resurrects(Run(Before(h)), Last(h), z)
  {
    if IsPoll(Last(h)) {
      PollStepPresent(h, z);
    } else if Last(h).ZoneUpdate? {
      EventStepPresent(h, z);
    } else {
      OtherStepPresent(h, z);
    }
  }

  ghost predicate PresentAllAlong(h: seq<Event>, z: string) {
    forall k | 0 <= k <= |h| :: Present(Run(h[..k]), h[..k], z)
  }

  ghost predicate NeverResurrects(h: seq<Event>, z: string) {
    forall k | 0 <= k < |h| :: !Resurrects(Run(h[..k]), h[k], z)
  }

  /**
    A zone is retained iff at most two full polls have missed it, with that count as its gap counter, all along
    a run, exactly when no event of another zone comes while the published list shows it expired.
   */
  lemma RetentionMatchesHistoryIff(h: seq<Event>, z: string)
    ensures PresentAllAlong(h, z) <==> NeverResurrects(h, z)
  {
    if PresentAllAlong(h, z) {
      forall k | 0 <= k < |h| ensures !Resurrects(Run(h[..k]), h[k], z) {
        assert Before(h[..k + 1]) == h[..k];
        assert Present(Run(h[..k]), h[..k], z) && Present(Run(h[..k + 1]), h[..k + 1], z);
        StepPresent(h[..k + 1], z);
      }
    }
    if NeverResurrects(h, z) {
      forall k | 0 <= k <= |h| ensures Present(Run(h[..k]), h[..k], z) { PresentSoFar(h, k, z); }
    }
  }

  lemma {:induction false} PresentSoFar(h: seq<Event>, k: nat, z: string)
    requires k <= |h| && forall j | 0 <= j < k :: !Resurrects(Run(h[..j]), h[j], z)
    ensures Present(Run(h[..k]), h[..k], z)
  {
    if k > 0 {
      PresentSoFar(h, k - 1, z);
      assert Before(h[..k]) == h[..k - 1];
      assert !Resurrects(Run(h[..k - 1]), h[k - 1], z);
      StepPresent(h[..k], z);
    }
  }

  // ---------- contents: exact unless expired fields are brought back ----------

  lemma {:induction false} OnlyOfConcat(a: seq<Item>, b: seq<Item>, z: string)
    ensures Only(a + b, z) == Only(a, z) + Only(b, z)
  {
    if b == [] {
      assert a + b == a;
    } else {
      assert (a + b)[..|a + b| - 1] == a + b[..|b| - 1];
      OnlyOfConcat(a, b[..|b| - 1], z);
    }
  }

  lemma {:induction false} OnlyIsEmptyIff(items: seq<Item>, z: string)
    ensures Only(items, z) == [] <==> z !in Ids(items)
  {
    if items != [] {
      var before := items[..|items| - 1];
      OnlyIsEmptyIff(before, z);
      assert items == before + [items[|items| - 1]];
      IdsOfConcat(before, [items[|items| - 1]]);
      assert z in Ids([items[|items| - 1]]) <==> items[|items| - 1].Named(z) by {
        assert [items[|items| - 1]][0] == items[|items| - 1];
      }
    }
  }

  lemma {:induction false} OnlyOfKept(c: Cache, observed: set<string>, items: seq<Item>, z: string)
    ensures Only(Kept(c, observed, items), z)
            == if z !in observed && GapOf(c, z) + 1 <= TRANSIENT_GAP_LIMIT then Only(items, z) else []
  {
    if items != [] {
      OnlyOfKept(c, observed, items[..|items| - 1], z);
      var before := Kept(c, observed, items[..|items| - 1]);
      assert (before + [items[|items| - 1]])[..|before|] == before;
    }
  }

  lemma {:induction false} OnlyOfMerge(items: seq<Item>, id: string, fields: Fields, z: string)
    ensures Only(MergeAll(items, id, fields), z) == if z == id then MergeAll(Only(items, z), id, fields) else Only(items, z)
  {
    if items != [] {
      var before := items[..|items| - 1];
      OnlyOfMerge(before, id, fields, z);
      assert MergeAll(items, id, fields)[..|items| - 1] == MergeAll(before, id, fields);
      if z == id && items[|items| - 1].Named(z) {
        assert MergeAll(Only(items, z), id, fields)
               == MergeAll(Only(before, z), id, fields) + [MergeOne(items[|items| - 1], id, fields)];
      }
    } else {
      assert MergeAll([], id, fields) == [];
    }
  }

  lemma OnlyOfZoneUpdate(items: seq<Item>, id: string, fields: Fields, z: string)
    ensures Only(MergeZoneUpdate(items, Some(id), fields), z)
            == if z != id then Only(items, z)
               else if Only(items, z) == [] then [Zone(Some(z), fields)] else MergeAll(Only(items, z), z, fields)
  {
    var merged := MergeAll(items, id, fields);
    OnlyOfMerge(items, id, fields, z);
    OnlyIsEmptyIff(items, z);
    OnlyOfConcat(merged, [Zone(Some(id), fields)], z);
    assert merged + [] == merged;
    assert [Zone(Some(id), fields)][..0] == [];
    assert MergeAll([], id, fields) == [];
  }

  predicate Contents(c: Cache, h: seq<Event>, z: string) {
    Only(c.lastZones, z) == Entries(h, z) && Present(c, h, z)
  }

  /** An event of `z` itself brings nothing back if `z` is published once and the event covers all of its fields. */
  predicate Replaces(c: Cache, z: string, fields: Fields)
    requires c.data.Some?
  {
    var shown := Only(c.data.value.zones, z);
    |shown| == 1 && shown[0].Zone? && Covers(shown[0].fields, fields)
  }

  /** While `z` lingers, an event of another zone brings all of it back, and its own event what that leaves out. */
  predicate Revives(c: Cache, e: Event, z: string) {
    e.ZoneUpdate? && Lingers(c, z) && (e.id == Some(z) ==> !Replaces(c, z, e.fields))
  }

  lemma MaterializedOnly(c: Cache, zones: seq<Item>, dhw: Option<Fields>, z: string)
    ensures Only(Materialize(c, zones, dhw).lastZones, z)
            == if z in Ids(zones) then Only(zones, z)
               else if GapOf(c, z) + 1 <= TRANSIENT_GAP_LIMIT then Only(c.lastZones, z) else []
  {
    var kept := Kept(c, Ids(zones), c.lastZones);
    assert Materialize(c, zones, dhw).lastZones == zones + kept;
    OnlyOfConcat(zones, kept, z);
    OnlyIsEmptyIff(zones, z);
    OnlyOfKept(c, Ids(zones), c.lastZones, z);
  }

  lemma MaterializeContents(c: Cache, h: seq<Event>, zones: seq<Item>, dhw: Option<Fields>, z: string)
    requires h != [] && IsPoll(Last(h)) && (Mentions(h, z) <==> z in Ids(zones))
    requires Last(h).Poll? ==> Last(h).zones == zones
    requires Contents(c, Before(h), z)
    ensures Only(Materialize(c, zones, dhw).lastZones, z) == Entries(h, z)
  {
    MaterializedOnly(c, zones, dhw, z);
    OnlyIsEmptyIff(c.lastZones, z);
  }

  lemma {:induction false} OnlyAreNamed(items: seq<Item>, z: string)
    ensures forall i :: 0 <= i < |Only(items, z)| ==> Only(items, z)[i].Named(z)
  {
    if items != [] { OnlyAreNamed(items[..|items| - 1], z); }
  }

  lemma NamedContents(c: Cache, h: seq<Event>, z: string, fields: Fields)
    requires h != [] && Last(h) == ZoneUpdate(Some(z), fields) && Published(Before(h)) && Lingers(c, z)
    requires Entries(Before(h), z) == []
    ensures Only(Step(c, Last(h)).lastZones, z) == Entries(h, z) <==> Replaces(c, z, fields)
  {
    var zones := c.data.value.zones;
    var shown := Only(zones, z);
    OnlyIsEmptyIff(zones, z);
    OnlyAreNamed(zones, z);
    OnlyOfZoneUpdate(zones, z, fields, z);
    MergeKeepsNothingIff(shown[0].fields, fields);
  }

  lemma UpdateContents(c: Cache, h: seq<Event>, z: string)
    requires h != [] && Last(h).ZoneUpdate? && Published(Before(h)) && c.data.Some?
    requires c.data.value.zones == c.lastZones || c.lastZones == []
    requires Only(c.lastZones, z) == Entries(Before(h), z)
    ensures Only(Step(c, Last(h)).lastZones, z) == Entries(h, z) <==> !Revives(c, Last(h), z)
  {
    var e, zones := Last(h), c.data.value.zones;
    OnlyIsEmptyIff(zones, z);
    OnlyIsEmptyIff(c.lastZones, z);
    if e.id == Some(z) && Lingers(c, z) {
      NamedContents(c, h, z, e.fields);
    } else if e.id.Some? {
      OnlyOfZoneUpdate(zones, e.id.value, e.fields, z);
    }
  }

  lemma StepContents(h: seq<Event>, z: string)
    requires h != [] && Contents(Run(Before(h)), Before(h), z)
    ensures Contents(Run(h), h, z) <==> !Revives(Run(Before(h)), Last(h), z)
  {
    var c := Run(Before(h));
    StepPresent(h, z);
    match Last(h)
    case Poll(zones, dhw) => MaterializeContents(c, h, zones, dhw, z);
    case TransportGap => MaterializeContents(c, h, [], None, z);
    case HardFailure =>
    case ZoneUpdate(_, _) =>
      RunTracks(Before(h), z);
      if c.data.Some? { UpdateContents(c, h, z); }
    case DhwUpdate(_) =>
  }

  ghost predicate ContentsAllAlong(h: seq<Event>, z: string) {
    forall k | 0 <= k <= |h| :: Contents(Run(h[..k]), h[..k], z)
  }

  ghost predicate NeverRevives(h: seq<Event>, z: string) {
    forall k | 0 <= k < |h| :: !Revives(Run(h[..k]), h[k], z)
  }

  /**
    What is retained of a zone is what its own history says, entry for entry, all along a run, exactly when no
    event brings back what has expired: no event of another zone while this one lingers in the published list,
    and none of its own that leaves out a field of its expired entry.
   */
  lemma ContentsMatchHistoryIff(h: seq<Event>, z: string)
    ensures ContentsAllAlong(h, z) <==> NeverRevives(h, z)
  {
    if ContentsAllAlong(h, z) {
      forall k | 0 <= k < |h| ensures !Revives(Run(h[..k]), h[k], z) {
        assert Before(h[..k + 1]) == h[..k];
        assert Contents(Run(h[..k]), h[..k], z) && Contents(Run(h[..k + 1]), h[..k + 1], z);
        StepContents(h[..k + 1], z);
      }
    }
    if NeverRevives(h, z) {
      forall k | 0 <= k <= |h| ensures Contents(Run(h[..k]), h[..k], z) { ContentsSoFar(h, k, z); }
    }
  }

  lemma {:induction false} ContentsSoFar(h: seq<Event>, k: nat, z: string)
    requires k <= |h| && forall j | 0 <= j < k :: !Revives(Run(h[..j]), h[j], z)
    ensures Contents(Run(h[..k]), h[..k], z)
  {
    if k > 0 {
      ContentsSoFar(h, k - 1, z);
      assert Before(h[..k]) == h[..k - 1];
      assert !Revives(Run(h[..k - 1]), h[k - 1], z);
      StepContents(h[..k], z);
    }
  }

  /** The entries of the specification are there for at most two gaps. */
  lemma {:induction false} EntriesLastTwoGaps(h: seq<Event>, z: string)
    ensures Entries(h, z) != [] <==> Seen(h, z) && Gaps(h, z) <= TRANSIENT_GAP_LIMIT
  {
    if h != [] {
      EntriesLastTwoGaps(Before(h), z);
      if Last(h).Poll? { OnlyIsEmptyIff(Last(h).zones, z); }
    }
  }

  // ---------- what is published ----------

  predicate Shows(c: Cache, h: seq<Event>, z: string) {
    c.data.Some? ==> Only(c.data.value.zones, z) == Entries(h, z)
  }

  /** What is retained of `z` is what is published of it, unless it lingers. */
  lemma ShownIsRetained(h: seq<Event>, z: string)
    requires Contents(Run(h), h, z)
    ensures Shows(Run(h), h, z) <==> !Lingers(Run(h), z)
  {
    var c := Run(h);
    RunTracks(h, z);
    OnlyIsEmptyIff(c.lastZones, z);
    if c.data.Some? { OnlyIsEmptyIff(c.data.value.zones, z); }
  }

  ghost predicate ShowsAllAlong(h: seq<Event>, z: string) {
    forall k | 0 <= k <= |h| :: Shows(Run(h[..k]), h[..k], z)
  }

  ghost predicate NeverLingers(h: seq<Event>, z: string) {
    forall k | 0 <= k <= |h| :: !Lingers(Run(h[..k]), z)
  }

  /** A zone is published as its history says, all along a run, exactly when it never lingers. */
  lemma ShowsIffNeverLingers(h: seq<Event>, z: string)
    ensures ShowsAllAlong(h, z) <==> NeverLingers(h, z)
  {
    if ShowsAllAlong(h, z) {
      forall k | 0 <= k <= |h| ensures !Lingers(Run(h[..k]), z) { ShownNeverLingers(h, k, z); }
    }
    if NeverLingers(h, z) {
      forall k | 0 <= k <= |h| ensures Shows(Run(h[..k]), h[..k], z) {
        ContentsSoFar(h, k, z);
        ShownIsRetained(h[..k], z);
      }
    }
  }

  lemma {:induction false} ShownNeverLingers(h: seq<Event>, k: nat, z: string)
    requires k <= |h| && ShowsAllAlong(h, z)
    ensures forall j | 0 <= j <= k :: !Lingers(Run(h[..j]), z)
  {
    if k > 0 { ShownNeverLingers(h, k - 1, z); }
    ContentsSoFar(h, k, z);
    assert Shows(Run(h[..k]), h[..k], z);
    ShownIsRetained(h[..k], z);
  }

  /** Nothing is left that may be missed once more: neither a zone nor DHW. */
  predicate Exhausted(c: Cache) {
    && (forall i | 0 <= i < |c.lastZones| :: !Retained(c, {}, c.lastZones[i]))
    && (c.lastDhw == None || c.dhwGaps >= TRANSIENT_GAP_LIMIT)
  }

  /** A transport gap fails the refresh exactly when nothing is left to retain; it then publishes nothing. */
  lemma GapFailsIff(c: Cache)
    ensures var later := Step(c, TransportGap);
            if Exhausted(c) then
              !later.lastUpdateSuccess && later.data == c.data && later.lastZones == [] && later.lastDhw == None
            else later.lastUpdateSuccess && later.data == Some(Payload(later.lastZones, later.lastDhw))
  {
    GapRetains(c);
    assert Ids([]) == {};
    KeptIsEmptyIff(c, c.lastZones);
  }

  lemma {:induction false} KeptIsEmptyIff(c: Cache, items: seq<Item>)
    ensures Kept(c, {}, items) == [] <==> forall i | 0 <= i < |items| :: !Retained(c, {}, items[i])
  {
    if items != [] {
      var n := |items| - 1;
      KeptIsEmptyIff(c, items[..n]);
      assert forall i | 0 <= i < n :: items[..n][i] == items[i];
    }
  }

  /** The refresh fails with nothing left to retain, while the zone is published. */
  predicate Strands(c: Cache, e: Event, z: string) {
    e.TransportGap? && Exhausted(c) && c.data.Some? && z in Ids(c.data.value.zones)
  }

  ghost predicate NeverStrands(h: seq<Event>, z: string) {
    forall k | 0 <= k < |h| :: !Strands(Run(h[..k]), h[k], z)
  }

  /** A step leaves a zone lingering exactly when it strands the zone, or does not touch one that lingers. */
  lemma StepLingersIff(c: Cache, e: Event, z: string)
    ensures Lingers(Step(c, e), z) <==>
              Strands(c, e, z) || ((e.HardFailure? || e.DhwUpdate?) && Lingers(c, z))
  {
    if e.TransportGap? { GapFailsIff(c); }
  }

  lemma {:induction false} NotStrandedSoFar(h: seq<Event>, k: nat, z: string)
    requires k <= |h| && forall j | 0 <= j < k :: !Strands(Run(h[..j]), h[j], z)
    ensures !Lingers(Run(h[..k]), z)
  {
    if k > 0 {
      NotStrandedSoFar(h, k - 1, z);
      RunGrows(h, k - 1);
      StepLingersIff(Run(h[..k - 1]), h[k - 1], z);
    }
  }

  lemma RunGrows(h: seq<Event>, k: nat)
    requires k < |h|
    ensures Run(h[..k + 1]) == Step(Run(h[..k]), h[k])
  {
    assert h[..k + 1] == h[..k] + [h[k]];
    FoldEnds(Step, START, h[..k], h[k]);
  }

  /**
    A zone is published as its history says, all along a run, exactly when no transport gap fails the refresh while
    the zone is published.
   */
  lemma PublishedMatchesHistoryIff(h: seq<Event>, z: string)
    ensures ShowsAllAlong(h, z) <==> NeverStrands(h, z)
  {
    ShowsIffNeverLingers(h, z);
    if NeverLingers(h, z) {
      forall k | 0 <= k < |h| ensures !Strands(Run(h[..k]), h[k], z) {
        RunGrows(h, k);
        StepLingersIff(Run(h[..k]), h[k], z);
        assert !Lingers(Run(h[..k + 1]), z);
      }
    }
    if NeverStrands(h, z) {
      forall k | 0 <= k <= |h| ensures !Lingers(Run(h[..k]), z) { NotStrandedSoFar(h, k, z); }
    }
  }

  /** While refreshes succeed, what is published is what is retained. */
  predicate Mirrors(c: Cache) {
    c.lastUpdateSuccess && c.data.Some? ==> c.data.value == Payload(c.lastZones, c.lastDhw)
  }

  lemma {:induction false} SuccessMirrors(h: seq<Event>)
    ensures Mirrors(Run(h))
  {
    if h != [] { SuccessMirrors(Before(h)); }
  }

  /** After a successful refresh a zone is published, as its history says, iff at most two full polls have missed it. */
  lemma SuccessShowsHistory(h: seq<Event>, z: string)
    requires NeverRevives(h, z) && Run(h).lastUpdateSuccess && Run(h).data.Some?
    ensures Only(Run(h).data.value.zones, z) == Entries(h, z)
    ensures z in Ids(Run(h).data.value.zones) <==> Seen(h, z) && Gaps(h, z) <= TRANSIENT_GAP_LIMIT
  {
    assert h[..|h|] == h;
    ContentsSoFar(h, |h|, z);
    SuccessMirrors(h);
    OnlyIsEmptyIff(Run(h).data.value.zones, z);
    EntriesLastTwoGaps(h, z);
  }

  ghost predicate SucceedsAllAlong(h: seq<Event>) {
    forall k | 0 <= k <= |h| :: Run(h[..k]).lastUpdateSuccess
  }

  /** Nothing lingers, and so nothing comes back, in a run whose refreshes all succeed. */
  lemma SuccessfulRunsNeverRevive(h: seq<Event>, z: string)
    requires SucceedsAllAlong(h)
    ensures NeverLingers(h, z) && NeverRevives(h, z) && NeverResurrects(h, z)
  {
    forall k | 0 <= k <= |h| ensures !Lingers(Run(h[..k]), z) { SuccessMirrors(h[..k]); }
  }

  /** Refreshes that are answered succeed. */
  lemma AnsweredRunsSucceed(h: seq<Event>)
    requires forall i | 0 <= i < |h| :: !h[i].TransportGap? && !h[i].HardFailure?
    ensures SucceedsAllAlong(h)
  {
    forall k | 0 <= k <= |h| ensures Run(h[..k]).lastUpdateSuccess { AnsweredSoFar(h, k); }
  }

  lemma {:induction false} AnsweredSoFar(h: seq<Event>, k: nat)
    requires k <= |h| && forall i | 0 <= i < |h| :: !h[i].TransportGap? && !h[i].HardFailure?
    ensures Run(h[..k]).lastUpdateSuccess
  {
    if k > 0 {
      AnsweredSoFar(h, k - 1);
      assert h[..k][..k - 1] == h[..k - 1];
    }
  }

  // ---------- events of other zones ----------

  lemma SiblingApplies(c: Cache, e: Event, z: string)
    requires e.ZoneUpdate? && e.id != Some(z)
    requires c.data.Some? ==> c.data.value.zones == c.lastZones || c.lastZones == []
    ensures var d := Step(c, e);
            && (Only(d.lastZones, z) == Only(c.lastZones, z) <==> !Lingers(c, z)) && !Lingers(d, z)
            && GapOf(d, z) == GapOf(c, z) && (z in d.stale <==> z in c.stale)
  {
    OnlyIsEmptyIff(c.lastZones, z);
    if c.data.Some? {
      OnlyIsEmptyIff(c.data.value.zones, z);
      if e.id.Some? { OnlyOfZoneUpdate(c.data.value.zones, e.id.value, e.fields, z); }
    }
  }

  lemma SiblingLeavesHistory(h: seq<Event>, e: Event, z: string)
    requires e.ZoneUpdate? && e.id != Some(z)
    ensures Gaps(h + [e], z) == Gaps(h, z) && Seen(h + [e], z) == Seen(h, z) && Entries(h + [e], z) == Entries(h, z)
  {
    assert Before(h + [e]) == h;
  }

  lemma SiblingStep(h: seq<Event>, e: Event, z: string)
    requires e.ZoneUpdate? && e.id != Some(z)
    ensures var c, d := Run(h), Run(h + [e]);
            && (Only(d.lastZones, z) == Only(c.lastZones, z) <==> !Lingers(c, z)) && !Lingers(d, z)
            && GapOf(d, z) == GapOf(c, z) && (z in d.stale <==> z in c.stale)
    ensures Gaps(h + [e], z) == Gaps(h, z) && Seen(h + [e], z) == Seen(h, z) && Entries(h + [e], z) == Entries(h, z)
  {
    FoldEnds(Step, START, h, e);
    RunTracks(h, z);
    SiblingApplies(Run(h), e, z);
    SiblingLeavesHistory(h, e, z);
  }

  /**
    Any number of events of other zones neither refresh a zone nor delay its expiry, in every run; and they leave
    what is retained of it alone exactly when it does not linger.
   */
  lemma {:induction false} SiblingsDoNotCount(h: seq<Event>, siblings: seq<Event>, z: string)
    requires forall i :: 0 <= i < |siblings| ==> siblings[i].ZoneUpdate? && siblings[i].id != Some(z)
    ensures Gaps(h + siblings, z) == Gaps(h, z) && Seen(h + siblings, z) == Seen(h, z)
    ensures GapOf(Run(h + siblings), z) == GapOf(Run(h), z) && (z in Run(h + siblings).stale <==> z in Run(h).stale)
    ensures siblings != [] ==>
              && (Only(Run(h + siblings).lastZones, z) == Only(Run(h).lastZones, z) <==> !Lingers(Run(h), z))
              && !Lingers(Run(h + siblings), z)
  {
    if siblings == [] {
      assert h + siblings == h;
    } else {
      var n := |siblings| - 1;
      var fewer, e := siblings[..n], siblings[n];
      assert h + siblings == (h + fewer) + [e];
      assert forall i :: 0 <= i < |fewer| ==> fewer[i] == siblings[i];
      SiblingsDoNotCount(h, fewer, z);
      SiblingStep(h + fewer, e, z);
      if fewer == [] { assert h + fewer == h; }
    }
  }

  // ---------- domestic hot water ----------

  predicate DhwAgrees(c: Cache, seen: bool, gaps: nat) {
    && (c.lastDhw.Some? <==> seen && gaps <= TRANSIENT_GAP_LIMIT)
    && (c.lastDhw.Some? ==> c.dhwGaps == gaps)
    && (c.dhwStale <==> seen && gaps >= 1)
  }

  lemma TakeDhwAgrees(c: Cache, dhw: Option<Fields>, seen: bool, gaps: nat)
    requires DhwAgrees(c, seen, gaps)
    ensures DhwAgrees(TakeDhw(c, dhw), seen || dhw.Some?, if dhw.Some? then 0 else gaps + 1)
  {
  }

  lemma MaterializeAgrees(c: Cache, zones: seq<Item>, dhw: Option<Fields>, seen: bool, gaps: nat)
    requires DhwAgrees(c, seen, gaps)
    ensures DhwAgrees(Materialize(c, zones, dhw), seen || dhw.Some?, if dhw.Some? then 0 else gaps + 1)
  {
    TakeDhwAgrees(MaterializeZones(c, zones), dhw, seen, gaps);
  }

  lemma EventAgrees(c: Cache, dhw: Option<Fields>, seen: bool, gaps: nat)
    requires DhwAgrees(c, seen, gaps) && c.data.Some?
    ensures DhwAgrees(Step(c, DhwUpdate(dhw)), seen || dhw.Some?, if dhw.Some? then 0 else gaps + 1)
  {
    var current := c.data.value.dhw;
    TakeDhwAgrees(c, if current.Some? && dhw.Some? then Some(MergeDicts(current.value, dhw.value)) else dhw, seen, gaps);
  }

  lemma StepAgrees(c: Cache, e: Event, seen: bool, gaps: nat)
    requires DhwAgrees(c, seen, gaps)
    ensures match e
            case Poll(_, dhw) => DhwAgrees(Step(c, e), seen || dhw.Some?, if dhw.Some? then 0 else gaps + 1)
            case TransportGap => DhwAgrees(Step(c, e), seen, gaps + 1)
            case DhwUpdate(dhw) =>
              if c.data.Some? then DhwAgrees(Step(c, e), seen || dhw.Some?, if dhw.Some? then 0 else gaps + 1)
              else DhwAgrees(Step(c, e), seen, gaps)
            case _ => DhwAgrees(Step(c, e), seen, gaps)
  {
    match e
    case Poll(zones, dhw) => MaterializeAgrees(c, zones, dhw, seen, gaps);
    case TransportGap => MaterializeAgrees(c, [], None, seen, gaps);
    case HardFailure =>
    case ZoneUpdate(_, _) =>
    case DhwUpdate(dhw) => if c.data.Some? { EventAgrees(c, dhw, seen, gaps); }
  }

  /** In every run: DHW is retained iff at most two gaps have passed, and stale iff one has. */
  lemma {:induction false} DhwMatchesHistory(h: seq<Event>)
    ensures DhwAgrees(Run(h), DhwSeen(h), DhwGaps(h))
  {
    if h != [] {
      DhwMatchesHistory(Before(h));
      DataIffPublished(Before(h));
      StepAgrees(Run(Before(h)), Last(h), DhwSeen(Before(h)), DhwGaps(Before(h)));
    }
  }

  /** The published DHW data is no longer retained. */
  predicate DhwLingers(c: Cache) { c.data.Some? && c.data.value.dhw.Some? && c.lastDhw == None }

  /** An event merges into data that has expired, and leaves out some of it. */
  predicate DhwRevives(c: Cache, e: Event) {
    && e.DhwUpdate? && e.dhw.Some? && DhwLingers(c)
    && !Covers(c.data.value.dhw.value, e.dhw.value)
  }

  predicate DhwHeld(c: Cache) {
    if c.data == None then c.lastDhw == None
    else c.data.value.dhw == c.lastDhw || (c.lastDhw == None && c.dhwStale)
  }

  lemma {:induction false} RunHoldsDhw(h: seq<Event>)
    ensures DhwHeld(Run(h))
  {
    if h != [] { RunHoldsDhw(Before(h)); }
  }

  lemma DhwEventContents(c: Cache, h: seq<Event>)
    requires h != [] && Last(h).DhwUpdate? && Published(Before(h)) && c.data.Some? && DhwHeld(c)
    requires c.lastDhw == DhwEntry(Before(h)) && DhwAgrees(c, DhwSeen(Before(h)), DhwGaps(Before(h)))
    ensures Step(c, Last(h)).lastDhw == DhwEntry(h) <==> !DhwRevives(c, Last(h))
  {
    if DhwLingers(c) && Last(h).dhw.Some? { MergeKeepsNothingIff(c.data.value.dhw.value, Last(h).dhw.value); }
  }

  lemma DhwPollContents(c: Cache, h: seq<Event>, zones: seq<Item>, dhw: Option<Fields>)
    requires h != [] && IsPoll(Last(h)) && dhw == if Last(h).Poll? then Last(h).dhw else None
    requires c.lastDhw == DhwEntry(Before(h)) && DhwAgrees(c, DhwSeen(Before(h)), DhwGaps(Before(h)))
    ensures Materialize(c, zones, dhw).lastDhw == DhwEntry(h)
  {
    assert Materialize(c, zones, dhw).lastDhw == TakeDhw(c, dhw).lastDhw;
  }

  lemma StepDhwContents(h: seq<Event>)
    requires h != [] && Run(Before(h)).lastDhw == DhwEntry(Before(h))
    ensures Run(h).lastDhw == DhwEntry(h) <==> !DhwRevives(Run(Before(h)), Last(h))
  {
    var c := Run(Before(h));
    DhwMatchesHistory(Before(h));
    DataIffPublished(Before(h));
    RunHoldsDhw(Before(h));
    match Last(h)
    case Poll(zones, dhw) => DhwPollContents(c, h, zones, dhw);
    case TransportGap => DhwPollContents(c, h, [], None);
    case HardFailure =>
    case ZoneUpdate(_, _) =>
    case DhwUpdate(_) => if c.data.Some? { DhwEventContents(c, h); }
  }

  ghost predicate DhwContentsAllAlong(h: seq<Event>) {
    forall k | 0 <= k <= |h| :: Run(h[..k]).lastDhw == DhwEntry(h[..k])
  }

  ghost predicate DhwNeverRevives(h: seq<Event>) {
    forall k | 0 <= k < |h| :: !DhwRevives(Run(h[..k]), h[k])
  }

  /**
    The retained DHW data is what its history says, all along a run, exactly when no event comes that leaves out
    a field of published data that has expired.
   */
  lemma DhwContentsMatchHistoryIff(h: seq<Event>)
    ensures DhwContentsAllAlong(h) <==> DhwNeverRevives(h)
  {
    if DhwContentsAllAlong(h) {
      forall k | 0 <= k < |h| ensures !DhwRevives(Run(h[..k]), h[k]) {
        assert Before(h[..k + 1]) == h[..k];
        assert Run(h[..k]).lastDhw == DhwEntry(h[..k]) && Run(h[..k + 1]).lastDhw == DhwEntry(h[..k + 1]);
        StepDhwContents(h[..k + 1]);
      }
    }
    if DhwNeverRevives(h) {
      forall k | 0 <= k <= |h| ensures Run(h[..k]).lastDhw == DhwEntry(h[..k]) { DhwContentsSoFar(h, k); }
    }
  }

  lemma {:induction false} DhwContentsSoFar(h: seq<Event>, k: nat)
    requires k <= |h| && forall j | 0 <= j < k :: !DhwRevives(Run(h[..j]), h[j])
    ensures Run(h[..k]).lastDhw == DhwEntry(h[..k])
  {
    if k > 0 {
      DhwContentsSoFar(h, k - 1);
      assert Before(h[..k]) == h[..k - 1];
      assert !DhwRevives(Run(h[..k - 1]), h[k - 1]);
      StepDhwContents(h[..k]);
    }
  }

  // ---------- published DHW ----------

  predicate ShowsDhw(c: Cache, h: seq<Event>) { c.data.Some? ==> c.data.value.dhw == DhwEntry(h) }

  ghost predicate ShowsDhwAllAlong(h: seq<Event>) {
    forall k | 0 <= k <= |h| :: ShowsDhw(Run(h[..k]), h[..k])
  }

  /** The refresh fails with nothing left to retain, while DHW data is published. */
  predicate DhwStrands(c: Cache, e: Event) {
    e.TransportGap? && Exhausted(c) && c.data.Some? && c.data.value.dhw.Some?
  }

  ghost predicate DhwNeverStrands(h: seq<Event>) {
    forall k | 0 <= k < |h| :: !DhwStrands(Run(h[..k]), h[k])
  }

  /** A step leaves DHW data lingering exactly when it strands it, or does not touch what lingers. */
  lemma StepDhwLingersIff(c: Cache, e: Event)
    ensures DhwLingers(Step(c, e)) <==>
              DhwStrands(c, e) || ((e.HardFailure? || e.ZoneUpdate?) && DhwLingers(c))
  {
    if e.TransportGap? { GapFailsIff(c); }
  }

  /** What is retained of DHW is what is published of it, unless it lingers. */
  lemma ShownDhwIsRetained(h: seq<Event>)
    requires Run(h).lastDhw == DhwEntry(h)
    ensures ShowsDhw(Run(h), h) <==> !DhwLingers(Run(h))
  {
    RunHoldsDhw(h);
  }

  lemma {:induction false} DhwNotStrandedSoFar(h: seq<Event>, k: nat)
    requires k <= |h| && forall j | 0 <= j < k :: !DhwStrands(Run(h[..j]), h[j])
    ensures !DhwLingers(Run(h[..k]))
  {
    if k > 0 {
      DhwNotStrandedSoFar(h, k - 1);
      RunGrows(h, k - 1);
      StepDhwLingersIff(Run(h[..k - 1]), h[k - 1]);
    }
  }

  lemma {:induction false} ShownDhwNeverLingers(h: seq<Event>, k: nat)
    requires k <= |h| && ShowsDhwAllAlong(h)
    ensures forall j | 0 <= j <= k :: !DhwLingers(Run(h[..j]))
  {
    if k > 0 { ShownDhwNeverLingers(h, k - 1); }
    DhwContentsSoFar(h, k);
    assert ShowsDhw(Run(h[..k]), h[..k]);
    ShownDhwIsRetained(h[..k]);
  }

  /**
    DHW data is published as its history says, all along a run, exactly when no transport gap fails the refresh
    while any is published.
   */
  lemma PublishedDhwMatchesHistoryIff(h: seq<Event>)
    ensures ShowsDhwAllAlong(h) <==> DhwNeverStrands(h)
  {
    if ShowsDhwAllAlong(h) {
      ShownDhwNeverLingers(h, |h|);
      forall k | 0 <= k < |h| ensures !DhwStrands(Run(h[..k]), h[k]) {
        RunGrows(h, k);
        StepDhwLingersIff(Run(h[..k]), h[k]);
        assert !DhwLingers(Run(h[..k + 1]));
      }
    }
    if DhwNeverStrands(h) {
      forall k | 0 <= k <= |h| ensures !DhwLingers(Run(h[..k])) { DhwNotStrandedSoFar(h, k); }
      forall k | 0 <= k <= |h| ensures ShowsDhw(Run(h[..k]), h[..k]) {
        DhwContentsSoFar(h, k);
        ShownDhwIsRetained(h[..k]);
      }
    }
  }

  /** The published DHW data, too, is what its history says wherever the refresh succeeded. */
  lemma SuccessShowsDhwHistory(h: seq<Event>)
    requires DhwNeverRevives(h) && Run(h).lastUpdateSuccess && Run(h).data.Some?
    ensures Run(h).data.value.dhw == DhwEntry(h)
  {
    assert h[..|h|] == h;
    DhwContentsSoFar(h, |h|);
    SuccessMirrors(h);
  }

  /** A run whose refreshes all succeed publishes, of each zone and of DHW, exactly what the history says. */
  lemma SuccessfulRunsShowHistory(h: seq<Event>, z: string)
    requires SucceedsAllAlong(h) && Run(h).data.Some?
    ensures Only(Run(h).data.value.zones, z) == Entries(h, z)
    ensures z in Ids(Run(h).data.value.zones) <==> Seen(h, z) && Gaps(h, z) <= TRANSIENT_GAP_LIMIT
    ensures Run(h).data.value.dhw == DhwEntry(h)
  {
    assert h[..|h|] == h;
    SuccessfulRunsNeverRevive(h, z);
    SuccessShowsHistory(h, z);
    forall k | 0 <= k < |h| ensures !DhwRevives(Run(h[..k]), h[k]) { SuccessMirrors(h[..k]); }
    SuccessShowsDhwHistory(h);
  }

  lemma DataIffPublished(h: seq<Event>)
    ensures Run(h).data.Some? <==> Published(h)
  {
    RunTracks(h, "");
  }

  // ---------- sparse events ----------

  /** `z` is published, and has `value` at the end of the path. */
  predicate Reads(c: Cache, z: string, path: seq<string>, value: Json) {
    && c.data.Some? && Only(c.data.value.zones, z) != []
    && forall i | 0 <= i < |Only(c.data.value.zones, z)| ::
         Only(c.data.value.zones, z)[i].Zone? && Read(Only(c.data.value.zones, z)[i].fields, path) == Some(value)
  }

  /** An event of another zone, of hot water, or of `z` that leaves the path out. */
  predicate SaysNothingOf(e: Event, z: string, path: seq<string>) {
    e.DhwUpdate? || (e.ZoneUpdate? && (e.id == Some(z) ==> LeavesOut(e.fields, path)))
  }

  lemma UpdateReads(c: Cache, z: string, fields: Fields, path: seq<string>, value: Json)
    requires Reads(c, z, path, value) && LeavesOut(fields, path)
    ensures Reads(Step(c, ZoneUpdate(Some(z), fields)), z, path, value)
  {
    var shown := Only(c.data.value.zones, z);
    OnlyOfZoneUpdate(c.data.value.zones, z, fields, z);
    OnlyAreNamed(c.data.value.zones, z);
    forall i | 0 <= i < |shown|
      ensures Read(MergeDicts(shown[i].fields, fields), path) == Some(value)
    {
      LeftOutValuesStay(shown[i].fields, fields, path);
    }
  }

  lemma SilentStepReads(c: Cache, e: Event, z: string, path: seq<string>, value: Json)
    requires Reads(c, z, path, value) && SaysNothingOf(e, z, path)
    ensures Reads(Step(c, e), z, path, value)
  {
    if e.ZoneUpdate? {
      if e.id == Some(z) {
        UpdateReads(c, z, e.fields, path, value);
      } else if e.id.Some? {
        OnlyOfZoneUpdate(c.data.value.zones, e.id.value, e.fields, z);
      }
    }
  }

  /** What is published of a field stays published over any events that do not give it. */
  lemma {:induction false} LastValueStays(h: seq<Event>, events: seq<Event>, z: string, path: seq<string>, value: Json)
    requires Reads(Run(h), z, path, value) && forall e | e in events :: SaysNothingOf(e, z, path)
    ensures Reads(Run(h + events), z, path, value)
  {
    if events == [] {
      assert h + events == h;
    } else {
      var n := |events| - 1;
      assert h + events == (h + events[..n]) + [events[n]] && events[n] in events;
      LastValueStays(h, events[..n], z, path, value);
      FoldEnds(Step, START, h + events[..n], events[n]);
      SilentStepReads(Run(h + events[..n]), events[n], z, path, value);
    }
  }

  /** An event publishes each value that it gives, of a zone that was known or not. */
  lemma GivenValueIsPublished(h: seq<Event>, z: string, fields: Fields, path: seq<string>, text: string)
    requires Published(h) && Read(fields, path) == Some(Leaf(text))
    ensures Reads(Run(h + [ZoneUpdate(Some(z), fields)]), z, path, Leaf(text))
  {
    var c := Run(h);
    DataIffPublished(h);
    FoldEnds(Step, START, h, ZoneUpdate(Some(z), fields));
    var shown := Only(c.data.value.zones, z);
    OnlyOfZoneUpdate(c.data.value.zones, z, fields, z);
    OnlyAreNamed(c.data.value.zones, z);
    forall i | 0 <= i < |shown|
      ensures Read(MergeDicts(shown[i].fields, fields), path) == Some(Leaf(text))
    {
      GivenValuesArrive(shown[i].fields, fields, path, text);
    }
  }

  /** Likewise of hot water: values that an event gives are published, and published ones that it leaves out stay. */
  lemma DhwEventsAreSparse(h: seq<Event>, fields: Fields, path: seq<string>)
    requires Published(h)
    ensures var c, d := Run(h), Run(h + [DhwUpdate(Some(fields))]);
            && d.data.Some? && d.data.value.dhw == d.lastDhw && d.lastDhw.Some?
            && (forall text | Read(fields, path) == Some(Leaf(text)) :: Read(d.lastDhw.value, path) == Some(Leaf(text)))
            && (c.data.value.dhw.Some? && LeavesOut(fields, path) && Read(c.data.value.dhw.value, path).Some? ==>
                  Read(d.lastDhw.value, path) == Read(c.data.value.dhw.value, path))
  {
    var c := Run(h);
    DataIffPublished(h);
    FoldEnds(Step, START, h, DhwUpdate(Some(fields)));
    if c.data.value.dhw.Some? {
      forall text | Read(fields, path) == Some(Leaf(text))
        ensures Read(MergeDicts(c.data.value.dhw.value, fields), path) == Some(Leaf(text))
      {
        GivenValuesArrive(c.data.value.dhw.value, fields, path, text);
      }
      if LeavesOut(fields, path) && Read(c.data.value.dhw.value, path).Some? {
        LeftOutValuesStay(c.data.value.dhw.value, fields, path);
      }
    }
  }

  /** A poll publishes what it observed as it stands, in front, and behind it only named zones that it missed. */
  lemma PollsPublishWhatTheyObserve(h: seq<Event>, zones: seq<Item>, dhw: Option<Fields>)
    ensures var d := Run(h + [Poll(zones, dhw)]);
            && d.data.Some? && zones <= d.data.value.zones && d.lastUpdateSuccess
            && (forall i | |zones| <= i < |d.data.value.zones| ::
                  && d.data.value.zones[i] in Run(h).lastZones
                  && d.data.value.zones[i].Zone? && d.data.value.zones[i].id.Some?
                  && d.data.value.zones[i].id.value !in Ids(zones))
            && (dhw.Some? ==> d.data.value.dhw == dhw)
  {
    var c := Run(h);
    FoldEnds(Step, START, h, Poll(zones, dhw));
    KeptAreMissed(c, Ids(zones), c.lastZones);
  }

  /** An event leaves every other item of the published list in its place, as it was, and adds a zone only if it is new. */
  lemma EventsKeepTheList(h: seq<Event>, id: Option<string>, fields: Fields)
    requires Published(h)
    ensures Run(h).data.Some? && Run(h + [ZoneUpdate(id, fields)]).data.Some?
    ensures var c, d := Run(h), Run(h + [ZoneUpdate(id, fields)]);
            var was, now := c.data.value.zones, d.data.value.zones;
            && d.data.value.dhw == c.data.value.dhw
            && |now| == |was| + (if id.Some? && id.value !in Ids(was) then 1 else 0)
            && forall i | 0 <= i < |was| && (id.None? || !was[i].Named(id.value)) :: now[i] == was[i]
  {
    DataIffPublished(h);
    FoldEnds(Step, START, h, ZoneUpdate(id, fields));
  }

  lemma {:induction false} KeptAreMissed(c: Cache, observed: set<string>, items: seq<Item>)
    ensures forall x | x in Kept(c, observed, items) :: x in items && x.Zone? && x.id.Some? && x.id.value !in observed
  {
    if items != [] { KeptAreMissed(c, observed, items[..|items| - 1]); }
  }

  // ---------- runs in which something expired comes back ----------

  /** A poll and three transport gaps. */
  predicate ThreeGaps(h: seq<Event>) {
    |h| == 4 && h[0].Poll? && h[1].TransportGap? && h[2].TransportGap? && h[3].TransportGap?
  }

  lemma {:induction false} GapsCount(h: seq<Event>, z: string, k: nat)
    requires ThreeGaps(h) && 1 <= k <= 4
    ensures Published(h[..k])
    ensures (Seen(h[..k], z) <==> z in Ids(h[0].zones)) && (Seen(h[..k], z) ==> Gaps(h[..k], z) == k - 1)
    ensures Entries(h[..k], z) == if k <= 3 then Only(h[0].zones, z) else []
    ensures (DhwSeen(h[..k]) <==> h[0].dhw.Some?) && (DhwSeen(h[..k]) ==> DhwGaps(h[..k]) == k - 1)
    ensures DhwEntry(h[..k]) == if k <= 3 then h[0].dhw else None
  {
    assert Before(h[..k]) == h[..k - 1];
    OnlyIsEmptyIff(h[0].zones, z);
    if k > 1 { GapsCount(h, z, k - 1); }
  }

  lemma ThreeGapsRetain(h: seq<Event>, z: string, k: nat)
    requires ThreeGaps(h) && k <= 4
    ensures Contents(Run(h[..k]), h[..k], z)
  {
    assert forall j | 0 <= j < k :: !h[j].ZoneUpdate?;
    ContentsSoFar(h, k, z);
  }

  lemma ThreeGapsRetainDhw(h: seq<Event>, k: nat)
    requires ThreeGaps(h) && k <= 4
    ensures Run(h[..k]).lastDhw == DhwEntry(h[..k])
  {
    assert forall j | 0 <= j < k :: !h[j].DhwUpdate?;
    DhwContentsSoFar(h, k);
  }

  lemma ThreeGapsShow(h: seq<Event>, z: string)
    requires ThreeGaps(h)
    ensures Run(h[..3]).data.Some? && Only(Run(h[..3]).data.value.zones, z) == Only(h[0].zones, z)
  {
    GapsCount(h, z, 3);
    ThreeGapsRetain(h, z, 3);
    RunTracks(h[..3], z);
    ShownIsRetained(h[..3], z);
  }

  lemma ThreeGapsShowDhw(h: seq<Event>)
    requires ThreeGaps(h)
    ensures Run(h[..3]).data.Some? && Run(h[..3]).data.value.dhw == h[0].dhw
  {
    GapsCount(h, "", 3);
    ThreeGapsRetainDhw(h, 3);
    DataIffPublished(h[..3]);
    DhwMatchesHistory(h[..3]);
    RunHoldsDhw(h[..3]);
  }

  lemma ThreeGapsLeaveNothing(h: seq<Event>, z: string)
    requires ThreeGaps(h)
    ensures z !in Ids(Run(h).lastZones) && Run(h).lastDhw == None
  {
    assert h[..4] == h;
    GapsCount(h, z, 4);
    ThreeGapsRetain(h, z, 4);
    ThreeGapsRetainDhw(h, 4);
  }

  lemma LastStep(h: seq<Event>)
    requires h != []
    ensures Run(h) == Step(Run(Before(h)), Last(h))
  {
  }

  /** The third gap in a row fails the refresh, and the framework keeps what was published before. */
  lemma ThreeGapsFail(h: seq<Event>, z: string)
    requires ThreeGaps(h)
    ensures !Run(h).lastUpdateSuccess && Run(h).lastZones == [] && Run(h).lastDhw == None && Run(h).data.Some?
    ensures Only(Run(h).data.value.zones, z) == Only(h[0].zones, z) && Run(h).data.value.dhw == h[0].dhw
  {
    assert h[..4] == h && Before(h) == h[..3];
    forall y ensures y !in Ids(Run(h).lastZones) { ThreeGapsLeaveNothing(h, y); }
    ThreeGapsLeaveNothing(h, z);
    ThreeGapsShow(h, z);
    ThreeGapsShowDhw(h);
    LastStep(h);
    NothingLeft(Run(h[..3]));
  }

  lemma NamedItemsHaveIds(items: seq<Item>)
    requires forall i :: 0 <= i < |items| ==> items[i].Zone? && items[i].id.Some?
    ensures items != [] ==> Ids(items) != {}
  {
    if items != [] {
      var z := items[0].id.value;
      assert items[0].Named(z) && z in Ids(items);
    }
  }

  /** A transport gap that leaves no zone and no DHW fails without publishing. */
  lemma NothingLeft(c: Cache)
    requires Ids(Step(c, TransportGap).lastZones) == {} && Step(c, TransportGap).lastDhw == None
    ensures !Step(c, TransportGap).lastUpdateSuccess && Step(c, TransportGap).data == c.data
    ensures Step(c, TransportGap).lastZones == []
  {
    GapRetains(c);
    OnlyNamedAreKept(c, Ids([]), c.lastZones);
    NamedItemsHaveIds(Kept(c, Ids([]), c.lastZones));
  }

  lemma GapRetains(c: Cache)
    ensures var m, later := Materialize(c, [], None), Step(c, TransportGap);
            && later.lastZones == m.lastZones == Kept(c, Ids([]), c.lastZones) && later.lastDhw == m.lastDhw
            && (later.lastZones == [] && later.lastDhw == None ==> !later.lastUpdateSuccess && later.data == c.data)
  {
    assert [] + Kept(c, Ids([]), c.lastZones) == Kept(c, Ids([]), c.lastZones);
  }

  lemma {:induction false} OnlyNamedAreKept(c: Cache, observed: set<string>, items: seq<Item>)
    ensures forall i :: 0 <= i < |Kept(c, observed, items)| ==>
              Kept(c, observed, items)[i].Zone? && Kept(c, observed, items)[i].id.Some?
  {
    if items != [] { OnlyNamedAreKept(c, observed, items[..|items| - 1]); }
  }

  /** A zone that has expired stays published after the failed refresh. */
  lemma AnExpiredZoneStaysPublished(h: seq<Event>, z: string)
    requires ThreeGaps(h) && z in Ids(h[0].zones)
    ensures Run(h).data.Some? && Only(Run(h).data.value.zones, z) == Only(h[0].zones, z) != [] && Entries(h, z) == []
  {
    assert h[..4] == h;
    GapsCount(h, z, 4);
    ThreeGapsFail(h, z);
    OnlyIsEmptyIff(h[0].zones, z);
  }

  /** So does DHW data. */
  lemma ExpiredDhwStaysPublished(h: seq<Event>, was: Fields)
    requires ThreeGaps(h) && h[0].dhw == Some(was)
    ensures Run(h).data.Some? && Run(h).data.value.dhw == Some(was) && DhwEntry(h) == None
  {
    assert h[..4] == h;
    GapsCount(h, "", 4);
    ThreeGapsFail(h, "");
  }

  /** The next event of `a` brings `b` back although three polls missed it; it stays marked as stale. */
  lemma AnExpiredSiblingCanComeBack(h: seq<Event>, a: string, b: string, fields: Fields)
    requires ThreeGaps(h) && b in Ids(h[0].zones) && a != b
    ensures var h' := h + [ZoneUpdate(Some(a), fields)];
            && b in Ids(Run(h').lastZones) && Gaps(h', b) == 3
            && b in Run(h').stale && !Run(h').lastUpdateSuccess
  {
    var e := ZoneUpdate(Some(a), fields);
    assert h[..4] == h;
    GapsCount(h, b, 4);
    ThreeGapsFail(h, b);
    OnlyIsEmptyIff(h[0].zones, b);
    OnlyIsEmptyIff(Run(h).data.value.zones, b);
    FoldEnds(Step, START, h, e);
    NamingASiblingShowsAll(Run(h), a, b, fields);
    SiblingStep(h, e, b);
    StaleIffMissed(h + [e], b);
  }

  lemma NamingASiblingShowsAll(c: Cache, a: string, b: string, fields: Fields)
    requires c.data.Some? && b in Ids(c.data.value.zones)
    ensures var later := Step(c, ZoneUpdate(Some(a), fields));
            b in Ids(later.lastZones) && later.lastUpdateSuccess == c.lastUpdateSuccess
  {
    IdsAfterMerge(c.data.value.zones, Some(a), fields);
  }

  /** `z` is published and retained as `item` alone, and not stale. */
  predicate HoldsFresh(c: Cache, z: string, item: Item) {
    && c.data.Some? && c.data.value.zones == c.lastZones && Only(c.lastZones, z) == [item]
    && GapOf(c, z) == 0 && z !in c.stale
  }

  lemma NamingApplies(c: Cache, z: string, fields: Fields)
    requires c.data.Some?
    ensures var later := Step(c, ZoneUpdate(Some(z), fields));
            && later.lastZones == MergeZoneUpdate(c.data.value.zones, Some(z), fields)
            && later.data.Some? && later.data.value.zones == later.lastZones
            && GapOf(later, z) == 0 && z !in later.stale && later.lastUpdateSuccess == c.lastUpdateSuccess
  {
  }

  lemma NamingMerges(c: Cache, z: string, was: Fields, fields: Fields)
    requires c.data.Some? && Only(c.data.value.zones, z) == [Zone(Some(z), was)]
    ensures var later := Step(c, ZoneUpdate(Some(z), fields));
            && HoldsFresh(later, z, Zone(Some(z), MergeDicts(was, fields)))
            && later.lastUpdateSuccess == c.lastUpdateSuccess
  {
    NamingApplies(c, z, fields);
    OnlyOfZoneUpdate(c.data.value.zones, z, fields, z);
    MergeOneAlone(z, was, fields);
  }

  lemma MergeOneAlone(z: string, was: Fields, fields: Fields)
    ensures MergeAll([Zone(Some(z), was)], z, fields) == [Zone(Some(z), MergeDicts(was, fields))]
  {
    assert MergeOne(Zone(Some(z), was), z, fields) == Zone(Some(z), MergeDicts(was, fields));
  }

  lemma NamingAfterExpiry(h: seq<Event>, z: string, fields: Fields)
    requires Published(h) && Entries(h, z) == []
    ensures Entries(h + [ZoneUpdate(Some(z), fields)], z) == [Zone(Some(z), fields)]
  {
    assert Before(h + [ZoneUpdate(Some(z), fields)]) == h;
  }

  /** The next event of `a` itself brings back each field of its expired entry that it does not give, unmarked. */
  lemma ExpiredFieldsComeBack(h: seq<Event>, a: string, was: Fields, fields: Fields)
    requires ThreeGaps(h) && Only(h[0].zones, a) == [Zone(Some(a), was)] && !Covers(was, fields)
    ensures var h' := h + [ZoneUpdate(Some(a), fields)];
            && Entries(h', a) == [Zone(Some(a), fields)] != [Zone(Some(a), MergeDicts(was, fields))]
            && HoldsFresh(Run(h'), a, Zone(Some(a), MergeDicts(was, fields)))
  {
    assert h[..4] == h;
    GapsCount(h, a, 4);
    ThreeGapsFail(h, a);
    FoldEnds(Step, START, h, ZoneUpdate(Some(a), fields));
    NamingMerges(Run(h), a, was, fields);
    NamingAfterExpiry(h, a, fields);
    MergeKeepsNothingIff(was, fields);
  }

  lemma PollKeepsPublished(c: Cache, z: string, item: Item)
    requires HoldsFresh(c, z, item)
    ensures var later := Step(c, Poll([], None));
            later.lastUpdateSuccess && later.data.Some? && Only(later.data.value.zones, z) == [item]
  {
    OnlyOfKept(c, Ids([]), c.lastZones, z);
    assert [] + Kept(c, Ids([]), c.lastZones) == Kept(c, Ids([]), c.lastZones);
  }

  /** And with one more poll and one more event of `a` they are served as fresh by a coordinator that reports success. */
  lemma ExpiredFieldsAreServedAsFresh(h: seq<Event>, a: string, was: Fields, fields: Fields)
    requires ThreeGaps(h) && Only(h[0].zones, a) == [Zone(Some(a), was)] && !Covers(was, fields)
    ensures var h' := h + [ZoneUpdate(Some(a), fields)] + [Poll([], None)] + [ZoneUpdate(Some(a), fields)];
            && HoldsFresh(Run(h'), a, Zone(Some(a), MergeDicts(was, fields))) && MergeDicts(was, fields) != fields
            && Run(h').lastUpdateSuccess
  {
    var e, p := ZoneUpdate(Some(a), fields), Poll([], None);
    var merged := MergeDicts(was, fields);
    ExpiredFieldsComeBack(h, a, was, fields);
    FoldEnds(Step, START, h + [e], p);
    PollKeepsPublished(Run(h + [e]), a, Zone(Some(a), merged));
    FoldEnds(Step, START, h + [e] + [p], e);
    NamingMerges(Run(h + [e] + [p]), a, merged, fields);
    MergeIsIdempotent(was, fields);
  }

  /** The next DHW event brings back each expired field that it does not give, and marks the whole as fresh. */
  lemma ExpiredDhwComesBackFresh(h: seq<Event>, was: Fields, fields: Fields)
    requires ThreeGaps(h) && h[0].dhw == Some(was) && !Covers(was, fields)
    ensures var h' := h + [DhwUpdate(Some(fields))];
            && DhwEntry(h') == Some(fields) && !Run(h').dhwStale
            && Run(h').lastDhw == Some(MergeDicts(was, fields)) != DhwEntry(h')
  {
    var e := DhwUpdate(Some(fields));
    assert h[..4] == h && Before(h + [e]) == h;
    GapsCount(h, "", 4);
    ThreeGapsFail(h, "");
    FoldEnds(Step, START, h, e);
    MergeKeepsNothingIff(was, fields);
  }
}

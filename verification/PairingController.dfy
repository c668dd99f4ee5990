/**
  The clients of the shared broker: the pairing flow's controller, the connect and
  close services, and the status poll.

  At every await the other clients may do anything: each method takes, for each of
  its awaits, the calls the others make meanwhile, and its contract holds for all of
  them.
 */
module PairingController {
  import opened Prelude
  import opened ActionBroker

  /** One answer of the gateway's status view. */
  datatype Fetch = Status(revision: int, active: Active) | FetchFailed

  /** What happens in one round of the poll: others' calls during the fetch, its answer, others' calls during the sleep. */
  datatype Round = Round(meanwhile: seq<Call>, fetch: Fetch, asleep: seq<Call>)

  /** The answer to a connect request: refused, or accepted with an action id that may be missing. */
  datatype ConnectAnswer = Connected(revision: int, actionId: Option<string>) | ConnectFailed

  datatype Close = Closed(revision: int, replayed: bool) | CloseFailed

  datatype Poll = Nothing | Terminal(doc: Document) | Pending(doc: Document) | PollRaised

  /** A snapshot a client holds: if it is still current, it is exact and holds no reservation. */
  predicate Faithful(s: Snapshot, b: Broker) {
    s.generation <= b.generation && (s.generation == b.generation ==> s.actionId == b.actionId && b.reservation == None)
  }

  /** What a status answer leaves behind: a snapshot it was asked under stays current only if the answer fits it. */
  predicate Fits(s: Snapshot, active: Active, c: Broker) {
    c.generation == s.generation ==>
      && active != NotARecord
      && (active.Record? ==> active.doc.actionId == s.actionId && (active.doc.terminal ==> c.terminal.Some?))
  }

  lemma ReportsFit(env: Env, b: Broker, s: Snapshot, active: Active)
    requires Valid(b) && s.actionId != None && Faithful(s, b)
    ensures var c := Observe(env, b, active, Some(s)).0;
            Fits(s, active, c) && Valid(c) && Later(b, c)
  {
    ApplyIsLater(env, b, Report(active, Some(s)));
    ApplyKeepsValid(env, b, Report(active, Some(s)));
  }

  /** The held action's time does not run out. */
  ghost predicate Timely(env: Env, b: Broker) { b.actionId.Some? && forall n | n >= b.ticks :: env.clock(n) < b.expiresAt }

  /** Nothing but readings of the clock happened. */
  predicate OnlyRead(b: Broker, c: Broker) { b.ticks <= c.ticks && c == b.(ticks := c.ticks) }

  /** A round in which nobody else acts and the answer is about the action. */
  predicate Quiet(round: Round, id: string) {
    round.meanwhile == [] && round.asleep == [] && round.fetch.Status? && Names(round.fetch.active, Some(id))
  }

  datatype ConnectResult = BadPin | ObservationStale | Refused | Accepted

  predicate ValidPin(pin: string) {
    8 <= |pin| <= 16 && forall c :: c in pin ==> '0' <= c <= '9' || 'a' <= c <= 'f' || 'A' <= c <= 'F'
  }

  /** What a connect does to the broker while others make `meanwhile`; second, whether its action was accepted. */
  function ConnectEffect(env: Env, b: Broker, meanwhile: seq<Call>, answer: ConnectAnswer): (Broker, bool) {
    var (b1, reserved) := ReserveConnect(env, b);
    if reserved.Raised? then (b1, false)
    else
      var b2 := Run(env, b1, meanwhile);
      if answer.Connected? && answer.actionId.Some? && FinalizeConnect(env, b2, reserved.value, answer.actionId.value).1.Ok?
      then (FinalizeConnect(env, b2, reserved.value, answer.actionId.value).0, true)
      else (ReleaseConnect(b2, reserved.value).0, false)
  }

  /**
    A connect never leaves its reservation behind, and is accepted exactly when nobody took the reservation
    away while the gateway was answering with a well-formed id.
   */
  lemma ConnectsNeverLeak(env: Env, b: Broker, meanwhile: seq<Call>, answer: ConnectAnswer)
    requires Valid(b)
    ensures var (c, accepted) := ConnectEffect(env, b, meanwhile, answer);
            var (b1, reserved) := ReserveConnect(env, b);
            && (reserved.Ok? ==> Retired(c, reserved.value))
            && (reserved.Raised? ==> c == Prune(env, b))
            && (accepted <==>
                  && reserved.Ok? && answer.Connected? && answer.actionId.Some? && ValidActionId(answer.actionId.value)
                  && Run(env, b1, meanwhile).reservation == Some(reserved.value))
            && (accepted ==> c.actionId == answer.actionId && c.reservation == None)
            && Valid(c)
  {
    var (b1, reserved) := ReserveConnect(env, b);
    if reserved.Ok? {
      RunIsLater(env, b1, meanwhile);
      ApplyKeepsValid(env, b, Reserve);
      RunKeepsValid(env, b1, meanwhile);
      var b2 := Run(env, b1, meanwhile);
      if answer.Connected? && answer.actionId.Some? {
        ApplyKeepsValid(env, b2, Finalize(reserved.value, answer.actionId.value));
      }
      ApplyKeepsValid(env, b2, Release(reserved.value));
    }
  }

  /** The gateway accepted, and its id is well-formed. */
  predicate Accepts(answer: ConnectAnswer) {
    answer.Connected? && answer.actionId.Some? && ValidActionId(answer.actionId.value)
  }

  /** With nobody else acting, a connect is accepted exactly if the broker is free and the gateway accepts. */
  lemma AConnectIsAcceptedIff(env: Env, b: Broker, answer: ConnectAnswer)
    requires Valid(b)
    ensures ConnectEffect(env, b, [], answer).1 <==> Free(env, b) && Accepts(answer)
  {
    ReservesIff(env, b);
    ConnectsNeverLeak(env, b, [], answer);
  }

  /** A connect that fails with its reservation still held leaves the broker free, whatever others did meanwhile. */
  lemma FailedConnectsLeaveFree(env: Env, b: Broker, meanwhile: seq<Call>, answer: ConnectAnswer)
    requires Valid(b) && Free(env, b) && !Accepts(answer)
    requires var (b1, reserved) := ReserveConnect(env, b);
             reserved.Ok? ==> Run(env, b1, meanwhile).reservation == Some(reserved.value)
    ensures Free(env, ConnectEffect(env, b, meanwhile, answer).0)
  {
    ReservesIff(env, b);
    var (b1, reserved) := ReserveConnect(env, b);
    ApplyKeepsValid(env, b, Reserve);
    RunKeepsValid(env, b1, meanwhile);
    EndsFree(env, Run(env, b1, meanwhile), reserved.value, None, None, "");
  }

  /** After any number of failed connects the next one is accepted if the gateway accepts. */
  lemma {:induction false} ConnectsCanBeRetried(env: Env, b: Broker, failures: seq<ConnectAnswer>, answer: ConnectAnswer)
    requires Valid(b) && Free(env, b) && Accepts(answer) && forall f | f in failures :: !Accepts(f)
    ensures ConnectEffect(env, Failing(env, b, failures), [], answer).1
    decreases |failures|
  {
    if failures == [] {
      AConnectIsAcceptedIff(env, b, answer);
    } else {
      FailedConnectsLeaveFree(env, b, [], failures[0]);
      ConnectsNeverLeak(env, b, [], failures[0]);
      ConnectsCanBeRetried(env, ConnectEffect(env, b, [], failures[0]).0, failures[1..], answer);
    }
  }

  function Failing(env: Env, b: Broker, failures: seq<ConnectAnswer>): Broker
    decreases |failures|
  {
    if failures == [] then b else Failing(env, ConnectEffect(env, b, [], failures[0]).0, failures[1..])
  }

  lemma ConnectIsLater(env: Env, b: Broker, meanwhile: seq<Call>, answer: ConnectAnswer)
    ensures Later(b, ConnectEffect(env, b, meanwhile, answer).0)
  {
    var (b1, reserved) := ReserveConnect(env, b);
    ApplyIsLater(env, b, Reserve);
    if reserved.Ok? {
      RunIsLater(env, b1, meanwhile);
      var b2 := Run(env, b1, meanwhile);
      if answer.Connected? && answer.actionId.Some? {
        ApplyIsLater(env, b2, Finalize(reserved.value, answer.actionId.value));
      }
      ApplyIsLater(env, b2, Release(reserved.value));
    }
  }

  /** Clearing under a faithful snapshot takes that snapshot's action, or nothing. */
  lemma OwnActionOnly(env: Env, b: Broker, owned: Snapshot)
    requires Faithful(owned, b)
    ensures var c := Clear(env, b, None, Some(owned)).0;
            (owned.generation != b.generation && OnlyAged(env, b, c))
            || (owned.actionId == b.actionId && b.reservation == None && c.actionId == None)
  {
    assert b.actionId != None && env.clock(b.ticks) >= b.expiresAt ==> OnlyAged(env, b, Prune(env, b));
  }

  /** The gateway took the connect and named its action, well-formed or not. */
  predicate Identified(answer: ConnectAnswer) { answer.Connected? && answer.actionId.Some? && answer.actionId.value != "" }

  /** The revision a flow knows after a connect. */
  function RevisionAfter(env: Env, b: Broker, answer: ConnectAnswer, before: Option<int>): Option<int> {
    if ReserveConnect(env, b).1.Ok? && Identified(answer) then Some(answer.revision) else before
  }

  /** The broker after a flow has given up what it owns. */
  function Forgotten(env: Env, b: Broker, owned: Option<Snapshot>): Broker {
    if owned.Some? then Clear(env, b, None, owned).0 else b
  }

  /** The first round whose answer is terminal. */
  function FirstTerminal(rounds: seq<Round>): (k: Option<nat>)
    ensures k.Some? ==> k.value < |rounds| && EndsIt(rounds[k.value])
  {
    if rounds == [] then None
    else
      var n := |rounds| - 1;
      var before := FirstTerminal(rounds[..n]);
      if before.Some? then before else if EndsIt(rounds[n]) then Some(n) else None
  }

  /** What the answer of a round says of an action. */
  function Said(round: Round): Option<Document> {
    if round.fetch.Status? && round.fetch.active.Record? then Some(round.fetch.active.doc) else None
  }

  /** Nobody else acts during the first `n` rounds, all answers are about the action, and its time does not run out. */
  ghost predicate QuietPoll(env: Env, b: Broker, id: string, rounds: seq<Round>, n: nat) {
    && Timely(env, b) && b.actionId == Some(id) && b.terminal.None?
    && n <= |rounds| && forall i | 0 <= i < n :: Quiet(rounds[i], id)
  }

  /** A quiet poll ends with the first terminal answer, or after its last attempt with what that says. */
  predicate Delivers(rounds: seq<Round>, n: nat, result: Poll, fetches: nat)
    requires 1 <= n <= |rounds|
  {
    var k := FirstTerminal(rounds[..n]);
    if k.Some? then result.Terminal? && Some(result.doc) == Said(rounds[k.value]) && fetches == k.value + 1
    else result.Pending? && Some(result.doc) == Said(rounds[n - 1]) && fetches == n
  }

  /** One quiet attempt: the stored or reported terminal is delivered; without one the answer is pending, the action held. */
  predicate Answers(before: Broker, active: Active, result: Poll, after: Broker) {
    match TerminalAfter(before, active)
    case Some(doc) => result == Terminal(doc)
    case None => active.Record? && result == Pending(active.doc) && OnlyRead(before, after)
  }

  /** What a poll's result says of the broker, given the last round that answered. */
  predicate PollFits(before: Broker, after: Broker, id: string, last: Option<Round>, result: Poll) {
    match result
    case Nothing =>
      || before.actionId != Some(id) || after.generation > before.generation
      || (last.Some? && last.value.fetch.Status? && !last.value.fetch.active.Record?)
    case PollRaised => true
    case Terminal(doc) =>
      && doc.terminal && doc.actionId == Some(id)
      && after.actionId == None && after.terminal == None && after.generation > before.generation
    case Pending(doc) => !doc.terminal && doc.actionId == Some(id) == after.actionId
  }

  predicate EndsIt(round: Round) { Said(round).Some? && Said(round).value.terminal }

  /** A terminal answer is the first one as soon as none came before it, whatever comes later. */
  lemma {:induction false} FirstTerminalGrows(rounds: seq<Round>, k: nat, n: nat)
    requires k < n <= |rounds| && FirstTerminal(rounds[..k]).None?
    ensures FirstTerminal(rounds[..k + 1]) == if EndsIt(rounds[k]) then Some(k) else None
    ensures EndsIt(rounds[k]) ==> FirstTerminal(rounds[..n]) == Some(k)
    decreases n
  {
    assert rounds[..k + 1][..k] == rounds[..k];
    if EndsIt(rounds[k]) && n > k + 1 {
      FirstTerminalGrows(rounds, k, n - 1);
      assert rounds[..n][..n - 1] == rounds[..n - 1];
    }
  }

  class EEBusPairingController {
    const broker: EEBusActionTerminalBroker
    var stateRevision: Option<int>
    var selection: Option<(string, int)>
    var ownedAction: Option<Snapshot>

    predicate Consistent()
      reads this, broker
    {
      Valid(broker.State()) && (ownedAction.Some? ==> Faithful(ownedAction.value, broker.State()))
    }

    constructor (broker: EEBusActionTerminalBroker)
      requires Valid(broker.State())
      ensures this.broker == broker && stateRevision == None && selection == None && ownedAction == None
      ensures Consistent()
    {
      this.broker := broker;
      stateRevision, selection, ownedAction := None, None, None;
    }

    /** Everybody else's turn. */
    method Yield(calls: seq<Call>)
      requires Consistent()
      modifies broker
      ensures Consistent() && Later(old(broker.State()), broker.State())
      ensures broker.State() == Run(broker.env, old(broker.State()), calls)
      ensures calls == [] ==> broker.State() == old(broker.State())
    {
      RunKeepsValid(broker.env, broker.State(), calls);
      RunIsLater(broker.env, broker.State(), calls);
      broker.Perform(calls);
    }

    method SyncOwnedAction()
      requires Consistent()
      modifies this`ownedAction, broker
      ensures Consistent()
      ensures Later(old(broker.State()), broker.State())
      ensures ownedAction == if old(ownedAction).Some? && old(ownedAction).value.generation == broker.generation
                             then old(ownedAction) else None
      ensures Timely(broker.env, old(broker.State())) ==> OnlyRead(old(broker.State()), broker.State())
    {
      if ownedAction != None {
        ApplyIsLater(broker.env, broker.State(), Look);
        var current := broker.CheckCurrent(ownedAction.value);
        if !current { ownedAction := None; }
      }
    }

    method DropOwnedAction(id: string)
      modifies this`ownedAction
      ensures ownedAction == if old(ownedAction) != None && old(ownedAction).value.actionId == Some(id)
                             then None else old(ownedAction)
    {
      if ownedAction != None && ownedAction.value.actionId == Some(id) { ownedAction := None; }
    }

    // The broker's operations, seen from a client: what it can rely on afterwards.

    method Snap() returns (s: Snapshot)
      requires Consistent()
      modifies broker
      ensures Consistent() && Later(old(broker.State()), broker.State())
      ensures s.generation == broker.generation && s.actionId == broker.actionId
      ensures s.actionId == Prune(broker.env, old(broker.State())).actionId
      ensures Timely(broker.env, old(broker.State())) ==> OnlyRead(old(broker.State()), broker.State())
    {
      ApplyIsLater(broker.env, broker.State(), Look);
      s := broker.TakeSnapshot();
    }

    method StillCurrent(s: Snapshot) returns (current: bool)
      requires Consistent()
      modifies broker
      ensures Consistent() && Later(old(broker.State()), broker.State())
      ensures current <==> s.generation == broker.generation
      ensures Timely(broker.env, old(broker.State())) ==> OnlyRead(old(broker.State()), broker.State())
    {
      ApplyIsLater(broker.env, broker.State(), Look);
      current := broker.CheckCurrent(s);
    }

    method TakeReport(s: Snapshot, active: Active)
      requires Consistent() && Faithful(s, broker.State()) && s.actionId != None
      modifies broker
      ensures Consistent() && Later(old(broker.State()), broker.State())
      ensures Fits(s, active, broker.State())
      ensures Timely(broker.env, old(broker.State())) && s.generation == old(broker.generation)
              && Names(active, old(broker.actionId)) ==>
                var b := old(broker.State());
                b.ticks <= broker.ticks
                && broker.State() == b.(ticks := broker.ticks, terminal := TerminalAfter(b, active))
    {
      if Timely(broker.env, broker.State()) && s.generation == broker.generation {
        CurrentReports(broker.env, broker.State(), active, Some(s));
      }
      ReportsFit(broker.env, broker.State(), s, active);
      var _ := broker.NoteStatus(active, Some(s));
    }

    /** `consume_terminal` under a snapshot just found current. */
    method TakeTerminal(id: string, s: Snapshot) returns (doc: Option<Document>)
      requires Consistent() && s.generation == broker.generation
      modifies broker
      ensures Consistent() && Later(old(broker.State()), broker.State())
      ensures doc.Some? ==> doc == old(broker.terminal) && doc.value.terminal && doc.value.actionId == Some(id)
                            && broker.actionId == None && broker.terminal == None
                            && broker.generation > old(broker.generation)
      ensures doc == None && old(broker.actionId) == Some(id) && old(broker.terminal).Some? ==> broker.actionId == None
      ensures Timely(broker.env, old(broker.State())) && old(broker.actionId) == Some(id) ==>
                doc == old(broker.terminal) && (doc == None ==> OnlyRead(old(broker.State()), broker.State()))
    {
      ConsumedExactlyAndInTime(broker.env, broker.State(), id, Some(s));
      ApplyIsLater(broker.env, broker.State(), Consume(id, Some(s)));
      ApplyKeepsValid(broker.env, broker.State(), Consume(id, Some(s)));
      doc := broker.HandOutTerminal(id, Some(s));
    }

    /** The rest of a status refresh, once the answer is there. */
    method TakeStatus(s: Snapshot, revision: int, active: Active)
      requires Consistent() && Faithful(s, broker.State()) && s.actionId != None
      modifies this`ownedAction, this`stateRevision, broker
      ensures Consistent() && Later(old(broker.State()), broker.State())
      ensures Fits(s, active, broker.State())
      ensures broker.generation == s.generation ==> stateRevision == Some(revision)
      ensures Timely(broker.env, old(broker.State())) && s.generation == old(broker.generation)
              && Names(active, old(broker.actionId)) ==>
                var b := old(broker.State());
                b.ticks <= broker.ticks
                && broker.State() == b.(ticks := broker.ticks, terminal := TerminalAfter(b, active))
    {
      var current := StillCurrent(s);
      if current { stateRevision := Some(revision); }
      TakeReport(s, active);
      SyncOwnedAction();
    }

    /** What one attempt makes of the answer it fetched under `request`. */
    method TakeAnswer(id: string, request: Snapshot, revision: int, active: Active) returns (result: Poll)
      requires Consistent() && request.actionId == Some(id) && Faithful(request, broker.State())
      modifies this`ownedAction, this`stateRevision, broker
      ensures Consistent() && Later(old(broker.State()), broker.State())
      ensures match result
              case Nothing => broker.generation > request.generation || !active.Record?
              case PollRaised => false
              case Terminal(doc) =>
                && doc.terminal && doc.actionId == Some(id)
                && broker.actionId == None && broker.terminal == None && broker.generation > request.generation
              case Pending(doc) => !doc.terminal && doc.actionId == Some(id) == broker.actionId
      ensures Timely(broker.env, old(broker.State())) && request.generation == old(broker.generation)
              && Names(active, Some(id)) ==>
                Answers(old(broker.State()), active, result, broker.State())
    {
      TakeStatus(request, revision, active);
      var current := StillCurrent(request);
      if !current {
        SyncOwnedAction();
        return Nothing;
      }
      var cached := TakeTerminal(id, request);
      if cached != None {
        DropOwnedAction(id);
        return Terminal(cached.value);
      }
      if !active.Record? { return Nothing; }
      var now := Snap();
      if now.actionId != Some(id) {
        DropOwnedAction(id);
        return Nothing;
      }
      return Pending(active.doc);
    }

    /** One attempt of the poll: `Pending` asks for another one.  Without a round the poll is cancelled at its fetch. */
    method PollOnce(id: string, round: Option<Round>) returns (result: Poll, fetched: bool)
      requires Consistent()
      modifies this`ownedAction, this`stateRevision, broker
      ensures Consistent() && Later(old(broker.State()), broker.State())
      ensures fetched ==> round.Some?
      ensures match result
              case Nothing =>
                || old(broker.actionId) != Some(id) || broker.generation > old(broker.generation)
                || (fetched && round.value.fetch.Status? && !round.value.fetch.active.Record?)
              case PollRaised => round.None? || (fetched && round.value.fetch.FetchFailed?)
              case Terminal(doc) =>
                && doc.terminal && doc.actionId == Some(id)
                && broker.actionId == None && broker.terminal == None && broker.generation > old(broker.generation)
              case Pending(doc) => fetched && !doc.terminal && doc.actionId == Some(id) == broker.actionId
      ensures Timely(broker.env, old(broker.State())) && old(broker.actionId) == Some(id)
              && round.Some? && Quiet(round.value, id) ==>
                fetched && Answers(old(broker.State()), round.value.fetch.active, result, broker.State())
    {
      fetched := false;
      var request := Snap();
      if request.actionId != Some(id) {
        SyncOwnedAction();
        return Nothing, fetched;
      }
      if round == None { return PollRaised, fetched; }
      fetched := true;
      Yield(round.value.meanwhile);
      if round.value.fetch.FetchFailed? { return PollRaised, fetched; }
      result := TakeAnswer(id, request, round.value.fetch.revision, round.value.fetch.active);
    }

    /** The attempts of a poll of the action `id`. */
    method PollRounds(id: string, maxAttempts: nat, rounds: seq<Round>) returns (result: Poll, fetches: nat)
      requires Consistent() && maxAttempts >= 1
      modifies this`ownedAction, this`stateRevision, broker
      ensures Consistent() && Later(old(broker.State()), broker.State())
      ensures fetches <= maxAttempts && fetches <= |rounds|
      ensures var last := if fetches == 0 then None else Some(rounds[fetches - 1]);
              PollFits(old(broker.State()), broker.State(), id, last, result)
      ensures result.PollRaised? ==> fetches == |rounds| || (1 <= fetches && rounds[fetches - 1].fetch.FetchFailed?)
      ensures result.Pending? ==> fetches == maxAttempts
      ensures QuietPoll(broker.env, old(broker.State()), id, rounds, maxAttempts) ==>
                Delivers(rounds, maxAttempts, result, fetches)
    {
      result, fetches := Nothing, 0;
      ghost var quiet := QuietPoll(broker.env, broker.State(), id, rounds, maxAttempts);
      var attempt := 0;
      while attempt < maxAttempts
        invariant 0 <= attempt <= maxAttempts && fetches == attempt <= |rounds|
        invariant Consistent() && Later(old(broker.State()), broker.State())
        invariant broker.actionId != Some(id) ==>
          old(broker.actionId) != Some(id) || old(broker.generation) < broker.generation
        invariant attempt == maxAttempts ==>
          result.Pending? && !result.doc.terminal && result.doc.actionId == Some(id) == broker.actionId
        invariant quiet ==> OnlyRead(old(broker.State()), broker.State()) && FirstTerminal(rounds[..attempt]).None?
        invariant quiet && attempt > 0 ==> result.Pending? && Said(rounds[attempt - 1]) == Some(result.doc)
      {
        var fetched;
        result, fetched := PollOnce(id, if attempt < |rounds| then Some(rounds[attempt]) else None);
        if fetched { fetches := fetches + 1; }
        if quiet { FirstTerminalGrows(rounds, attempt, maxAttempts); }
        if !result.Pending? { return; }
        if attempt + 1 < maxAttempts { Yield(rounds[attempt].asleep); }
        attempt := attempt + 1;
      }
    }

    /**
      Poll the held action.  `rounds` is what the awaits bring; when it runs out, the poll is cancelled there.
     */
    method PollActiveAction(maxAttempts: int, interval: real, rounds: seq<Round>) returns (result: Poll, fetches: nat)
      requires Consistent()
      modifies this`ownedAction, this`stateRevision, broker
      ensures Consistent()
      ensures 0 <= fetches <= if 1 <= maxAttempts <= 20 then maxAttempts else 0
      ensures var held := Prune(broker.env, old(broker.State())).actionId;
              match result
              case Nothing =>
                || held == None || broker.generation > old(broker.generation)
                || (1 <= fetches <= |rounds|
                    && rounds[fetches - 1].fetch.Status? && !rounds[fetches - 1].fetch.active.Record?)
              case PollRaised =>
                || !(1 <= maxAttempts <= 20 && 0.0 <= interval <= 5.0)
                || fetches == |rounds|
                || (1 <= fetches <= |rounds| && rounds[fetches - 1].fetch.FetchFailed?)
              case Terminal(doc) =>
                && doc.terminal && doc.actionId == held && held.Some?
                && broker.actionId == None && broker.terminal == None && broker.generation > old(broker.generation)
              case Pending(doc) =>
                !doc.terminal && doc.actionId == held == broker.actionId && held.Some? && fetches == maxAttempts
      ensures 1 <= maxAttempts <= 20 && 0.0 <= interval <= 5.0 && Prune(broker.env, old(broker.State())).actionId == None
              ==> result == Nothing && fetches == 0 && ownedAction == None
      ensures 1 <= maxAttempts <= 20 && 0.0 <= interval <= 5.0 && Timely(broker.env, old(broker.State())) ==>
                && (old(broker.terminal).Some? ==> result == Terminal(old(broker.terminal).value) && fetches == 0)
                && (QuietPoll(broker.env, old(broker.State()), old(broker.actionId).value, rounds, maxAttempts) ==>
                      Delivers(rounds, maxAttempts, result, fetches))
    {
      fetches := 0;
      if !(1 <= maxAttempts <= 20) { return PollRaised, 0; }
      if !(0.0 <= interval <= 5.0) { return PollRaised, 0; }
      var initial := Snap();
      if initial.actionId == None {
        ownedAction := None;
        return Nothing, 0;
      }
      var id := initial.actionId.value;
      var cached := TakeTerminal(id, initial);
      if cached != None {
        DropOwnedAction(id);
        return Terminal(cached.value), 0;
      }
      result, fetches := PollRounds(id, maxAttempts, rounds);
    }

    /** Reserve, ask the gateway, finalize or release. */
    method Connect(meanwhile: seq<Call>, answer: ConnectAnswer) returns (accepted: bool)
      requires Consistent()
      modifies this`stateRevision, this`ownedAction, broker
      ensures Consistent()
      ensures var b := old(broker.State());
              var (c, finalized) := ConnectEffect(broker.env, b, meanwhile, answer);
              && accepted == finalized
              && stateRevision == RevisionAfter(broker.env, b, answer, old(stateRevision))
              && (accepted ==> broker.State() == Prune(broker.env, c)
                               && ownedAction == Some(Snapshot(broker.generation, broker.actionId)))
              && (!accepted ==> broker.State() == c && ownedAction == old(ownedAction))
      ensures accepted ==> answer.Connected? && stateRevision == Some(answer.revision)
      ensures answer.ConnectFailed? ==> stateRevision == old(stateRevision)
    {
      ConnectsNeverLeak(broker.env, broker.State(), meanwhile, answer);
      ConnectIsLater(broker.env, broker.State(), meanwhile, answer);
      accepted := false;
      var reservation := broker.BeginReservation();
      if reservation.Raised? { return; }
      broker.Perform(meanwhile);
      if Identified(answer) {
        stateRevision := Some(answer.revision);
        var result := broker.CompleteReservation(reservation.value, answer.actionId.value);
        accepted := result.Ok?;
      }
      if accepted {
        var s := broker.TakeSnapshot();
        ownedAction := Some(s);
      } else {
        var _ := broker.GiveUpReservation(reservation.value);
      }
    }

    method ConnectSelection(pin: Option<string>, meanwhile: seq<Call>, answer: ConnectAnswer) returns (r: ConnectResult)
      requires Consistent()
      modifies this, broker
      ensures Consistent() && selection == if r == BadPin then old(selection) else None
      ensures r == BadPin <==> pin.Some? && !ValidPin(pin.value)
      ensures r == ObservationStale <==> r != BadPin && old(selection) == None
      ensures r in {BadPin, ObservationStale} ==>
                && broker.State() == old(broker.State())
                && stateRevision == old(stateRevision) && ownedAction == old(ownedAction)
      ensures r !in {BadPin, ObservationStale} ==>
                var b := old(broker.State());
                var (c, accepted) := ConnectEffect(broker.env, b, meanwhile, answer);
                && (r == Accepted <==> accepted)
                && stateRevision == RevisionAfter(broker.env, b, answer, old(stateRevision))
                && (accepted ==> broker.State() == Prune(broker.env, c)
                                 && ownedAction == Some(Snapshot(broker.generation, broker.actionId)))
                && (!accepted ==> broker.State() == c && ownedAction == old(ownedAction))
    {
      if pin.Some? && !ValidPin(pin.value) { return BadPin; }
      if selection == None { return ObservationStale; }
      var accepted := Connect(meanwhile, answer);
      selection := None;
      return if accepted then Accepted else Refused;
    }

    method ClosePairingWindow(meanwhile: seq<Call>, answer: Close)
      requires Consistent()
      modifies this, broker
      ensures Consistent()
      ensures old(stateRevision) == None ==>
                broker.State() == old(broker.State()) && stateRevision == None && ownedAction == old(ownedAction)
                && selection == old(selection)
      ensures old(stateRevision).Some? ==>
                var (b1, s) := Capture(broker.env, old(broker.State()));
                var b2 := Run(broker.env, b1, meanwhile);
                match answer
                case CloseFailed =>
                  broker.State() == b2 && ownedAction == old(ownedAction) && stateRevision == old(stateRevision)
                case Closed(revision, replayed) =>
                  && stateRevision == Some(revision)
                  && (replayed ==> broker.State() == b2 && ownedAction == old(ownedAction) && selection == old(selection))
                  && (!replayed ==>
                        && broker.State() == Forgotten(broker.env, Clear(broker.env, b2, None, Some(s)).0, old(ownedAction))
                        && ownedAction == None && selection == None)
    {
      if stateRevision == None { return; }
      ApplyIsLater(broker.env, broker.State(), Look);
      var s := broker.TakeSnapshot();
      Yield(meanwhile);
      if answer.CloseFailed? { return; }
      stateRevision := Some(answer.revision);
      if !answer.replayed {
        ApplyIsLater(broker.env, broker.State(), Drop(None, Some(s)));
        ApplyKeepsValid(broker.env, broker.State(), Drop(None, Some(s)));
        var _ := broker.ClearAction(None, Some(s));
        ClearActionState();
      }
    }

    /** Forget this flow's selection, and its own action if it still is the broker's. */
    method ClearActionState()
      requires Consistent()
      modifies this`selection, this`ownedAction, broker
      ensures Consistent() && ownedAction == None && selection == None
      ensures broker.State() == Forgotten(broker.env, old(broker.State()), old(ownedAction))
      ensures old(ownedAction).Some? ==>
                var b := old(broker.State());
                var owned := old(ownedAction).value;
                (owned.generation != b.generation && OnlyAged(broker.env, b, broker.State()))
                || (owned.actionId == b.actionId && b.reservation == None && broker.actionId == None)
    {
      selection := None;
      var owned := ownedAction;
      ownedAction := None;
      if owned != None {
        OwnActionOnly(broker.env, broker.State(), owned.value);
        ApplyKeepsValid(broker.env, broker.State(), Drop(None, owned));
        var _ := broker.ClearAction(None, owned);
      }
    }

    method Abort()
      requires Consistent()
      modifies this, broker
      ensures Consistent() && ownedAction == None && selection == None && stateRevision == None
      ensures broker.State() == Forgotten(broker.env, old(broker.State()), old(ownedAction))
      ensures old(ownedAction).Some? ==>
                var b := old(broker.State());
                var owned := old(ownedAction).value;
                (owned.generation != b.generation && OnlyAged(broker.env, b, broker.State()))
                || (owned.actionId == b.actionId && b.reservation == None && broker.actionId == None)
    {
      ClearActionState();
      stateRevision := None;
    }
  }

  /** The admin services share the broker, with no controller state of their own. */
  class EEBusAdminServices {
    const broker: EEBusActionTerminalBroker

    constructor (broker: EEBusActionTerminalBroker)
      ensures this.broker == broker
    {
      this.broker := broker;
    }

    method InvokeConnect(meanwhile: seq<Call>, answer: ConnectAnswer) returns (accepted: bool)
      modifies broker
      ensures (broker.State(), accepted) == ConnectEffect(broker.env, old(broker.State()), meanwhile, answer)
    {
      var reservation := broker.BeginReservation();
      if reservation.Raised? { return false; }
      broker.Perform(meanwhile);
      var finalized := false;
      if answer.Connected? && answer.actionId.Some? {
        var result := broker.CompleteReservation(reservation.value, answer.actionId.value);
        finalized := result.Ok?;
      }
      if !finalized {
        var _ := broker.GiveUpReservation(reservation.value);
      }
      return finalized;
    }

    method InvokeClose(meanwhile: seq<Call>, answer: Close) returns (cleared: bool)
      modifies broker
      ensures var (b1, s) := Capture(broker.env, old(broker.State()));
              var b2 := Run(broker.env, b1, meanwhile);
              && (answer.Closed? && !answer.replayed ==> (broker.State(), cleared) == Clear(broker.env, b2, None, Some(s)))
              && (!(answer.Closed? && !answer.replayed) ==> broker.State() == b2 && !cleared)
    {
      var s := broker.TakeSnapshot();
      broker.Perform(meanwhile);
      cleared := false;
      if answer.Closed? && !answer.replayed {
        cleared := broker.ClearAction(None, Some(s));
      }
    }

    /** The status poll: an answer asked for under an older state is refused unless it fits the present one. */
    method StatusSnapshot(meanwhile: seq<Call>, fetch: Fetch) returns (accepted: bool)
      modifies broker
      ensures var (b1, s) := Capture(broker.env, old(broker.State()));
              var b2 := Run(broker.env, b1, meanwhile);
              if fetch.Status? then (broker.State(), accepted) == Observe(broker.env, b2, fetch.active, Some(s))
              else broker.State() == b2 && !accepted
    {
      var s := broker.TakeSnapshot();
      broker.Perform(meanwhile);
      if fetch.FetchFailed? { return false; }
      accepted := broker.NoteStatus(fetch.active, Some(s));
    }
  }
}

/**
  The per-entry broker of one-shot pairing actions.

  Flows, services and status polls share it.  `Broker` is its state, one function
  per operation says what that operation does, and the class below is proved to do
  just that.  Every look at the clock is a separate reading, so time may pass between
  two looks of one operation; the theorems hold for every clock that never runs back.
 */
module ActionBroker {
  import opened Prelude

  /** `clock(n)` is the n-th reading of the monotonic clock. */
  datatype Env = Env(clock: nat -> int, ttl: int)

  ghost predicate Monotone(clock: nat -> int) {
    forall i, j :: 0 <= i <= j ==> clock(i) <= clock(j)
  }

  /** An `active_action` record: its id when that is text, whether its state is "terminal", and the rest. */
  datatype Document = Document(actionId: Option<string>, terminal: bool, body: string)

  datatype Active = Absent | NotARecord | Record(doc: Document)

  datatype Snapshot = Snapshot(generation: nat, actionId: Option<string>)

  datatype Error = CandidateBusy | StateConflict | InvalidResponse

  datatype Outcome<+T> = Ok(value: T) | Raised(error: Error)

  /** Reservations are compared by identity: `nextSerial` numbers their allocations.  `ticks` counts clock readings. */
  datatype Broker = Broker(
    generation: nat, reservation: Option<nat>, actionId: Option<string>, terminal: Option<Document>,
    expiresAt: int, ticks: nat, nextSerial: nat)

  const FRESH: Broker := Broker(0, None, None, None, 0, 0, 0)

  predicate ValidActionId(id: string) {
    |id| == 64 && forall c :: c in id ==> '0' <= c <= '9' || 'a' <= c <= 'f'
  }

  function Reset(b: Broker): Broker {
    b.(reservation := None, actionId := None, terminal := None, expiresAt := 0, generation := b.generation + 1)
  }

  function Prune(env: Env, b: Broker): Broker {
    if b.actionId == None then b
    else
      var read := b.(ticks := b.ticks + 1);
      if env.clock(b.ticks) >= b.expiresAt then Reset(read) else read
  }

  function Capture(env: Env, b: Broker): (Broker, Snapshot) {
    var p := Prune(env, b);
    (p, Snapshot(p.generation, p.actionId))
  }

  function IsCurrent(env: Env, b: Broker, s: Snapshot): (Broker, bool) {
    var p := Prune(env, b);
    (p, s.generation == p.generation)
  }

  /** `snapshot is not None and not is_current(snapshot)`: without a snapshot the clock is not read. */
  function Outdated(env: Env, b: Broker, s: Option<Snapshot>): (Broker, bool) {
    match s
    case None => (b, false)
    case Some(snapshot) => var (p, current) := IsCurrent(env, b, snapshot); (p, !current)
  }

  function ReserveConnect(env: Env, b: Broker): (Broker, Outcome<nat>) {
    var p := Prune(env, b);
    if p.actionId != None || p.reservation != None then (p, Raised(CandidateBusy))
    else
      (p.(reservation := Some(p.nextSerial), terminal := None, generation := p.generation + 1,
          nextSerial := p.nextSerial + 1), Ok(p.nextSerial))
  }

  function FinalizeConnect(env: Env, b: Broker, reservation: nat, id: string): (Broker, Outcome<()>) {
    if !ValidActionId(id) then (b, Raised(InvalidResponse))
    else if b.reservation != Some(reservation) then (b, Raised(StateConflict))
    else
      var keep := b.terminal.Some? && b.terminal.value.actionId == Some(id);
      (b.(reservation := None, actionId := Some(id), terminal := if keep then b.terminal else None,
          expiresAt := env.clock(b.ticks) + env.ttl, ticks := b.ticks + 1, generation := b.generation + 1), Ok(()))
  }

  function ReleaseConnect(b: Broker, reservation: nat): (Broker, bool) {
    if b.reservation != Some(reservation) then (b, false)
    else (b.(reservation := None, terminal := None, generation := b.generation + 1), true)
  }

  function Own(env: Env, b: Broker, id: string): (Broker, Outcome<()>) {
    var p := Prune(env, b);
    if !ValidActionId(id) then (p, Raised(InvalidResponse))
    else if p.actionId == Some(id) then (p, Ok(()))
    else if p.actionId != None || p.reservation != None then (p, Raised(CandidateBusy))
    else
      (p.(actionId := Some(id), terminal := None, expiresAt := env.clock(p.ticks) + env.ttl,
          ticks := p.ticks + 1, generation := p.generation + 1), Ok(()))
  }

  function Clear(env: Env, b: Broker, expected: Option<string>, s: Option<Snapshot>): (Broker, bool) {
    var (p, outdated) := Outdated(env, Prune(env, b), s);
    if outdated || (expected != None && p.actionId != expected) then (p, false)
    else (Reset(p), true)
  }

  function StoreTerminal(b: Broker, active: Active): Broker {
    if active.Record? && active.doc.terminal then b.(terminal := Some(active.doc)) else b
  }

  function Observe(env: Env, b: Broker, active: Active, s: Option<Snapshot>): (Broker, bool) {
    var p := Prune(env, b);
    if p.reservation != None then
      if active.Record? && active.doc.actionId.Some? && ValidActionId(active.doc.actionId.value)
      then (StoreTerminal(p, active), true)
      else (p, true)
    else
      var (q, outdated) := Outdated(env, p, s);
      if outdated then
        if q.actionId == None || !active.Record? || active.doc.actionId != q.actionId then (q, false)
        else (StoreTerminal(q, active), true)
      else if q.actionId == None || active == Absent then (q, true)
      else if !active.Record? || active.doc.actionId != q.actionId then (Clear(env, q, None, s).0, true)
      else (StoreTerminal(q, active), true)
  }

  function ConsumeTerminal(env: Env, b: Broker, id: string, s: Option<Snapshot>): (Broker, Option<Document>) {
    var (p, outdated) := Outdated(env, Prune(env, b), s);
    if outdated || p.actionId != Some(id) || p.terminal == None then (p, None)
    else (Clear(env, p, None, s).0, p.terminal)
  }

  // ---------- any client, doing anything ----------

  datatype Call =
    | Look
    | Check(snapshot: Snapshot)
    | Reserve
    | Finalize(reservation: nat, id: string)
    | Release(reservation: nat)
    | Adopt(id: string)
    | Report(active: Active, seen: Option<Snapshot>)
    | Consume(id: string, seen: Option<Snapshot>)
    | Drop(expected: Option<string>, seen: Option<Snapshot>)

  function Apply(env: Env, b: Broker, c: Call): Broker {
    match c
    case Look => Prune(env, b)
    case Check(s) => IsCurrent(env, b, s).0
    case Reserve => ReserveConnect(env, b).0
    case Finalize(r, id) => FinalizeConnect(env, b, r, id).0
    case Release(r) => ReleaseConnect(b, r).0
    case Adopt(id) => Own(env, b, id).0
    case Report(active, s) => Observe(env, b, active, s).0
    case Consume(id, s) => ConsumeTerminal(env, b, id, s).0
    case Drop(expected, s) => Clear(env, b, expected, s).0
  }

  function Run(env: Env, b: Broker, calls: seq<Call>): Broker {
    Fold((x, c) => Apply(env, x, c), b, calls)
  }

  predicate Valid(b: Broker) {
    && (b.reservation != None ==> b.actionId == None && b.reservation.value < b.nextSerial)
    && (b.terminal.Some? ==> b.terminal.value.terminal && (b.reservation != None || b.actionId != None))
    && (b.terminal.Some? && b.actionId.Some? ==> b.terminal.value.actionId == b.actionId)
  }

  lemma ClearKeepsValid(env: Env, b: Broker, expected: Option<string>, s: Option<Snapshot>)
    requires Valid(b)
    ensures Valid(Prune(env, b)) && Valid(Outdated(env, b, s).0) && Valid(Clear(env, b, expected, s).0)
  {
  }

  lemma ObserveKeepsValid(env: Env, b: Broker, active: Active, s: Option<Snapshot>)
    requires Valid(b)
    ensures Valid(Observe(env, b, active, s).0)
  {
    var p := Prune(env, b);
    ClearKeepsValid(env, b, None, s);
    ClearKeepsValid(env, p, None, s);
    ClearKeepsValid(env, Outdated(env, p, s).0, None, s);
  }

  lemma ConsumeKeepsValid(env: Env, b: Broker, id: string, s: Option<Snapshot>)
    requires Valid(b)
    ensures Valid(ConsumeTerminal(env, b, id, s).0)
  {
    var p := Prune(env, b);
    ClearKeepsValid(env, b, None, s);
    ClearKeepsValid(env, p, None, s);
    ClearKeepsValid(env, Outdated(env, p, s).0, None, s);
  }

  lemma ApplyKeepsValid(env: Env, b: Broker, c: Call)
    requires Valid(b)
    ensures Valid(Apply(env, b, c))
  {
    match c
    case Report(active, s) => ObserveKeepsValid(env, b, active, s);
    case Consume(id, s) => ConsumeKeepsValid(env, b, id, s);
    case Drop(expected, s) => ClearKeepsValid(env, b, expected, s);
    case Look | Check(_) | Reserve | Finalize(_, _) | Release(_) | Adopt(_) =>
  }

  /** A reservation and an action exclude each other, and a stored terminal is that of the action it is stored for. */
  lemma {:induction false} RunKeepsValid(env: Env, b: Broker, calls: seq<Call>)
    requires Valid(b)
    ensures Valid(Run(env, b, calls))
  {
    if calls != [] {
      var before := calls[..|calls| - 1];
      RunKeepsValid(env, b, before);
      ApplyKeepsValid(env, Run(env, b, before), calls[|calls| - 1]);
    }
  }

  // ---------- generations ----------

  /** What a generation fixes. */
  predicate SameTenure(b: Broker, c: Broker) {
    b.reservation == c.reservation && b.actionId == c.actionId && b.expiresAt == c.expiresAt
  }

  predicate Later(b: Broker, c: Broker) {
    && b.generation <= c.generation && b.nextSerial <= c.nextSerial && b.ticks <= c.ticks
    && (b.generation == c.generation ==> SameTenure(b, c) && (b.terminal.Some? ==> c.terminal.Some?))
  }

  /** A reservation is never taken up again. */
  predicate Retired(b: Broker, r: nat) {
    r < b.nextSerial && b.reservation != Some(r)
  }

  lemma ClearIsLater(env: Env, b: Broker, expected: Option<string>, s: Option<Snapshot>)
    ensures Later(b, Prune(env, b)) && Later(b, Outdated(env, b, s).0) && Later(b, Clear(env, b, expected, s).0)
  {
  }

  lemma ObserveIsLater(env: Env, b: Broker, active: Active, s: Option<Snapshot>)
    ensures Later(b, Observe(env, b, active, s).0)
  {
    var p := Prune(env, b);
    ClearIsLater(env, b, None, s);
    ClearIsLater(env, p, None, s);
    ClearIsLater(env, Outdated(env, p, s).0, None, s);
  }

  lemma ConsumeIsLater(env: Env, b: Broker, id: string, s: Option<Snapshot>)
    ensures Later(b, ConsumeTerminal(env, b, id, s).0)
  {
    var p := Prune(env, b);
    ClearIsLater(env, b, None, s);
    ClearIsLater(env, p, None, s);
    ClearIsLater(env, Outdated(env, p, s).0, None, s);
  }

  lemma ApplyIsLater(env: Env, b: Broker, c: Call)
    ensures Later(b, Apply(env, b, c))
  {
    match c
    case Report(active, s) => ObserveIsLater(env, b, active, s);
    case Consume(id, s) => ConsumeIsLater(env, b, id, s);
    case Drop(expected, s) => ClearIsLater(env, b, expected, s);
    case Look | Check(_) | Reserve | Finalize(_, _) | Release(_) | Adopt(_) =>
  }

  lemma ApplyKeepsRetired(env: Env, b: Broker, c: Call, r: nat)
    requires Retired(b, r)
    ensures Retired(Apply(env, b, c), r)
  {
    match c
    case Report(active, s) =>
    case Consume(id, s) =>
    case Look | Check(_) | Reserve | Finalize(_, _) | Release(_) | Adopt(_) | Drop(_, _) =>
  }

  lemma {:induction false} RetiredStaysRetired(env: Env, b: Broker, calls: seq<Call>, r: nat)
    requires Retired(b, r)
    ensures Retired(Run(env, b, calls), r)
  {
    if calls != [] {
      var before := calls[..|calls| - 1];
      RetiredStaysRetired(env, b, before, r);
      ApplyKeepsRetired(env, Run(env, b, before), calls[|calls| - 1], r);
    }
  }

  lemma {:induction false} RunIsLater(env: Env, b: Broker, calls: seq<Call>)
    ensures Later(b, Run(env, b, calls))
  {
    if calls != [] {
      var before := calls[..|calls| - 1];
      RunIsLater(env, b, before);
      ApplyIsLater(env, Run(env, b, before), calls[|calls| - 1]);
    }
  }

  /**
    No ABA: a snapshot that is still current after anything anyone did names the very reservation and
    action it was taken of, with their deadline.
   */
  lemma CurrentSnapshotsAreExact(env: Env, b: Broker, calls: seq<Call>)
    ensures var (b1, s) := Capture(env, b);
            var (b2, current) := IsCurrent(env, Run(env, b1, calls), s);
            current ==> s.actionId == b2.actionId && SameTenure(b1, b2)
  {
    var (b1, s) := Capture(env, b);
    RunIsLater(env, b1, calls);
    ApplyIsLater(env, Run(env, b1, calls), Check(s));
  }

  /** The only thing that can have happened to `b` is that its action expired. */
  predicate OnlyAged(env: Env, b: Broker, c: Broker) {
    || c == b.(ticks := c.ticks)
    || (b.actionId != None && c == Reset(b).(ticks := c.ticks)
        && exists n :: b.ticks <= n < c.ticks && env.clock(n) >= b.expiresAt)
  }

  /**
    Clearing with a snapshot taken earlier: it takes away what the snapshot names or nothing, whatever
    happened in between.
   */
  lemma ClearingIsExact(env: Env, b: Broker, calls: seq<Call>)
    ensures var (b1, s) := Capture(env, b);
            var b2 := Run(env, b1, calls);
            var (b3, cleared) := Clear(env, b2, None, Some(s));
            && (cleared ==> SameTenure(b1, b2) && b3.actionId == None && b3.reservation == None && b3.terminal == None)
            && (!cleared ==> OnlyAged(env, b2, b3))
            && (b2.generation != s.generation ==> !cleared)
  {
    var (b1, s) := Capture(env, b);
    var b2 := Run(env, b1, calls);
    RunIsLater(env, b1, calls);
    var p := Prune(env, b2);
    if b2.actionId != None { assert env.clock(b2.ticks) >= b2.expiresAt ==> OnlyAged(env, b2, p); }
  }

  /** A reservation that was released, cleared, finalized or replaced can never be finalized or released again. */
  lemma DeadReservationsStayDead(env: Env, b: Broker, calls: seq<Call>, r: nat, id: string)
    requires Retired(b, r)
    ensures var c := Run(env, b, calls);
            && FinalizeConnect(env, c, r, id) == (c, Raised(if ValidActionId(id) then StateConflict else InvalidResponse))
            && ReleaseConnect(c, r) == (c, false)
  {
    RetiredStaysRetired(env, b, calls, r);
  }

  // ---------- one terminal for each activation, in time ----------

  /** History: how often an action became owned, when last, and how many terminals were handed out. */
  datatype Tally = Tally(broker: Broker, activations: nat, activatedAt: int, consumed: nat)

  /** The clock reading a call activates an action at. */
  function Activation(env: Env, b: Broker, c: Call): Option<int> {
    match c
    case Finalize(r, id) => if FinalizeConnect(env, b, r, id).1.Ok? then Some(env.clock(b.ticks)) else None
    case Adopt(id) =>
      var p := Prune(env, b);
      if Own(env, b, id).1.Ok? && p.actionId != Some(id) then Some(env.clock(p.ticks)) else None
    case _ => None
  }

  /** One flow's abort never touches an action that another client finalized or took over after its snapshot. */
  lemma AbortSparesLaterActions(env: Env, b: Broker, calls: seq<Call>, activating: Call, more: seq<Call>)
    requires var (b1, s) := Capture(env, b);
             Activation(env, Run(env, b1, calls), activating).Some?
    ensures var (b1, s) := Capture(env, b);
            var b2 := Run(env, Apply(env, Run(env, b1, calls), activating), more);
            !Clear(env, b2, None, Some(s)).1 && OnlyAged(env, b2, Clear(env, b2, None, Some(s)).0)
  {
    var (b1, s) := Capture(env, b);
    var before := Run(env, b1, calls);
    var other := Apply(env, before, activating);
    RunIsLater(env, b1, calls);
    assert other.generation > before.generation;
    RunIsLater(env, other, more);
    var b2 := Run(env, other, more);
    assert b2.actionId != None && env.clock(b2.ticks) >= b2.expiresAt ==> OnlyAged(env, b2, Prune(env, b2));
  }

  function Handed(env: Env, b: Broker, c: Call): Option<Document> {
    if c.Consume? then ConsumeTerminal(env, b, c.id, c.seen).1 else None
  }

  function Count(env: Env, t: Tally, c: Call): Tally {
    var activation := Activation(env, t.broker, c);
    Tally(Apply(env, t.broker, c),
          t.activations + if activation.Some? then 1 else 0,
          if activation.Some? then activation.value else t.activatedAt,
          t.consumed + if Handed(env, t.broker, c).Some? then 1 else 0)
  }

  function CountRun(env: Env, t: Tally, calls: seq<Call>): Tally {
    Fold((x, c) => Count(env, x, c), t, calls)
  }

  predicate Balanced(env: Env, t: Tally) {
    && Valid(t.broker)
    && t.consumed + (if t.broker.actionId.Some? then 1 else 0) <= t.activations
    && (t.broker.actionId.Some? ==> t.broker.expiresAt == t.activatedAt + env.ttl)
  }

  lemma CountKeepsBalance(env: Env, t: Tally, c: Call)
    requires Balanced(env, t)
    ensures Balanced(env, Count(env, t, c))
  {
    ApplyKeepsValid(env, t.broker, c);
  }

  /** Each activation yields at most one terminal, and the deadline is always the last activation plus the TTL. */
  lemma {:induction false} OneTerminalPerActivation(env: Env, t: Tally, calls: seq<Call>)
    requires Balanced(env, t)
    ensures Balanced(env, CountRun(env, t, calls))
  {
    if calls != [] {
      var before := calls[..|calls| - 1];
      OneTerminalPerActivation(env, t, before);
      CountKeepsBalance(env, CountRun(env, t, before), calls[|calls| - 1]);
    }
  }

  lemma {:induction false} CountingChangesNothing(env: Env, t: Tally, calls: seq<Call>)
    ensures CountRun(env, t, calls).broker == Run(env, t.broker, calls)
  {
    if calls != [] { CountingChangesNothing(env, t, calls[..|calls| - 1]); }
  }

  /**
    What consuming hands out is the stored terminal of exactly the named action; every clock reading made
    before the hand-out is short of the deadline, and the action is gone whatever the clock says afterwards.
   */
  lemma ConsumedExactlyAndInTime(env: Env, b: Broker, id: string, s: Option<Snapshot>)
    requires Valid(b)
    ensures var (c, doc) := ConsumeTerminal(env, b, id, s);
            && (doc.Some? ==>
                  && doc == b.terminal && doc.value.terminal && doc.value.actionId == Some(id) == b.actionId
                  && (s.Some? ==> s.value.generation == b.generation)
                  && env.clock(b.ticks) < b.expiresAt && (s.Some? ==> env.clock(b.ticks + 1) < b.expiresAt)
                  && c.actionId == None && c.terminal == None && c.reservation == None && c.generation > b.generation)
            && (doc == None ==> OnlyAged(env, b, c))
            && (doc == None && b.actionId == Some(id) && b.terminal.Some? && (s.Some? ==> s.value.generation == b.generation)
                ==> c.actionId == None)
  {
    assert b.actionId != None && env.clock(b.ticks) >= b.expiresAt ==> OnlyAged(env, b, Prune(env, b));
  }

  /** Once any reading has reached the deadline, no terminal is handed out and no action is reported. */
  lemma NothingAfterTheDeadline(env: Env, b: Broker, n: nat, id: string, s: Option<Snapshot>)
    requires Monotone(env.clock) && n <= b.ticks && env.clock(n) >= b.expiresAt
    ensures ConsumeTerminal(env, b, id, s).1 == None
    ensures Prune(env, b).actionId == None && Capture(env, b).1.actionId == None
  {
    assert env.clock(b.ticks) >= env.clock(n);
  }

  /** The clock has not reached `deadline` within the next `n` readings. */
  predicate InTime(env: Env, b: Broker, n: nat, deadline: int) {
    forall i :: b.ticks <= i < b.ticks + n ==> env.clock(i) < deadline
  }

  lemma ReportIsStored(env: Env, b: Broker, doc: Document, s: Snapshot)
    requires Valid(b) && b.actionId.Some? && doc.terminal && doc.actionId == b.actionId
    requires s.generation == b.generation && InTime(env, b, 2, b.expiresAt)
    ensures Observe(env, b, Record(doc), Some(s)).0 == b.(terminal := Some(doc), ticks := b.ticks + 2)
  {
  }

  lemma HeldTerminalIsHandedOut(env: Env, b: Broker, s: Snapshot, id: string)
    requires Valid(b) && b.actionId == Some(id) && b.terminal.Some?
    requires s.generation == b.generation && InTime(env, b, 2, b.expiresAt)
    ensures ConsumeTerminal(env, b, id, Some(s)).1 == b.terminal
  {
  }

  /**
    A terminal reported under a current snapshot reaches the flow that asks under it in time, whatever any client
    does in between, exactly as long as none of them ended the action's tenure; and it reaches that flow only once.
   */
  lemma TerminalsAreDeliveredIff(env: Env, b: Broker, doc: Document, s: Snapshot, calls: seq<Call>)
    requires Valid(b) && b.actionId.Some? && doc.terminal && doc.actionId == b.actionId && s.generation == b.generation
    requires var later := Run(env, Observe(env, b, Record(doc), Some(s)).0, calls);
             forall i | b.ticks <= i < later.ticks + 2 :: env.clock(i) < b.expiresAt
    ensures var later := Run(env, Observe(env, b, Record(doc), Some(s)).0, calls);
            var (consumed, handed) := ConsumeTerminal(env, later, b.actionId.value, Some(s));
            && (handed.Some? <==> later.generation == b.generation)
            && (handed.Some? ==> handed.value.terminal && handed.value.actionId == b.actionId)
            && (handed.Some? ==> ConsumeTerminal(env, consumed, b.actionId.value, Some(s)).1 == None)
  {
    var reported := Observe(env, b, Record(doc), Some(s)).0;
    var later := Run(env, reported, calls);
    ObserveIsLater(env, b, Record(doc), Some(s));
    RunIsLater(env, reported, calls);
    ReportIsStored(env, b, doc, s);
    RunKeepsValid(env, reported, calls);
    ConsumedExactlyAndInTime(env, later, b.actionId.value, Some(s));
    if later.generation == b.generation { HeldTerminalIsHandedOut(env, later, s, b.actionId.value); }
  }

  /** A terminal reported for a finalized action reaches the flow that asks for it in time, and only once. */
  lemma TerminalsArrive(env: Env, b: Broker, reservation: nat, doc: Document, s: Option<Snapshot>)
    requires Valid(b) && b.reservation == Some(reservation) && doc.terminal && doc.actionId.Some?
    requires ValidActionId(doc.actionId.value) && InTime(env, b.(ticks := b.ticks + 1), 4, env.clock(b.ticks) + env.ttl)
    ensures
      var id := doc.actionId.value;
      var finalized := FinalizeConnect(env, b, reservation, id).0;
      var reported := Observe(env, finalized, Record(doc), None).0;
      var (consumed, handed) := ConsumeTerminal(env, reported, id, None);
      && handed == Some(doc)
      && ConsumeTerminal(env, consumed, id, s).1 == None
  {
  }

  /** A terminal that overtakes the answer to its own connect is kept for it; that of another action is not. */
  lemma EarlyTerminalsAreKept(env: Env, b: Broker, reservation: nat, doc: Document, id: string)
    requires Valid(b) && b.reservation == Some(reservation) && doc.terminal && doc.actionId.Some?
    requires ValidActionId(doc.actionId.value) && ValidActionId(id)
    ensures
      var reported := Observe(env, b, Record(doc), None).0;
      var finalized := FinalizeConnect(env, reported, reservation, id).0;
      finalized.actionId == Some(id) && finalized.terminal == if doc.actionId == Some(id) then Some(doc) else None
  {
  }

  // ---------- when a call is granted ----------

  /** Nobody holds anything: no reservation, and no action unless its time is up at the next reading. */
  predicate Free(env: Env, b: Broker) {
    b.reservation == None && (b.actionId == None || env.clock(b.ticks) >= b.expiresAt)
  }

  /** A connect may be reserved exactly when nobody holds anything; anyone else is told that the candidate is busy. */
  lemma ReservesIff(env: Env, b: Broker)
    requires Valid(b)
    ensures var (c, reserved) := ReserveConnect(env, b);
            && (reserved.Ok? <==> Free(env, b))
            && (reserved.Raised? ==> reserved.error == CandidateBusy && OnlyAged(env, b, c))
            && (reserved.Ok? ==> c.reservation == Some(reserved.value) && reserved.value >= b.nextSerial
                                 && c.actionId == None && c.terminal == None && c.generation > b.generation)
  {
  }

  /** A reservation becomes an owned action exactly while it is held and the gateway's id is well-formed. */
  lemma FinalizesIff(env: Env, b: Broker, reservation: nat, id: string)
    ensures var (c, finalized) := FinalizeConnect(env, b, reservation, id);
            && (finalized.Ok? <==> ValidActionId(id) && b.reservation == Some(reservation))
            && (finalized.Ok? ==>
                  c.actionId == Some(id) && c.reservation == None && c.expiresAt == env.clock(b.ticks) + env.ttl)
            && (finalized.Raised? ==>
                  c == b && finalized.error == if ValidActionId(id) then StateConflict else InvalidResponse)
  {
  }

  /** An id is owned exactly when it is well-formed and nobody holds anything but this very action. */
  lemma OwnsIff(env: Env, b: Broker, id: string)
    requires Valid(b)
    ensures var (c, owned) := Own(env, b, id);
            var already := b.actionId == Some(id) && env.clock(b.ticks) < b.expiresAt;
            && (owned.Ok? <==> ValidActionId(id) && (already || Free(env, b)))
            && (owned.Ok? ==> c.actionId == Some(id) && (already ==> c == b.(ticks := b.ticks + 1)))
            && (owned.Raised? ==>
                  OnlyAged(env, b, c) && owned.error == if ValidActionId(id) then CandidateBusy else InvalidResponse)
  {
    assert b.actionId != None && env.clock(b.ticks) >= b.expiresAt ==> OnlyAged(env, b, Prune(env, b));
  }

  /** While the action's time is not up: clearing works exactly under a current snapshot and for the expected action. */
  lemma ClearsIff(env: Env, b: Broker, expected: Option<string>, s: Option<Snapshot>)
    requires b.actionId.Some? ==> InTime(env, b, 2, b.expiresAt)
    ensures Clear(env, b, expected, s).1 <==>
              (s.Some? ==> s.value.generation == b.generation) && (expected.Some? ==> b.actionId == expected)
  {
  }

  /** Whatever ends a reservation or an action leaves the broker free: release, clearing, a consumed terminal, expiry. */
  lemma EndsFree(env: Env, b: Broker, reservation: nat, expected: Option<string>, s: Option<Snapshot>, id: string)
    requires Valid(b)
    ensures ReleaseConnect(b, reservation).1 ==> Free(env, ReleaseConnect(b, reservation).0)
    ensures Clear(env, b, expected, s).1 ==> Free(env, Clear(env, b, expected, s).0)
    ensures ConsumeTerminal(env, b, id, s).1.Some? ==> Free(env, ConsumeTerminal(env, b, id, s).0)
    ensures b.actionId.Some? && env.clock(b.ticks) >= b.expiresAt ==> Free(env, b) && Free(env, Prune(env, b))
  {
  }

  /** A held reservation is released, and no other one is. */
  lemma ReleasesIff(b: Broker, reservation: nat)
    ensures ReleaseConnect(b, reservation).1 <==> b.reservation == Some(reservation)
    ensures !ReleaseConnect(b, reservation).1 ==> ReleaseConnect(b, reservation).0 == b
  {
  }

  /** The answer names this action. */
  predicate Names(active: Active, id: Option<string>) { id.Some? && active.Record? && active.doc.actionId == id }

  /** The stored terminal after an answer that is taken for the action it names. */
  function TerminalAfter(b: Broker, active: Active): Option<Document> {
    if active.Record? && active.doc.terminal then Some(active.doc) else b.terminal
  }

  /**
    A status answer about the present action is taken even if it was asked for under an older snapshot, and its
    terminal is kept; one about anything else is then refused and changes nothing.
   */
  lemma LateReports(env: Env, b: Broker, active: Active, s: Snapshot)
    requires Valid(b) && b.reservation == None && s.generation != b.generation
    requires b.actionId.Some? ==> InTime(env, b, 2, b.expiresAt)
    ensures var (c, taken) := Observe(env, b, active, Some(s));
            && (taken <==> Names(active, b.actionId))
            && c == b.(ticks := c.ticks, terminal := if taken then TerminalAfter(b, active) else b.terminal)
  {
  }

  /**
    Under a current snapshot an answer about the present action is taken, and no answer leaves things as they are;
    one that does not fit ends the action.
   */
  lemma CurrentReports(env: Env, b: Broker, active: Active, s: Option<Snapshot>)
    requires Valid(b) && b.actionId.Some? && InTime(env, b, 4, b.expiresAt)
    requires s.Some? ==> s.value.generation == b.generation
    ensures var (c, taken) := Observe(env, b, active, s);
            && taken
            && (active == Absent ==> c == b.(ticks := c.ticks))
            && (Names(active, b.actionId) ==> c == b.(ticks := c.ticks, terminal := TerminalAfter(b, active)))
            && (active != Absent && !Names(active, b.actionId) ==> c.actionId == None && Free(env, c))
  {
  }

  /** While a connect is reserved, the terminal of any well-formed action is kept until the connect is answered. */
  lemma ReportsDuringAConnect(env: Env, b: Broker, active: Active, s: Option<Snapshot>)
    requires Valid(b) && b.reservation.Some?
    ensures var (c, taken) := Observe(env, b, active, s);
            var named := active.Record? && active.doc.actionId.Some? && ValidActionId(active.doc.actionId.value);
            taken && c == b.(terminal := if named then TerminalAfter(b, active) else b.terminal)
  {
  }

  // ---------- the program ----------

  class EEBusActionTerminalBroker {
    const env: Env
    var generation: nat
    var reservation: Option<nat>
    var actionId: Option<string>
    var terminal: Option<Document>
    var expiresAt: int
    var ticks: nat
    var nextSerial: nat

    function State(): Broker
      reads this
    {
      Broker(generation, reservation, actionId, terminal, expiresAt, ticks, nextSerial)
    }

    constructor (env: Env)
      requires 1 <= env.ttl <= 120
      ensures State() == FRESH && Valid(State()) && this.env == env
    {
      this.env := env;
      generation, reservation, actionId, terminal, expiresAt, ticks, nextSerial := 0, None, None, None, 0, 0, 0;
    }

    method Now() returns (t: int)
      modifies this`ticks
      ensures t == env.clock(old(ticks)) && ticks == old(ticks) + 1
    {
      t := env.clock(ticks);
      ticks := ticks + 1;
    }

    method PruneExpired()
      modifies this
      ensures State() == Prune(env, old(State()))
    {
      if actionId != None {
        var now := Now();
        if now >= expiresAt {
          reservation, actionId, terminal, expiresAt := None, None, None, 0;
          generation := generation + 1;
        }
      }
    }

    method TakeSnapshot() returns (s: Snapshot)
      modifies this
      ensures (State(), s) == Capture(env, old(State()))
    {
      PruneExpired();
      return Snapshot(generation, actionId);
    }

    method CheckCurrent(s: Snapshot) returns (current: bool)
      modifies this
      ensures (State(), current) == IsCurrent(env, old(State()), s)
    {
      PruneExpired();
      return s.generation == generation;
    }

    method CheckOutdated(s: Option<Snapshot>) returns (outdated: bool)
      modifies this
      ensures (State(), outdated) == Outdated(env, old(State()), s)
    {
      if s == None { return false; }
      var current := CheckCurrent(s.value);
      return !current;
    }

    method HasActiveAction() returns (active: bool)
      modifies this
      ensures State() == Prune(env, old(State())) && (active <==> actionId != None)
    {
      PruneExpired();
      return actionId != None;
    }

    method BeginReservation() returns (r: Outcome<nat>)
      modifies this
      ensures (State(), r) == ReserveConnect(env, old(State()))
    {
      PruneExpired();
      if actionId != None || reservation != None { return Raised(CandidateBusy); }
      r := Ok(nextSerial);
      reservation, terminal := Some(nextSerial), None;
      nextSerial, generation := nextSerial + 1, generation + 1;
    }

    method CompleteReservation(r: nat, id: string) returns (result: Outcome<()>)
      modifies this
      ensures (State(), result) == FinalizeConnect(env, old(State()), r, id)
    {
      if !ValidActionId(id) { return Raised(InvalidResponse); }
      if reservation != Some(r) { return Raised(StateConflict); }
      var kept := terminal;
      if kept == None || kept.value.actionId != Some(id) { kept := None; }
      reservation, actionId, terminal := None, Some(id), kept;
      var now := Now();
      expiresAt := now + env.ttl;
      generation := generation + 1;
      return Ok(());
    }

    method GiveUpReservation(r: nat) returns (released: bool)
      modifies this
      ensures (State(), released) == ReleaseConnect(old(State()), r)
    {
      if reservation != Some(r) { return false; }
      reservation, terminal, generation := None, None, generation + 1;
      return true;
    }

    method TakeOwnership(id: string) returns (result: Outcome<()>)
      modifies this
      ensures (State(), result) == Own(env, old(State()), id)
    {
      PruneExpired();
      if !ValidActionId(id) { return Raised(InvalidResponse); }
      if actionId == Some(id) { return Ok(()); }
      if actionId != None || reservation != None { return Raised(CandidateBusy); }
      actionId, terminal := Some(id), None;
      var now := Now();
      expiresAt := now + env.ttl;
      generation := generation + 1;
      return Ok(());
    }

    method NoteStatus(active: Active, s: Option<Snapshot>) returns (accepted: bool)
      modifies this
      ensures (State(), accepted) == Observe(env, old(State()), active, s)
    {
      PruneExpired();
      if reservation != None {
        if active.Record? {
          if active.doc.actionId == None || !ValidActionId(active.doc.actionId.value) { return true; }
          if active.doc.terminal { terminal := Some(active.doc); }
        }
        return true;
      }
      var outdated := CheckOutdated(s);
      if outdated {
        if actionId == None || !active.Record? || active.doc.actionId != actionId { return false; }
        if active.doc.terminal { terminal := Some(active.doc); }
        return true;
      }
      if actionId == None || active == Absent { return true; }
      if !active.Record? {
        var _ := ClearAction(None, s);
        return true;
      }
      if active.doc.actionId != actionId {
        var _ := ClearAction(None, s);
        return true;
      }
      if active.doc.terminal { terminal := Some(active.doc); }
      return true;
    }

    method HandOutTerminal(id: string, s: Option<Snapshot>) returns (doc: Option<Document>)
      modifies this
      ensures (State(), doc) == ConsumeTerminal(env, old(State()), id, s)
    {
      PruneExpired();
      var outdated := CheckOutdated(s);
      if outdated { return None; }
      if actionId == None { return None; }
      if Some(id) != actionId { return None; }
      if terminal == None { return None; }
      doc := terminal;
      var _ := ClearAction(None, s);
    }

    method ClearAction(expected: Option<string>, s: Option<Snapshot>) returns (cleared: bool)
      modifies this
      ensures (State(), cleared) == Clear(env, old(State()), expected, s)
    {
      PruneExpired();
      var outdated := CheckOutdated(s);
      if outdated { return false; }
      if expected != None && actionId != expected { return false; }
      reservation, actionId, terminal, expiresAt := None, None, None, 0;
      generation := generation + 1;
      return true;
    }

    /** Another client's turn: any calls it likes. */
    method Perform(calls: seq<Call>)
      modifies this
      ensures State() == Run(env, old(State()), calls)
    {
      var i := 0;
      while i < |calls|
        invariant 0 <= i <= |calls|
        invariant State() == Run(env, old(State()), calls[..i])
      {
        assert calls[..i + 1][..i] == calls[..i];
        match calls[i] {
          case Look => PruneExpired();
          case Check(s) => var _ := CheckCurrent(s);
          case Reserve => var _ := BeginReservation();
          case Finalize(r, id) => var _ := CompleteReservation(r, id);
          case Release(r) => var _ := GiveUpReservation(r);
          case Adopt(id) => var _ := TakeOwnership(id);
          case Report(active, s) => var _ := NoteStatus(active, s);
          case Consume(id, s) => var _ := HandOutTerminal(id, s);
          case Drop(expected, s) => var _ := ClearAction(expected, s);
        }
        i := i + 1;
      }
      assert calls[..i] == calls;
    }
  }
}

/**
  The handoff of one entity from its legacy owner to the shared one, through a
  durable journal.

  `Step` is the protocol, one atomic stretch between two awaits at a time.  Its
  environment is free: every awaited call may return, or fail (raise or be
  cancelled) with its effect done or not done; workers of an attached side start
  at any moment; the process may crash and restart anywhere.  The class below has
  the shape of the program, and is proved to be exactly this machine when it is
  cut at any await.
 */
module MigrationTransaction {
  import opened Prelude

  datatype EntityPair = EntityPair(entryId: string, savedUniqueId: string, mappingIdentity: string, generation: nat)

  datatype Owner = Legacy | Shared | Unresolved

  /** Tokens are compared by identity: `serial` is the allocation that made the object. */
  datatype Token = Token(serial: nat, pair: EntityPair, owner: Owner)

  datatype RecoveryState = RecoveryState(pair: EntityPair, owner: Owner)

  function RecoveryOwner(pair: EntityPair, state: Option<RecoveryState>): (o: Owner)
    ensures o != Unresolved <==> state == Some(RecoveryState(pair, o)) && o in {Legacy, Shared}
  {
    if state.None? || state.value.pair != pair then Unresolved
    else if state.value.owner in {Legacy, Shared} then state.value.owner
    else Unresolved
  }

  // ---------- the world outside the transaction ----------

  /** What the journal would give back after a crash. */
  datatype Durable = LegacyRecord | IntentRecord | SharedRecord

  /** `attached`: this side may start work; `live`: some of its work is running. */
  datatype Side = Side(attached: bool, live: bool) {
    predicate Quiet() { !attached && !live }
  }

  datatype DrainStep = FenceLegacy | JoinLegacy | FenceShared | JoinShared

  /** History: drains that returned, recovery reads that returned, and calls that were made. */
  datatype Entry =
    | Drained(step: DrainStep)
    | CommitCalled
    | AbortCalled
    | ReadSelected(owner: Owner)
    | AttachCalled(owner: Owner)
    | Restarted(established: bool)

  datatype World = World(durable: Durable, legacy: Side, shared: Side, log: seq<Entry>)

  // ---------- the protocol ----------

  /** The three places a drain or an attach is awaited from. */
  datatype Phase = Migrating | CleaningUp | Recovering

  datatype Pc =
    | Idle
    | AwaitIntent
    | AwaitDrain(phase: Phase, step: DrainStep)
    | AwaitCommit
    | AwaitAbort
    | AwaitRead
    | AwaitAttach(phase: Phase, token: Token)

  datatype Exit = NoExit | Finished(owner: Owner) | RecoveryRequired | Propagated

  datatype Machine = Machine(
    pair: EntityPair, owner: Owner, token: Token, nextSerial: nat, pc: Pc, exit: Exit, world: World)

  datatype Admission = Granted | Denied | Raises

  /** `effective` says whether a failed call did its work all the same. */
  datatype Outcome = Returned(answer: Option<RecoveryState>) | Failed(effective: bool)

  datatype Event =
    | StartMigrate(admission: Admission)
    | StartRecover
    | Resume(outcome: Outcome)
    | Work(sharedSide: bool)
    | Decision(durable: Durable)
    | Crash(established: bool)

  function Fence(m: Machine): Machine {
    m.(owner := Unresolved, token := Token(m.nextSerial, m.pair, Unresolved), nextSerial := m.nextSerial + 1)
  }

  function Note(w: World, e: Entry): World {
    w.(log := w.log + [e])
  }

  function Stop(m: Machine, exit: Exit): Machine {
    m.(pc := Idle, exit := exit)
  }

  function CallDrain(m: Machine, phase: Phase): Machine {
    m.(pc := AwaitDrain(phase, FenceLegacy))
  }

  function CallCommit(m: Machine): Machine {
    m.(pc := AwaitCommit, world := Note(m.world, CommitCalled))
  }

  function CallAbort(m: Machine): Machine {
    m.(pc := AwaitAbort, world := Note(m.world, AbortCalled))
  }

  /** From the call on, the side being attached may run work, whatever the call returns. */
  function CallAttach(m: Machine, phase: Phase, owner: Owner): Machine {
    var w := if owner == Shared then m.world.(shared := m.world.shared.(attached := true))
             else m.world.(legacy := m.world.legacy.(attached := true));
    m.(pc := AwaitAttach(phase, Token(m.nextSerial, m.pair, owner)), nextSerial := m.nextSerial + 1,
       world := Note(w, AttachCalled(owner)))
  }

  function AfterDrain(m: Machine, phase: Phase): Machine {
    match phase
    case Migrating => CallCommit(m)
    case CleaningUp => CallAbort(m)
    case Recovering => m.(pc := AwaitRead)
  }

  /** The handler of a failure that came before the commit was attempted. */
  function BeforeCommitFailed(m: Machine): Machine {
    CallDrain(Fence(m), CleaningUp)
  }

  function DrainFailed(m: Machine, phase: Phase): Machine {
    match phase
    case Migrating => BeforeCommitFailed(m)
    case CleaningUp => Stop(m, Propagated)
    case Recovering => Stop(Fence(m), Propagated)
  }

  function AttachFailed(m: Machine, phase: Phase): Machine {
    if phase == CleaningUp then Stop(m, Propagated) else Stop(Fence(m), Propagated)
  }

  function Attached(m: Machine, phase: Phase, token: Token): Machine {
    Stop(m.(token := token, owner := token.owner), if phase == CleaningUp then Propagated else Finished(token.owner))
  }

  function NextDrain(step: DrainStep): DrainStep
    requires step != JoinShared
  {
    match step
    case FenceLegacy => JoinLegacy
    case JoinLegacy => FenceShared
    case FenceShared => JoinShared
  }

  /** A fence stops new work; a join waits for all work of a side that starts no more. */
  function DrainEffect(w: World, step: DrainStep): World {
    match step
    case FenceLegacy => w.(legacy := w.legacy.(attached := false))
    case JoinLegacy => w.(legacy := w.legacy.(live := w.legacy.attached && w.legacy.live))
    case FenceShared => w.(shared := w.shared.(attached := false))
    case JoinShared => w.(shared := w.shared.(live := w.shared.attached && w.shared.live))
  }

  function Effect(w: World, pc: Pc, o: Outcome): World {
    if o.Failed? && !o.effective then w
    else match pc
      case AwaitIntent => w.(durable := IntentRecord)
      case AwaitCommit => w.(durable := SharedRecord)
      case AwaitAbort => w.(durable := LegacyRecord)
      case AwaitDrain(_, step) =>
        if o.Returned? then Note(DrainEffect(w, step), Drained(step)) else DrainEffect(w, step)
      case _ => w
  }

  function BeginMigrate(m: Machine, admission: Admission): Machine {
    if m.owner == Shared then Stop(m, Finished(Shared))
    else if m.owner != Legacy then Stop(m, RecoveryRequired)
    else match admission
      case Raises => Stop(m, Propagated)
      case Denied => Stop(m, Finished(Legacy))
      case Granted => Fence(m).(pc := AwaitIntent, exit := NoExit)
  }

  function BeginRecover(m: Machine): Machine {
    if m.owner != Unresolved then Stop(m, Finished(m.owner))
    else CallDrain(Fence(m).(exit := NoExit), Recovering)
  }

  /** The awaited call ends with `o`; run to the next await. */
  function Continue(m: Machine, o: Outcome): Machine
    requires m.pc != Idle
  {
    var n := m.(world := Effect(m.world, m.pc, o));
    match m.pc
    case AwaitIntent => if o.Failed? then BeforeCommitFailed(n) else CallDrain(n, Migrating)
    case AwaitDrain(phase, step) =>
      if o.Failed? then DrainFailed(n, phase)
      else if step == JoinShared then AfterDrain(n, phase)
      else n.(pc := AwaitDrain(phase, NextDrain(step)))
    case AwaitCommit => if o.Failed? then Stop(Fence(n), Propagated) else CallAttach(n, Migrating, Shared)
    case AwaitAbort => if o.Failed? then Stop(n, Propagated) else CallAttach(n, CleaningUp, Legacy)
    case AwaitRead =>
      if o.Failed? then Stop(Fence(n), Propagated)
      else
        var owner := RecoveryOwner(n.pair, o.answer);
        var r := n.(world := Note(n.world, ReadSelected(owner)));
        if owner == Unresolved then Stop(r, Finished(Unresolved)) else CallAttach(r, Recovering, owner)
    case AwaitAttach(phase, token) => if o.Failed? then AttachFailed(n, phase) else Attached(n, phase, token)
  }

  /** A new process: workers died with the old one, and a caller may vouch for exclusive legacy ownership. */
  function Restart(m: Machine, established: bool): Machine {
    var owner := if established then Legacy else Unresolved;
    Machine(m.pair, owner, Token(m.nextSerial, m.pair, owner), m.nextSerial + 1, Idle, NoExit,
            Note(m.world.(legacy := Side(established, false), shared := Side(false, false)), Restarted(established)))
  }

  function Step(m: Machine, e: Event): Machine
    requires Allowed(m, e)
  {
    match e
    case StartMigrate(a) => BeginMigrate(m, a)
    case StartRecover => BeginRecover(m)
    case Resume(o) => Continue(m, o)
    case Work(true) => m.(world := m.world.(shared := m.world.shared.(live := true)))
    case Work(false) => m.(world := m.world.(legacy := m.world.legacy.(live := true)))
    case Decision(d) => m.(world := m.world.(durable := d))
    case Crash(established) => Restart(m, established)
  }

  /** The contracts of the lock, the journal, the callbacks and the caller. */
  predicate Allowed(m: Machine, e: Event) {
    match e
    case StartMigrate(_) => m.pc == Idle                 // the lock serialises operations
    case StartRecover => m.pc == Idle
    case Resume(o) => m.pc != Idle && (m.pc == AwaitRead && o.Returned? ==> Authoritative(m, o.answer))
    case Work(sharedSide) => if sharedSide then m.world.shared.attached else m.world.legacy.attached
    case Decision(_) => m.pc == Idle && m.owner == Unresolved   // a rollback decided outside, for a fenced pair
    case Crash(established) => established ==> m.world.durable == LegacyRecord
  }

  /** A recovery record for this very pair is the durable state. */
  predicate Authoritative(m: Machine, answer: Option<RecoveryState>) {
    && (answer == Some(RecoveryState(m.pair, Legacy)) ==> m.world.durable == LegacyRecord)
    && (answer == Some(RecoveryState(m.pair, Shared)) ==> m.world.durable == SharedRecord)
  }

  /** A fresh instance: `legacy_established` is for a caller that holds exclusive legacy ownership. */
  predicate Initial(m: Machine) {
    && m.owner in {Legacy, Unresolved}
    && m.token == Token(0, m.pair, m.owner) && m.nextSerial == 1
    && m.pc == Idle && m.exit == NoExit && m.world.log == []
    && Exclusive(m.world)
    && (m.owner == Legacy ==> m.world.durable == LegacyRecord && m.world.shared.Quiet())
  }

  // ---------- what every step keeps ----------

  predicate Exclusive(w: World) {
    w.legacy.Quiet() || w.shared.Quiet()
  }

  predicate OwnerIsDurable(m: Machine) {
    && (m.owner == Shared ==> m.world.durable == SharedRecord && m.world.legacy.Quiet())
    && (m.owner == Legacy ==> m.world.durable == LegacyRecord && m.world.shared.Quiet())
  }

  predicate TokenMatches(m: Machine) {
    m.token.owner == m.owner && m.token.pair == m.pair && m.token.serial < m.nextSerial
  }

  predicate DrainProgress(w: World, step: DrainStep) {
    match step
    case FenceLegacy => true
    case JoinLegacy => !w.legacy.attached
    case FenceShared => w.legacy.Quiet()
    case JoinShared => w.legacy.Quiet() && !w.shared.attached
  }

  /** The drains that have returned when `step` is awaited. */
  function DrainedBefore(step: DrainStep): seq<Entry> {
    match step
    case FenceLegacy => []
    case JoinLegacy => [Drained(FenceLegacy)]
    case FenceShared => [Drained(FenceLegacy), Drained(JoinLegacy)]
    case JoinShared => [Drained(FenceLegacy), Drained(JoinLegacy), Drained(FenceShared)]
  }

  function FullDrain(): seq<Entry> {
    DrainedBefore(JoinShared) + [Drained(JoinShared)]
  }

  /** How the history ends while a call is awaited. */
  function Trail(pc: Pc): seq<Entry> {
    match pc
    case AwaitDrain(_, step) => DrainedBefore(step)
    case AwaitCommit => FullDrain() + [CommitCalled]
    case AwaitAbort => FullDrain() + [AbortCalled]
    case AwaitRead => FullDrain()
    case _ => []
  }

  predicate BothQuiet(w: World) { w.legacy.Quiet() && w.shared.Quiet() }

  predicate Tail<T(==)>(s: seq<T>, t: seq<T>) {
    |t| <= |s| && s[|s| - |t|..] == t
  }

  predicate AtPc(m: Machine) {
    match m.pc
    case Idle =>
      && (m.exit == Propagated ==> m.owner != Shared)
      && (m.exit.Finished? && m.exit.owner != Unresolved ==> m.owner == m.exit.owner)
    case AwaitIntent => m.world.durable == LegacyRecord
    case AwaitDrain(phase, step) =>
      && DrainProgress(m.world, step)
      && (phase == Migrating ==> m.world.durable == IntentRecord)
      && (phase == CleaningUp ==> m.world.durable != SharedRecord)
    case AwaitCommit => BothQuiet(m.world) && m.world.durable == IntentRecord
    case AwaitAbort => BothQuiet(m.world) && m.world.durable != SharedRecord
    case AwaitRead => BothQuiet(m.world)
    case AwaitAttach(phase, token) =>
      && token.pair == m.pair && m.token.serial < token.serial < m.nextSerial
      && (token.owner == Legacy || token.owner == Shared)
      && (phase == Migrating ==> token.owner == Shared)
      && (phase == CleaningUp ==> token.owner == Legacy)
      && OwnerIsDurable(m.(owner := token.owner))
  }

  /** Every attachment was called right behind a complete drain and one journal call. */
  predicate AttachesDrained(log: seq<Entry>) {
    forall i :: 0 <= i < |log| && log[i].AttachCalled? ==> i >= 5 && log[i - 5..i - 1] == FullDrain()
  }

  /** Some entry after `i` and before `j` settles a commit attempted at `i`. */
  predicate SettledBetween(log: seq<Entry>, i: int, j: int) {
    exists k :: i < k < j <= |log| && 0 <= k && log[k] in {ReadSelected(Legacy), Restarted(true)}
  }

  predicate AbortsSettled(log: seq<Entry>) {
    forall i, j :: 0 <= i < j < |log| && log[i] == CommitCalled && log[j] == AbortCalled ==> SettledBetween(log, i, j)
  }

  /** Every commit so far is settled, so an abort may be called. */
  predicate AllSettled(log: seq<Entry>) {
    forall i :: 0 <= i < |log| && log[i] == CommitCalled ==> SettledBetween(log, i, |log|)
  }

  predicate CommitSettled(m: Machine) {
    match m.pc
    case AwaitIntent => true
    case AwaitDrain(Migrating, _) => true
    case AwaitDrain(CleaningUp, _) => true
    case AwaitAttach(_, token) => token.owner == Legacy
    case AwaitAbort => true
    case Idle => m.owner == Legacy
    case _ => false
  }

  predicate History(m: Machine) {
    && AttachesDrained(m.world.log)
    && AbortsSettled(m.world.log)
    && (CommitSettled(m) ==> AllSettled(m.world.log))
  }

  predicate Safe(m: Machine) {
    && TokenMatches(m)
    && (m.pc != Idle ==> m.owner == Unresolved)
    && OwnerIsDurable(m)
    && Exclusive(m.world)
    && AtPc(m)
  }

  predicate Inv(m: Machine) {
    Safe(m) && Tail(m.world.log, Trail(m.pc)) && History(m)
  }

  lemma SettledGrows(log: seq<Entry>, e: Entry)
    requires AbortsSettled(log)
    ensures forall i, j :: 0 <= i < j < |log| && log[i] == CommitCalled && log[j] == AbortCalled
                           ==> SettledBetween(log + [e], i, j)
  {
    forall i, j | 0 <= i < j < |log| && log[i] == CommitCalled && log[j] == AbortCalled
      ensures SettledBetween(log + [e], i, j)
    {
      var k :| i < k < j && log[k] in {ReadSelected(Legacy), Restarted(true)};
      assert (log + [e])[k] == log[k];
    }
  }

  lemma AllSettledGrows(log: seq<Entry>, e: Entry)
    requires AllSettled(log) && e != CommitCalled
    ensures AllSettled(log + [e])
  {
    forall i | 0 <= i < |log + [e]| && (log + [e])[i] == CommitCalled
      ensures SettledBetween(log + [e], i, |log + [e]|)
    {
      assert SettledBetween(log, i, |log|);
      var k :| i < k < |log| && log[k] in {ReadSelected(Legacy), Restarted(true)};
      assert (log + [e])[k] == log[k];
    }
  }

  lemma SettlingSettles(log: seq<Entry>, e: Entry)
    requires e in {ReadSelected(Legacy), Restarted(true)}
    ensures AllSettled(log + [e])
  {
    forall i | 0 <= i < |log + [e]| && (log + [e])[i] == CommitCalled
      ensures SettledBetween(log + [e], i, |log + [e]|)
    {
      assert (log + [e])[|log|] == e;
    }
  }

  lemma AbortsStaySettled(log: seq<Entry>, e: Entry)
    requires AbortsSettled(log) && (e == AbortCalled ==> AllSettled(log))
    ensures AbortsSettled(log + [e])
  {
    SettledGrows(log, e);
    var log' := log + [e];
    forall i, j | 0 <= i < j < |log'| && log'[i] == CommitCalled && log'[j] == AbortCalled
      ensures SettledBetween(log', i, j)
    {
      if j == |log| {
        assert SettledBetween(log, i, |log|);
        var k :| i < k < |log| && log[k] in {ReadSelected(Legacy), Restarted(true)};
        assert log'[k] == log[k];
      }
    }
  }

  lemma AttachesStayDrained(log: seq<Entry>, e: Entry)
    requires AttachesDrained(log)
    requires e.AttachCalled? ==> exists last :: Tail(log, FullDrain() + [last])
    ensures AttachesDrained(log + [e])
  {
    var log' := log + [e];
    forall i | 0 <= i < |log'| && log'[i].AttachCalled?
      ensures i >= 5 && log'[i - 5..i - 1] == FullDrain()
    {
      if i < |log| {
        assert log'[i - 5..i - 1] == log[i - 5..i - 1];
      } else {
        var last :| Tail(log, FullDrain() + [last]);
        assert log[|log| - 5..] == FullDrain() + [last];
        assert log'[i - 5..i - 1] == log[|log| - 5..][..4];
      }
    }
  }

  /** Everything `History` needs to know about one more entry. */
  lemma NoteKeepsHistory(log: seq<Entry>, e: Entry)
    requires AttachesDrained(log) && AbortsSettled(log)
    requires e.AttachCalled? ==> exists last :: Tail(log, FullDrain() + [last])
    requires e == AbortCalled ==> AllSettled(log)
    ensures AttachesDrained(log + [e]) && AbortsSettled(log + [e])
    ensures AllSettled(log) && e != CommitCalled ==> AllSettled(log + [e])
    ensures e in {ReadSelected(Legacy), Restarted(true)} ==> AllSettled(log + [e])
  {
    AttachesStayDrained(log, e);
    AbortsStaySettled(log, e);
    if AllSettled(log) && e != CommitCalled { AllSettledGrows(log, e); }
    if e in {ReadSelected(Legacy), Restarted(true)} { SettlingSettles(log, e); }
  }

  lemma ContinueKeepsSafe(m: Machine, o: Outcome)
    requires Safe(m) && Allowed(m, Resume(o))
    ensures Safe(Continue(m, o))
  {
  }

  lemma TailGrows<T>(s: seq<T>, t: seq<T>, e: T)
    requires Tail(s, t)
    ensures Tail(s + [e], t + [e])
  {
    assert (s + [e])[|s| - |t|..] == s[|s| - |t|..] + [e];
  }

  lemma EmptyTail<T>(s: seq<T>)
    ensures Tail(s, [])
  {
  }

  lemma DrainKeepsTrail(m: Machine, phase: Phase, step: DrainStep, o: Outcome)
    requires m.pc == AwaitDrain(phase, step) && o.Returned? && Tail(m.world.log, DrainedBefore(step))
    ensures Tail(Continue(m, o).world.log, Trail(Continue(m, o).pc))
  {
    var log := m.world.log;
    TailGrows(log, DrainedBefore(step), Drained(step));
    if step == JoinShared {
      TailGrows(log + [Drained(step)], FullDrain(), CommitCalled);
      TailGrows(log + [Drained(step)], FullDrain(), AbortCalled);
    }
  }

  lemma ContinueKeepsTrail(m: Machine, o: Outcome)
    requires m.pc != Idle && Tail(m.world.log, Trail(m.pc))
    ensures Tail(Continue(m, o).world.log, Trail(Continue(m, o).pc))
  {
    if m.pc.AwaitDrain? && o.Returned? {
      DrainKeepsTrail(m, m.pc.phase, m.pc.step, o);
    } else {
      EmptyTail(Continue(m, o).world.log);
    }
  }

  lemma CommitKeepsHistory(m: Machine, o: Outcome)
    requires History(m) && m.pc == AwaitCommit && Tail(m.world.log, Trail(m.pc))
    ensures History(Continue(m, o))
  {
    if o.Returned? { AttachKeepsHistory(m.world.log, CommitCalled, Shared); }
  }

  lemma AbortKeepsHistory(m: Machine, o: Outcome)
    requires History(m) && m.pc == AwaitAbort && Tail(m.world.log, Trail(m.pc))
    ensures History(Continue(m, o))
  {
    if o.Returned? { AttachKeepsHistory(m.world.log, AbortCalled, Legacy); }
  }

  lemma ReadKeepsHistory(m: Machine, o: Outcome)
    requires History(m) && m.owner == Unresolved && m.pc == AwaitRead && Tail(m.world.log, Trail(m.pc))
    ensures History(Continue(m, o))
  {
    var log := m.world.log;
    if o.Returned? {
      var owner := RecoveryOwner(m.pair, o.answer);
      NoteKeepsHistory(log, ReadSelected(owner));
      TailGrows(log, FullDrain(), ReadSelected(owner));
      AttachKeepsHistory(log + [ReadSelected(owner)], ReadSelected(owner), owner);
    }
  }

  lemma AttachEndKeepsHistory(m: Machine, o: Outcome)
    requires History(m) && m.owner == Unresolved && m.pc.AwaitAttach?
    ensures History(Continue(m, o))
  {
  }

  lemma ContinueKeepsHistory(m: Machine, o: Outcome)
    requires Safe(m) && History(m) && Allowed(m, Resume(o)) && Tail(m.world.log, Trail(m.pc))
    ensures History(Continue(m, o))
  {
    match m.pc
    case AwaitIntent =>
    case AwaitDrain(phase, step) => if o.Returned? { DrainKeepsHistory(m, phase, step, o); }
    case AwaitCommit => CommitKeepsHistory(m, o);
    case AwaitAbort => AbortKeepsHistory(m, o);
    case AwaitRead => ReadKeepsHistory(m, o);
    case AwaitAttach(_, _) => AttachEndKeepsHistory(m, o);
  }

  lemma AttachKeepsHistory(log: seq<Entry>, last: Entry, owner: Owner)
    requires AttachesDrained(log) && AbortsSettled(log) && Tail(log, FullDrain() + [last])
    ensures AttachesDrained(log + [AttachCalled(owner)]) && AbortsSettled(log + [AttachCalled(owner)])
    ensures AllSettled(log) ==> AllSettled(log + [AttachCalled(owner)])
  {
    NoteKeepsHistory(log, AttachCalled(owner));
  }

  lemma DrainKeepsHistory(m: Machine, phase: Phase, step: DrainStep, o: Outcome)
    requires History(m) && m.pc == AwaitDrain(phase, step) && o.Returned?
    ensures History(Continue(m, o))
  {
    var log := m.world.log;
    NoteKeepsHistory(log, Drained(step));
    if step == JoinShared && phase != Recovering {
      NoteKeepsHistory(log + [Drained(step)], if phase == Migrating then CommitCalled else AbortCalled);
    }
  }

  lemma StepKeepsInv(m: Machine, e: Event)
    requires Inv(m) && Allowed(m, e)
    ensures Inv(Step(m, e))
  {
    match e
    case StartMigrate(_) =>
    case StartRecover =>
    case Resume(o) =>
      ContinueKeepsSafe(m, o);
      ContinueKeepsTrail(m, o);
      ContinueKeepsHistory(m, o);
    case Work(_) =>
    case Decision(_) =>
    case Crash(established) => NoteKeepsHistory(m.world.log, Restarted(established));
  }

  // ---------- whole runs ----------

  /** An event whose turn has not come changes nothing. */
  function Next(m: Machine, e: Event): Machine {
    if Allowed(m, e) then Step(m, e) else m
  }

  function Run(m: Machine, events: seq<Event>): Machine {
    Fold(Next, m, events)
  }

  lemma {:induction false} RunKeepsInv(m: Machine, events: seq<Event>)
    requires Inv(m)
    ensures Inv(Run(m, events))
  {
    if events != [] {
      var before := events[..|events| - 1];
      RunKeepsInv(m, before);
      if Allowed(Run(m, before), events[|events| - 1]) { StepKeepsInv(Run(m, before), events[|events| - 1]); }
    }
  }

  /** Memory never claims an owner the journal would not give back, whatever fails or crashes wherever. */
  lemma MemoryAgreesWithJournal(m: Machine, events: seq<Event>)
    requires Initial(m)
    ensures var n := Run(m, events);
            && (n.owner == Shared ==> n.world.durable == SharedRecord)
            && (n.owner == Legacy ==> n.world.durable == LegacyRecord)
            && (n.pc == Idle && n.exit == Propagated
                ==> n.owner == Unresolved || (n.owner == Legacy && n.world.durable == LegacyRecord))
  {
    RunKeepsInv(m, events);
  }

  /** The two sides are never at work together, and no attachment is called without a complete drain behind it. */
  lemma SidesNeverOverlap(m: Machine, events: seq<Event>)
    requires Initial(m)
    ensures Exclusive(Run(m, events).world)
    ensures AttachesDrained(Run(m, events).world.log)
  {
    RunKeepsInv(m, events);
  }

  /** A commit that may have persisted is never rolled back by guessing. */
  lemma AbortsFollowADecision(m: Machine, events: seq<Event>)
    requires Initial(m)
    ensures AbortsSettled(Run(m, events).world.log)
  {
    RunKeepsInv(m, events);
  }

  /** The capability test, ahead of the injected admission predicate. */
  predicate Holds(m: Machine, t: Token) {
    t == m.token && t.pair == m.pair && t.owner == m.owner && m.owner != Unresolved
  }

  lemma TokensAtSuspensions(m: Machine, events: seq<Event>)
    requires Initial(m)
    ensures var n := Run(m, events);
            && n.token.owner == n.owner && n.token.pair == n.pair
            && (n.pc != Idle ==> forall t :: !Holds(n, t))
            && (n.pc == Idle && n.owner != Unresolved ==> Holds(n, n.token))
  {
    RunKeepsInv(m, events);
  }

  lemma StepReplacesToken(m: Machine, e: Event)
    requires Inv(m)
    ensures Next(m, e).token == m.token || Next(m, e).token.serial > m.token.serial
  {
  }

  lemma {:induction false} RunReplacesToken(m: Machine, events: seq<Event>)
    requires Inv(m)
    ensures Run(m, events).token == m.token || Run(m, events).token.serial > m.token.serial
  {
    if events != [] {
      var before := events[..|events| - 1];
      RunReplacesToken(m, before);
      RunKeepsInv(m, before);
      StepReplacesToken(Run(m, before), events[|events| - 1]);
    }
  }

  lemma LaterTokensDiffer(m: Machine, second: seq<Event>, third: seq<Event>, t: Token)
    requires Inv(m) && Inv(Run(m, second)) && Holds(m, t) && !Holds(Run(m, second), t)
    ensures !Holds(Run(Run(m, second), third), t)
  {
    RunReplacesToken(m, second);
    RunReplacesToken(Run(m, second), third);
  }

  /** Once a token has been superseded it is never admitted again, not even after a restart. */
  lemma FencedTokensStayFenced(m: Machine, first: seq<Event>, second: seq<Event>, third: seq<Event>, t: Token)
    requires Initial(m)
    requires Holds(Run(m, first), t) && !Holds(Run(m, first + second), t)
    ensures !Holds(Run(m, first + second + third), t)
  {
    RunKeepsInv(m, first);
    FoldJoins(Next, m, first, second);
    FoldJoins(Next, m, first + second, third);
    RunKeepsInv(Run(m, first), second);
    LaterTokensDiffer(Run(m, first), second, third, t);
  }

  /** Within one lifetime SHARED is final, and its token stays. */
  lemma {:induction false} SharedIsAbsorbing(m: Machine, events: seq<Event>)
    requires Inv(m) && m.owner == Shared
    requires forall i :: 0 <= i < |events| ==> !events[i].Crash?
    ensures var n := Run(m, events);
            && n.owner == Shared && n.pc == Idle && n.token == m.token && n.world.durable == SharedRecord
            && n.nextSerial == m.nextSerial && n.world.log == m.world.log
  {
    if events != [] {
      var before := events[..|events| - 1];
      SharedIsAbsorbing(m, before);
      RunKeepsInv(m, before);
      assert !events[|events| - 1].Crash?;
    }
  }

  /** Nothing was fenced, called or written: all that can have changed is how the last operation ended. */
  predicate Untouched(m: Machine, n: Machine) {
    n == m.(exit := n.exit) && n.pc == Idle
  }

  /** A start that is not for this owner, or not admitted, touches nothing; it returns the owner or raises. */
  lemma RefusedStarts(m: Machine, admission: Admission)
    requires m.pc == Idle
    ensures m.owner != Legacy || admission != Granted ==> Untouched(m, BeginMigrate(m, admission))
    ensures m.owner != Unresolved ==> Untouched(m, BeginRecover(m)) && BeginRecover(m).exit == Finished(m.owner)
    ensures BeginMigrate(m, admission).exit ==
              match m.owner
              case Shared => Finished(Shared)
              case Unresolved => RecoveryRequired
              case Legacy => match admission case Denied => Finished(Legacy) case Raises => Propagated case Granted => NoExit
  {
  }

  /** What happens to an idle pair that keeps its owner: work of that side, and outcomes of operations that touch nothing. */
  predicate StaysPut(m: Machine, n: Machine) {
    && n.owner == m.owner && n.token == m.token && n.nextSerial == m.nextSerial && n.pc == Idle
    && n.world.log == m.world.log
  }

  /** A record of this very pair that names a settled owner selects it; anything else selects none. */
  lemma RecordsSelectIff(pair: EntityPair, answer: Option<RecoveryState>, owner: Owner)
    requires owner != Unresolved
    ensures RecoveryOwner(pair, answer) == owner <==> answer == Some(RecoveryState(pair, owner))
  {
  }

  /** Without an admitted migration, LEGACY is never fenced, its token never replaced and its journal never written. */
  lemma {:induction false} UnadmittedStaysLegacy(m: Machine, events: seq<Event>)
    requires Inv(m) && m.owner == Legacy && m.pc == Idle
    requires forall e | e in events :: !e.Crash? && e != StartMigrate(Granted)
    ensures StaysPut(m, Run(m, events)) && Run(m, events).world.durable == m.world.durable
  {
    if events != [] {
      var before, last := events[..|events| - 1], events[|events| - 1];
      assert last in events;
      UnadmittedStaysLegacy(m, before);
    }
  }

  /** Without a recovery, a fenced pair stays fenced, whatever migrations are asked for. */
  lemma {:induction false} UnresolvedStaysFenced(m: Machine, events: seq<Event>)
    requires Inv(m) && m.owner == Unresolved && m.pc == Idle
    requires forall e | e in events :: !e.Crash? && e != StartRecover
    ensures StaysPut(m, Run(m, events))
  {
    if events != [] {
      var before, last := events[..|events| - 1], events[|events| - 1];
      assert last in events;
      UnresolvedStaysFenced(m, before);
    }
  }

  // ---------- one operation, fed the outcomes of its awaits ----------

  /** An operation that has ended awaits nothing more. */
  function Advance(m: Machine, o: Outcome): Machine {
    if m.pc == Idle then m else Continue(m, o)
  }

  function RunScript(m: Machine, outcomes: seq<Outcome>): Machine {
    Fold(Advance, m, outcomes)
  }

  predicate ScriptAllowed(m: Machine, outcomes: seq<Outcome>) {
    forall k :: 0 <= k < |outcomes| ==> Allowed(RunScript(m, outcomes[..k]), Resume(outcomes[k]))
  }

  function AsEvents(outcomes: seq<Outcome>): seq<Event> {
    seq(|outcomes|, i requires 0 <= i < |outcomes| => Resume(outcomes[i]))
  }

  /** A script whose reads are authoritative is a run of the machine. */
  lemma {:induction false} ScriptIsARun(m: Machine, outcomes: seq<Outcome>)
    requires ScriptAllowed(m, outcomes)
    ensures RunScript(m, outcomes) == Run(m, AsEvents(outcomes))
  {
    if outcomes != [] {
      var before := outcomes[..|outcomes| - 1];
      assert ScriptAllowed(m, before) by {
        forall k | 0 <= k < |before| ensures Allowed(RunScript(m, before[..k]), Resume(before[k])) {
          assert before[..k] == outcomes[..k];
        }
      }
      ScriptIsARun(m, before);
      assert AsEvents(outcomes)[..|outcomes| - 1] == AsEvents(before);
      assert Allowed(RunScript(m, outcomes[..|before|]), Resume(outcomes[|before|]));
    }
  }

  lemma ScriptGrows(m: Machine, outcomes: seq<Outcome>, used: nat)
    requires used < |outcomes|
    ensures var p := RunScript(m, outcomes[..used]);
            RunScript(m, outcomes[..used + 1]) == if p.pc == Idle then p else Continue(p, outcomes[used])
  {
    assert outcomes[..used + 1][..used] == outcomes[..used];
  }

  // ---------- what an operation comes to ----------

  function Returns(n: nat): seq<Outcome> {
    seq(n, _ => Returned(None))
  }

  lemma {:induction false} DrainReturns(m: Machine, phase: Phase, n: nat)
    requires n <= 3
    ensures var p := RunScript(CallDrain(m, phase), Returns(n));
            p.pc == AwaitDrain(phase, [FenceLegacy, JoinLegacy, FenceShared, JoinShared][n])
            && p == m.(pc := p.pc, world := p.world) && p.world.durable == m.world.durable
  {
    if n > 0 {
      DrainReturns(m, phase, n - 1);
      assert Returns(n)[..n - 1] == Returns(n - 1);
    }
  }

  /** The awaits of `migrate`, in order: intent, the four drains, commit, attach. */
  lemma MigrateReaches(m: Machine, n: nat)
    requires m.owner == Legacy && n <= 6
    ensures var p := RunScript(BeginMigrate(m, Granted), Returns(n));
            p.pc == match n
                    case 0 => AwaitIntent
                    case 1 => AwaitDrain(Migrating, FenceLegacy)
                    case 2 => AwaitDrain(Migrating, JoinLegacy)
                    case 3 => AwaitDrain(Migrating, FenceShared)
                    case 4 => AwaitDrain(Migrating, JoinShared)
                    case 5 => AwaitCommit
                    case _ => AwaitAttach(Migrating, Token(m.nextSerial + 1, m.pair, Shared))
    ensures var p := RunScript(BeginMigrate(m, Granted), Returns(n));
            p.world.durable == if n == 0 then m.world.durable else if n <= 5 then IntentRecord else SharedRecord
  {
    var b := BeginMigrate(m, Granted);
    if n > 0 {
      assert Returns(1) == [] + [Returned(None)];
      FoldEnds(Advance, b, [], Returned(None));
      var intent := RunScript(b, Returns(1));
      var drains := if n < 4 then n - 1 else 3;
      var i := b.(world := Effect(b.world, AwaitIntent, Returned(None)));
      assert intent == CallDrain(i, Migrating);
      DrainReturns(i, Migrating, drains);
      FoldJoins(Advance, b, Returns(1), Returns(drains));
      assert Returns(1) + Returns(drains) == Returns(1 + drains);
      if n > 4 { assert Returns(5)[..4] == Returns(4); }
      if n > 5 { assert Returns(6)[..5] == Returns(5); }
    }
  }

  lemma MigrateSucceeds(m: Machine)
    requires Inv(m) && m.pc == Idle && m.owner == Legacy
    ensures var n := RunScript(BeginMigrate(m, Granted), Returns(7));
            && n.pc == Idle && n.exit == Finished(Shared) && n.owner == Shared
            && n.world.durable == SharedRecord && n.token.serial > m.token.serial
  {
    MigrateReaches(m, 6);
    SerialGrows(BeginMigrate(m, Granted), Returns(6));
    assert Returns(7)[..6] == Returns(6);
  }

  /** Until the commit is called, a failure leads back to legacy when the cleanup returns. */
  lemma FailureBeforeCommitRestores(m: Machine, k: nat, effective: bool)
    requires Inv(m) && m.pc == Idle && m.owner == Legacy && k <= 4
    ensures var n := RunScript(BeginMigrate(m, Granted), Returns(k) + [Failed(effective)] + Returns(6));
            && n.pc == Idle && n.exit == Propagated && n.owner == Legacy
            && n.world.durable == LegacyRecord && n.token.serial > m.token.serial
  {
    var b := BeginMigrate(m, Granted);
    MigrateReaches(m, k);
    var failing := RunScript(b, Returns(k));
    SerialGrows(b, Returns(k));
    var failed := failing.(world := Effect(failing.world, failing.pc, Failed(effective)));
    var script := Returns(k) + [Failed(effective)];
    assert script[..|script| - 1] == Returns(k);
    assert RunScript(b, script) == CallDrain(Fence(failed), CleaningUp);
    FoldJoins(Advance, b, script, Returns(6));
    CleanupReturns(Fence(failed));
  }

  lemma CleanupReturns(m: Machine)
    ensures var n := RunScript(CallDrain(m, CleaningUp), Returns(6));
            && n.pc == Idle && n.exit == Propagated && n.world.durable == LegacyRecord
            && n.owner == Legacy && n.token.serial == m.nextSerial
  {
    var c := CallDrain(m, CleaningUp);
    DrainReturns(m, CleaningUp, 3);
    FoldEnds(Advance, c, Returns(3), Returned(None));
    FoldEnds(Advance, c, Returns(4), Returned(None));
    FoldEnds(Advance, c, Returns(5), Returned(None));
    assert Returns(3) + [Returned(None)] == Returns(4);
    assert Returns(4) + [Returned(None)] == Returns(5);
    assert Returns(5) + [Returned(None)] == Returns(6);
  }

  /**
    From the commit on, a failure leaves the pair with no owner and the journal is not rolled back: the intent
    stands, or the commit if it took effect.
   */
  lemma FailureFromCommitOnIsUnresolved(m: Machine, k: nat, effective: bool)
    requires Inv(m) && m.pc == Idle && m.owner == Legacy && 5 <= k <= 6
    ensures var n := RunScript(BeginMigrate(m, Granted), Returns(k) + [Failed(effective)]);
            && n.pc == Idle && n.exit == Propagated && n.owner == Unresolved
            && n.world.durable == if k == 6 || effective then SharedRecord else IntentRecord
  {
    MigrateReaches(m, k);
    var script := Returns(k) + [Failed(effective)];
    assert script[..|script| - 1] == Returns(k);
  }

  /**
    If every await returns, recovery ends with the owner that the journal's record names, attached and with the
    journal untouched; a record that names none leaves the pair fenced and UNRESOLVED.
   */
  lemma RecoverSucceeds(m: Machine, answer: Option<RecoveryState>)
    requires Inv(m) && m.pc == Idle && m.owner == Unresolved
    ensures var n := RunScript(BeginRecover(m), Returns(4) + [Returned(answer)] + [Returned(None)]);
            && n.pc == Idle && n.exit == Finished(RecoveryOwner(m.pair, answer)) && n.owner == RecoveryOwner(m.pair, answer)
            && n.world.durable == m.world.durable && n.token.owner == n.owner && n.token.serial > m.token.serial
  {
    var fenced := Fence(m).(exit := NoExit);
    var b := CallDrain(fenced, Recovering);
    DrainReturns(fenced, Recovering, 3);
    FoldEnds(Advance, b, Returns(3), Returned(None));
    assert Returns(3) + [Returned(None)] == Returns(4);
    FoldEnds(Advance, b, Returns(4), Returned(answer));
    FoldEnds(Advance, b, Returns(4) + [Returned(answer)], Returned(None));
  }

  /** Behind a complete drain: the next call of the phase is awaited, and only the sides have changed. */
  lemma DrainCompletes(m: Machine, phase: Phase)
    ensures var p := RunScript(CallDrain(m, phase), Returns(4));
            && p.pc == (match phase case Migrating => AwaitCommit case CleaningUp => AwaitAbort case Recovering => AwaitRead)
            && p == m.(pc := p.pc, world := p.world) && p.world.durable == m.world.durable
  {
    DrainReturns(m, phase, 3);
    FoldEnds(Advance, CallDrain(m, phase), Returns(3), Returned(None));
    assert Returns(3) + [Returned(None)] == Returns(4);
  }

  /** The outcomes before the `k`th await of a recovery ends: four drains, the read, the attachment. */
  function RecoveryOutcomes(k: nat, answer: Option<RecoveryState>): seq<Outcome>
    requires k <= 5
  {
    if k <= 4 then Returns(k) else Returns(4) + [Returned(answer)]
  }

  lemma RecoveryAwaits(m: Machine, k: nat, answer: Option<RecoveryState>)
    requires k <= 5 && (k == 5 ==> RecoveryOwner(m.pair, answer) != Unresolved)
    ensures var p := RunScript(CallDrain(m, Recovering), RecoveryOutcomes(k, answer));
            && p == m.(pc := p.pc, world := p.world, nextSerial := p.nextSerial) && p.nextSerial >= m.nextSerial
            && p.world.durable == m.world.durable
            && if k <= 3 then p.pc.AwaitDrain? && p.pc.phase == Recovering
               else if k == 4 then p.pc == AwaitRead
               else p.pc.AwaitAttach? && p.pc.phase == Recovering
  {
    if k <= 3 {
      DrainReturns(m, Recovering, k);
    } else {
      DrainCompletes(m, Recovering);
      if k == 5 { FoldEnds(Advance, CallDrain(m, Recovering), Returns(4), Returned(answer)); }
    }
  }

  /** A recovery that fails anywhere leaves the pair fenced anew and the journal untouched. */
  lemma FailedRecoveryIsUnresolved(m: Machine, k: nat, answer: Option<RecoveryState>, effective: bool)
    requires Inv(m) && m.pc == Idle && m.owner == Unresolved && k <= 5
    requires k == 5 ==> RecoveryOwner(m.pair, answer) != Unresolved
    ensures var n := RunScript(BeginRecover(m), RecoveryOutcomes(k, answer) + [Failed(effective)]);
            && n.pc == Idle && n.exit == Propagated && n.owner == Unresolved
            && n.world.durable == m.world.durable && n.token.serial > m.token.serial + 1
  {
    var fenced := Fence(m).(exit := NoExit);
    RecoveryAwaits(fenced, k, answer);
    FoldEnds(Advance, CallDrain(fenced, Recovering), RecoveryOutcomes(k, answer), Failed(effective));
  }

  lemma CleanupAwaits(m: Machine, k: nat)
    requires k <= 5
    ensures var p := RunScript(CallDrain(m, CleaningUp), Returns(k));
            && p == m.(pc := p.pc, world := p.world, nextSerial := p.nextSerial)
            && p.world.durable == (if k == 5 then LegacyRecord else m.world.durable)
            && if k <= 3 then p.pc.AwaitDrain? && p.pc.phase == CleaningUp
               else if k == 4 then p.pc == AwaitAbort
               else p.pc.AwaitAttach? && p.pc.phase == CleaningUp
  {
    if k <= 3 {
      DrainReturns(m, CleaningUp, k);
    } else {
      DrainCompletes(m, CleaningUp);
      if k == 5 {
        FoldEnds(Advance, CallDrain(m, CleaningUp), Returns(4), Returned(None));
        assert Returns(4) + [Returned(None)] == Returns(5);
      }
    }
  }

  /** A cleanup that fails leaves the pair fenced; the journal shows the abort if that took effect. */
  lemma FailedCleanupIsUnresolved(m: Machine, k: nat, effective: bool)
    requires m.owner == Unresolved && k <= 5
    ensures var n := RunScript(CallDrain(m, CleaningUp), Returns(k) + [Failed(effective)]);
            && n.pc == Idle && n.exit == Propagated && n.owner == Unresolved && n.token == m.token
            && n.world.durable == if k == 5 || (k == 4 && effective) then LegacyRecord else m.world.durable
  {
    CleanupAwaits(m, k);
    FoldEnds(Advance, CallDrain(m, CleaningUp), Returns(k), Failed(effective));
  }

  lemma {:induction false} SerialGrows(m: Machine, outcomes: seq<Outcome>)
    ensures RunScript(m, outcomes).nextSerial >= m.nextSerial
  {
    if outcomes != [] { SerialGrows(m, outcomes[..|outcomes| - 1]); }
  }

  datatype Flow = Done | Threw | Suspended

  /** The program.  `pc` says where an operation is suspended; `world` is what its calls have done. */
  class Transaction {
    const pair: EntityPair
    var owner: Owner
    var token: Token
    var nextSerial: nat
    var pc: Pc
    var exit: Exit
    var world: World

    function State(): Machine
      reads this
    {
      Machine(pair, owner, token, nextSerial, pc, exit, world)
    }

    constructor (pair: EntityPair, legacyEstablished: bool, world: World)
      requires world.log == [] && Exclusive(world)
      requires legacyEstablished ==> world.durable == LegacyRecord && world.shared.Quiet()
      ensures Initial(State()) && this.pair == pair && this.world == world
      ensures owner == if legacyEstablished then Legacy else Unresolved
    {
      this.pair := pair;
      owner := if legacyEstablished then Legacy else Unresolved;
      token := Token(0, pair, if legacyEstablished then Legacy else Unresolved);
      nextSerial := 1;
      pc, exit := Idle, NoExit;
      this.world := world;
    }

    /** `admission` is what the injected predicate would answer for the current owner. */
    method Admit(t: Token, admission: Admission) returns (admitted: bool)
      ensures admitted <==> Holds(State(), t) && admission == Granted
    {
      if t != token || t.pair != pair || t.owner != owner || owner == Unresolved {
        return false;
      }
      return admission == Granted;
    }

    method FenceCallbacks()
      modifies this
      ensures State() == Fence(old(State()))
    {
      owner := Unresolved;
      token := Token(nextSerial, pair, Unresolved);
      nextSerial := nextSerial + 1;
    }

    /** One await: the next outcome of the script, or suspension when the script has ended. */
    method Await(script: seq<Outcome>, used: nat) returns (flow: Flow, used': nat)
      requires used <= |script|
      modifies this`world
      ensures flow.Suspended? <==> used == |script|
      ensures used' == if flow.Suspended? then used else used + 1
      ensures world == if flow.Suspended? then old(world) else Effect(old(world), pc, script[used])
      ensures !flow.Suspended? ==> (flow.Threw? <==> script[used].Failed?)
    {
      if used == |script| { return Suspended, used; }
      world := Effect(world, pc, script[used]);
      return if script[used].Failed? then Threw else Done, used + 1;
    }

    method Drain(phase: Phase, script: seq<Outcome>, used: nat, ghost m0: Machine) returns (flow: Flow, used': nat)
      requires used <= |script|
      requires RunScript(m0, script[..used]) == CallDrain(State(), phase)
      modifies this`world, this`pc
      ensures used <= used' <= |script|
      ensures flow.Suspended? ==> used' == |script| && pc != Idle && RunScript(m0, script[..used']) == State()
      ensures flow.Done? ==> RunScript(m0, script[..used']) == AfterDrain(State(), phase)
      ensures flow.Threw? ==> RunScript(m0, script[..used']) == DrainFailed(State(), phase)
    {
      used' := used;
      var steps := [FenceLegacy, JoinLegacy, FenceShared, JoinShared];
      var i := 0;
      while i < 4
        invariant 0 <= i <= 4
        invariant used <= used' <= |script|
        invariant i < 4 ==> RunScript(m0, script[..used']) == State().(pc := AwaitDrain(phase, steps[i]))
        invariant i == 4 ==> RunScript(m0, script[..used']) == AfterDrain(State(), phase)
      {
        pc := AwaitDrain(phase, steps[i]);
        if used' < |script| { ScriptGrows(m0, script, used'); }
        flow, used' := Await(script, used');
        if flow != Done { return; }
        i := i + 1;
      }
      return Done, used';
    }

    method Attach(phase: Phase, newOwner: Owner, script: seq<Outcome>, used: nat, ghost m0: Machine)
      returns (flow: Flow, used': nat)
      requires used <= |script|
      requires RunScript(m0, script[..used]) == CallAttach(State(), phase, newOwner)
      modifies this
      ensures used <= used' <= |script|
      ensures flow.Suspended? ==> used' == |script| && pc != Idle && RunScript(m0, script[..used']) == State()
      ensures flow.Done? ==> owner == newOwner && RunScript(m0, script[..used'])
                             == Stop(State(), if phase == CleaningUp then Propagated else Finished(newOwner))
      ensures flow.Threw? ==> RunScript(m0, script[..used']) == AttachFailed(State(), phase)
    {
      var issued := Token(nextSerial, pair, newOwner);
      nextSerial := nextSerial + 1;
      world := if newOwner == Shared then world.(shared := world.shared.(attached := true))
               else world.(legacy := world.legacy.(attached := true));
      world := Note(world, AttachCalled(newOwner));
      pc := AwaitAttach(phase, issued);
      if used < |script| { ScriptGrows(m0, script, used); }
      flow, used' := Await(script, used);
      if flow.Done? {
        token := issued;
        owner := newOwner;
      }
    }

    /** Intent, quiesce and join, durable commit, then attach once. */
    method Migrate(admission: Admission, script: seq<Outcome>) returns (flow: Flow, used: nat)
      requires pc == Idle
      modifies this
      ensures used <= |script| && (flow.Suspended? <==> pc != Idle) && (flow.Suspended? ==> used == |script|)
      ensures State() == RunScript(BeginMigrate(old(State()), admission), script[..used])
      ensures flow.Done? ==> exit.Finished?
      ensures flow.Threw? ==> exit in {RecoveryRequired, Propagated}
      ensures old(owner) != Legacy || admission != Granted ==> Untouched(old(State()), State()) && used == 0
      ensures old(owner) == Shared ==> flow.Done? && exit == Finished(Shared)
      ensures old(owner) == Unresolved ==> flow.Threw? && exit == RecoveryRequired
      ensures old(owner) == Legacy && admission == Denied ==> flow.Done? && exit == Finished(Legacy)
      ensures old(owner) == Legacy && admission == Raises ==> flow.Threw? && exit == Propagated
    {
      ghost var m0 := BeginMigrate(State(), admission);
      used := 0;
      if owner == Shared { exit := Finished(Shared); return Done, 0; }
      if owner != Legacy { exit := RecoveryRequired; return Threw, 0; }
      if admission == Raises { exit := Propagated; return Threw, 0; }
      if admission != Granted { exit := Finished(Legacy); return Done, 0; }
      FenceCallbacks();
      exit := NoExit;
      var committing := false;
      pc := AwaitIntent;
      if 0 < |script| { ScriptGrows(m0, script, 0); }
      flow, used := Await(script, 0);
      if flow.Done? {
        flow, used := Drain(Migrating, script, used, m0);
      }
      if flow.Done? {
        committing := true;
        pc := AwaitCommit;
        world := Note(world, CommitCalled);
        if used < |script| { ScriptGrows(m0, script, used); }
        flow, used := Await(script, used);
      }
      if flow.Done? && committing {
        flow, used := Attach(Migrating, Shared, script, used, m0);
      }
      if flow.Suspended? { return; }
      if flow.Done? {
        pc, exit := Idle, Finished(owner);
        return;
      }
      FenceCallbacks();
      if !committing {
        flow, used := Restore(script, used, m0);
        if flow.Suspended? { return; }
      }
      pc, exit := Idle, Propagated;
      return Threw, used;
    }

    /** The failure handler: drain all partial work, abort durably, then give the pair back to legacy. */
    method Restore(script: seq<Outcome>, used: nat, ghost m0: Machine) returns (flow: Flow, used': nat)
      requires used <= |script|
      requires RunScript(m0, script[..used]) == CallDrain(State(), CleaningUp)
      modifies this
      ensures used <= used' <= |script|
      ensures flow.Suspended? ==> used' == |script| && pc != Idle && RunScript(m0, script[..used']) == State()
      ensures !flow.Suspended? ==> RunScript(m0, script[..used']) == Stop(State(), Propagated)
    {
      flow, used' := Drain(CleaningUp, script, used, m0);
      if flow != Done { return; }
      pc := AwaitAbort;
      world := Note(world, AbortCalled);
      if used' < |script| { ScriptGrows(m0, script, used'); }
      flow, used' := Await(script, used');
      if flow != Done { return; }
      flow, used' := Attach(CleaningUp, Legacy, script, used', m0);
    }

    /** Reconcile with the journal, without writing to it. */
    method Recover(script: seq<Outcome>) returns (flow: Flow, used: nat)
      requires pc == Idle
      modifies this
      ensures used <= |script| && (flow.Suspended? <==> pc != Idle) && (flow.Suspended? ==> used == |script|)
      ensures State() == RunScript(BeginRecover(old(State())), script[..used])
      ensures flow.Done? ==> exit.Finished?
      ensures flow.Threw? ==> exit == Propagated
      ensures old(owner) != Unresolved ==>
                Untouched(old(State()), State()) && used == 0 && flow.Done? && exit == Finished(old(owner))
    {
      ghost var m0 := BeginRecover(State());
      used := 0;
      if owner != Unresolved { exit := Finished(owner); return Done, 0; }
      FenceCallbacks();
      exit := NoExit;
      flow, used := Drain(Recovering, script, 0, m0);
      var selected := Unresolved;
      if flow.Done? {
        pc := AwaitRead;
        if used < |script| { ScriptGrows(m0, script, used); }
        flow, used := Await(script, used);
        if flow.Done? {
          selected := RecoveryOwner(pair, script[used - 1].answer);
          world := Note(world, ReadSelected(selected));
        }
      }
      if flow.Done? && selected != Unresolved {
        flow, used := Attach(Recovering, selected, script, used, m0);
      }
      if flow.Suspended? { return; }
      if flow.Threw? {
        FenceCallbacks();
        pc, exit := Idle, Propagated;
        return;
      }
      pc, exit := Idle, Finished(owner);
    }
  }
}

/**
 * The polling lifecycle of the semantic snapshot: coalesced reads, one poller, and start and close
 * sections under one lock. A step is a stretch between two awaits; any step may follow any other.
 */
module SnapshotLifecycle {
  import opened Prelude

  /** A refresh task: not yet running, waiting for the read it began after `begun` closes, or over. */
  datatype Task = Created | Reading(begun: nat) | Done(cancelled: bool)

  datatype Poller = Sleeping | Awaiting(task: nat) | Ended

  /** `supported`: None, True and False. */
  datatype Support = Unknown | Supported | Unsupported

  /** Who holds the lifecycle lock: nobody, a start that awaits a refresh task, or a close that joins. */
  datatype Holder = Free | Starting(task: nat) | Closing

  /** The coordinator; every task and poller ever created is listed, `refresh` and `poll` name the current ones. */
  datatype State<V> = State(
    data: Option<V>, success: bool, supported: Support, closed: bool,
    tasks: seq<Task>, refresh: Option<nat>, pollers: seq<Poller>, poll: Option<nat>,
    holder: Holder, closes: nat)

  function Fresh<V>(): State<V> { State(None, false, Unknown, false, [], None, [], None, Free, 0) }

  datatype Answer<V> = Answered(value: V) | Failed(fieldMissing: bool)

  datatype Event<V> =
    | RequestMade
    | TaskRuns(task: nat)
    | ReadEnds(task: nat, answer: Answer<V>)
    | TaskCancelled(task: nat)
    | PollerWakes(poller: nat)
    | PollerResumes(poller: nat)
    | PollerCancelled(poller: nat)
    | StartEnters
    | StartResumes
    | StartFails
    | CloseEnters
    | CloseJoins(interrupted: bool)

  function NextSupport(state: Support, fieldMissing: bool, answered: bool): Support {
    if fieldMissing then Unsupported
    else if answered && state.Unknown? then Supported
    else state
  }

  predicate TaskOver<V>(s: State<V>, t: nat) { t < |s.tasks| ==> s.tasks[t].Done? }

  predicate PollerOver<V>(s: State<V>, p: nat) { p < |s.pollers| ==> s.pollers[p].Ended? }

  predicate MayRead<V>(s: State<V>) { !s.closed && !s.supported.Unsupported? }

  /** `async_request_refresh` up to its await: join the running task or create one. */
  function Request<V>(s: State<V>): State<V> {
    if !MayRead(s) then s
    else if s.refresh.None? || TaskOver(s, s.refresh.value) then
      s.(tasks := s.tasks + [Created], refresh := Some(|s.tasks|))
    else s
  }

  /** The end of `_refresh`, unless the coordinator was closed meanwhile. */
  function Publish<V>(s: State<V>, answer: Answer<V>): State<V> {
    if s.closed then s
    else match answer
      case Answered(value) =>
        s.(supported := NextSupport(s.supported, false, true), data := Some(value), success := true)
      case Failed(fieldMissing) =>
        s.(supported := NextSupport(s.supported, fieldMissing, false), success := false)
  }

  function EndTask<V>(s: State<V>, t: nat, cancelled: bool): State<V>
    requires t < |s.tasks|
  {
    s.(tasks := s.tasks[t := Done(cancelled)])
  }

  function MovePoller<V>(s: State<V>, p: nat, to: Poller): State<V>
    requires p < |s.pollers|
  {
    s.(pollers := s.pollers[p := to])
  }

  /** The poller asks for a refresh, or finds at once that it has nothing left to do. */
  function Wake<V>(s: State<V>, p: nat): State<V>
    requires p < |s.pollers|
  {
    if !MayRead(s) then MovePoller(s, p, Ended)
    else
      var asked := Request(s);
      MovePoller(asked, p, if asked.refresh.Some? then Awaiting(asked.refresh.value) else Ended)
  }

  function EnterStart<V>(s: State<V>): State<V> {
    if s.poll.Some? && !PollerOver(s, s.poll.value) then s
    else
      var open := s.(closed := false);
      var asked := Request(open);
      if MayRead(open) && asked.refresh.Some? then asked.(holder := Starting(asked.refresh.value)) else open
  }

  function ResumeStart<V>(s: State<V>): State<V> {
    var released := s.(holder := Free);
    if s.supported.Unsupported? then released
    else released.(pollers := s.pollers + [Sleeping], poll := Some(|s.pollers|))
  }

  function EnterClose<V>(s: State<V>): State<V> {
    if s.poll.None? && s.refresh.None? then s.(closed := true, success := false, holder := Free, closes := s.closes + 1)
    else s.(closed := true, holder := Closing)
  }

  /** After the join; a cancellation meanwhile skips the rest of `_close`, but not the join. */
  function LeaveClose<V>(s: State<V>, interrupted: bool): State<V> {
    var joined := s.(holder := Free, closes := s.closes + 1);
    if interrupted then joined else joined.(poll := None, refresh := None, success := false)
  }

  predicate Joined<V>(s: State<V>) {
    (s.refresh.Some? ==> TaskOver(s, s.refresh.value)) && (s.poll.Some? ==> PollerOver(s, s.poll.value))
  }

  /** One step; an event that is not enabled changes nothing. */
  function Step<V>(s: State<V>, e: Event<V>): State<V> {
    match e
    case RequestMade => Request(s)
    case TaskRuns(t) =>
      if t < |s.tasks| && s.tasks[t].Created? then s.(tasks := s.tasks[t := Reading(s.closes)]) else s
    case ReadEnds(t, answer) =>
      if t < |s.tasks| && s.tasks[t].Reading? then Publish(EndTask(s, t, false), answer) else s
    case TaskCancelled(t) =>
      if t < |s.tasks| && !s.tasks[t].Done? then EndTask(s, t, true) else s
    case PollerWakes(p) =>
      if p < |s.pollers| && s.pollers[p].Sleeping? then Wake(s, p) else s
    case PollerResumes(p) =>
      if p < |s.pollers| && s.pollers[p].Awaiting? && TaskOver(s, s.pollers[p].task) then
        var t := s.pollers[p].task;
        MovePoller(s, p, if MayRead(s) && t < |s.tasks| && s.tasks[t] == Done(false) then Sleeping else Ended)
      else s
    case PollerCancelled(p) =>
      if p < |s.pollers| then MovePoller(s, p, Ended) else s
    case StartEnters => if s.holder.Free? then EnterStart(s) else s
    case StartResumes =>
      if s.holder.Starting? && s.holder.task < |s.tasks| && s.tasks[s.holder.task] == Done(false)
      then ResumeStart(s) else s
    case StartFails => if s.holder.Starting? then EnterClose(s) else s
    case CloseEnters => if s.holder.Free? then EnterClose(s) else s
    case CloseJoins(interrupted) => if s.holder.Closing? && Joined(s) then LeaveClose(s, interrupted) else s
  }

  function Run<V>(s: State<V>, events: seq<Event<V>>): State<V> { Fold((a, e) => Step(a, e), s, events) }

  // ---- the invariant ----

  /** Only the current task and the current poller can be alive. */
  predicate OneOfEach<V>(s: State<V>) {
    && (s.refresh.Some? ==> s.refresh.value < |s.tasks|)
    && (s.poll.Some? ==> s.poll.value < |s.pollers|)
    && (forall t | 0 <= t < |s.tasks| && !s.tasks[t].Done? :: s.refresh == Some(t))
    && (forall p | 0 <= p < |s.pollers| && !s.pollers[p].Ended? :: s.poll == Some(p))
  }

  predicate LockHeld<V>(s: State<V>) {
    && (s.holder.Starting? ==> !s.closed && s.refresh.Some? && (s.poll.Some? ==> PollerOver(s, s.poll.value)))
    && (s.holder.Closing? ==> s.closed)
  }

  predicate Reported<V>(s: State<V>) {
    && (s.success ==> s.supported.Supported? && s.data.Some?)
    && (s.supported.Unsupported? ==> forall t | 0 <= t < |s.tasks| :: s.tasks[t].Done?)
    && (s.data.Some? ==> !s.supported.Unknown?)
  }

  predicate ReadsAreOfThisOpening<V>(s: State<V>) {
    forall t | 0 <= t < |s.tasks| && s.tasks[t].Reading? :: s.tasks[t].begun == s.closes
  }

  predicate Inv<V>(s: State<V>) { OneOfEach(s) && LockHeld(s) && Reported(s) && ReadsAreOfThisOpening(s) }

  lemma RequestKeepsInv<V>(s: State<V>)
    requires Inv(s)
    ensures Inv(Request(s)) && Request(s).holder == s.holder
    ensures MayRead(s) ==> Request(s).refresh.Some?
  {
  }

  lemma ReadEndsKeepsInv<V>(s: State<V>, t: nat, answer: Answer<V>)
    requires Inv(s) && t < |s.tasks| && s.tasks[t].Reading?
    ensures Inv(Publish(EndTask(s, t, false), answer))
  {
  }

  lemma PollerMoveKeepsInv<V>(s: State<V>, p: nat, to: Poller)
    requires Inv(s) && p < |s.pollers| && (to.Ended? || !s.pollers[p].Ended?)
    ensures Inv(MovePoller(s, p, to))
  {
  }

  lemma EnterStartKeepsInv<V>(s: State<V>)
    requires Inv(s) && s.holder.Free?
    ensures Inv(EnterStart(s))
  {
    RequestKeepsInv(s.(closed := false));
  }

  lemma StartOrCloseKeepsInv<V>(s: State<V>)
    requires Inv(s)
    ensures s.holder.Starting? ==> Inv(ResumeStart(s))
    ensures !s.holder.Closing? ==> Inv(EnterClose(s))
    ensures Joined(s) ==> forall interrupted :: Inv(LeaveClose(s, interrupted))
  {
  }

  lemma StepKeepsInv<V>(s: State<V>, e: Event<V>)
    requires Inv(s)
    ensures Inv(Step(s, e))
  {
    match e
    case RequestMade => RequestKeepsInv(s);
    case TaskRuns(t) =>
    case ReadEnds(t, answer) => if t < |s.tasks| && s.tasks[t].Reading? { ReadEndsKeepsInv(s, t, answer); }
    case TaskCancelled(t) =>
    case PollerWakes(p) =>
      RequestKeepsInv(s);
      if p < |s.pollers| && s.pollers[p].Sleeping? {
        PollerMoveKeepsInv(s, p, Ended);
        if MayRead(s) { PollerMoveKeepsInv(Request(s), p, Awaiting(Request(s).refresh.value)); }
      }
    case PollerResumes(p) =>
      if p < |s.pollers| && s.pollers[p].Awaiting? {
        PollerMoveKeepsInv(s, p, Ended);
        PollerMoveKeepsInv(s, p, Sleeping);
      }
    case PollerCancelled(p) => if p < |s.pollers| { PollerMoveKeepsInv(s, p, Ended); }
    case StartEnters => if s.holder.Free? { EnterStartKeepsInv(s); }
    case StartResumes => StartOrCloseKeepsInv(s);
    case StartFails => StartOrCloseKeepsInv(s);
    case CloseEnters => StartOrCloseKeepsInv(s);
    case CloseJoins(_) => StartOrCloseKeepsInv(s);
  }

  lemma {:induction false} RunKeepsInv<V>(s: State<V>, events: seq<Event<V>>)
    requires Inv(s)
    ensures Inv(Run(s, events))
  {
    if events != [] {
      RunKeepsInv(s, events[..|events| - 1]);
      StepKeepsInv(Run(s, events[..|events| - 1]), events[|events| - 1]);
    }
  }

  // ---- what holds on every run ----

  /** At most one read is in flight, and at most one poller lives. */
  lemma OneReadInFlight<V>(events: seq<Event<V>>, t: nat, u: nat)
    requires t < |Run(Fresh<V>(), events).tasks| && Run(Fresh<V>(), events).tasks[t].Reading?
    requires u < |Run(Fresh<V>(), events).tasks| && Run(Fresh<V>(), events).tasks[u].Reading?
    ensures t == u
  {
    RunKeepsInv(Fresh<V>(), events);
  }

  lemma OnePoller<V>(events: seq<Event<V>>, p: nat, q: nat)
    requires p < |Run(Fresh<V>(), events).pollers| && !Run(Fresh<V>(), events).pollers[p].Ended?
    requires q < |Run(Fresh<V>(), events).pollers| && !Run(Fresh<V>(), events).pollers[q].Ended?
    ensures p == q
  {
    RunKeepsInv(Fresh<V>(), events);
  }

  /** A reported success means a supported root and a validated snapshot. */
  lemma SuccessMeansData<V>(events: seq<Event<V>>)
    requires Run(Fresh<V>(), events).success
    ensures Run(Fresh<V>(), events).supported.Supported? && Run(Fresh<V>(), events).data.Some?
  {
    RunKeepsInv(Fresh<V>(), events);
  }

  predicate MayBecome(a: Support, b: Support) { a == b || a.Unknown? || (a.Supported? && b.Unsupported?) }

  /** Support is learnt and lost, never regained: Unknown to Supported to Unsupported, or straight there. */
  lemma {:induction false} SupportOnlyMovesForward<V>(s: State<V>, events: seq<Event<V>>)
    ensures MayBecome(s.supported, Run(s, events).supported)
  {
    if events != [] { SupportOnlyMovesForward(s, events[..|events| - 1]); }
  }

  /** What a task can become, and that closes only accumulate. */
  ghost predicate TaskFollows<V>(s: State<V>, later: State<V>, t: nat) {
    && s.closes <= later.closes
    && (t < |s.tasks| ==>
          && t < |later.tasks|
          && (s.tasks[t].Reading? ==> later.tasks[t] == s.tasks[t] || later.tasks[t].Done?)
          && (s.tasks[t].Done? ==> later.tasks[t] == s.tasks[t]))
  }

  lemma TaskStep<V>(s: State<V>, e: Event<V>, t: nat)
    ensures TaskFollows(s, Step(s, e), t)
  {
  }

  lemma {:induction false} TasksOnlyFinish<V>(s: State<V>, events: seq<Event<V>>, t: nat)
    ensures TaskFollows(s, Run(s, events), t)
  {
    if events != [] {
      TasksOnlyFinish(s, events[..|events| - 1], t);
      TaskStep(Run(s, events[..|events| - 1]), events[|events| - 1], t);
    }
  }

  /** No read survives a close: one in flight before is over, and so publishes nothing, once a close has completed. */
  lemma NoReadSurvivesAClose<V>(before: seq<Event<V>>, after: seq<Event<V>>, t: nat)
    requires t < |Run(Fresh<V>(), before).tasks| && Run(Fresh<V>(), before).tasks[t].Reading?
    requires Run(Fresh<V>(), before).closes < Run(Fresh<V>(), before + after).closes
    ensures t < |Run(Fresh<V>(), before + after).tasks| && Run(Fresh<V>(), before + after).tasks[t].Done?
  {
    FoldJoins((a, e) => Step(a, e), Fresh<V>(), before, after);
    RunKeepsInv(Fresh<V>(), before);
    RunKeepsInv(Run(Fresh<V>(), before), after);
    TasksOnlyFinish(Run(Fresh<V>(), before), after, t);
  }

  predicate Quiet<V(==)>(s: State<V>, later: State<V>) {
    && later.closed && later.data == s.data && later.supported == s.supported && |later.tasks| == |s.tasks|
    && (later.success ==> s.success)
  }

  lemma ClosedStep<V>(s: State<V>, e: Event<V>)
    requires Inv(s) && s.closed && !e.StartEnters?
    ensures Quiet(s, Step(s, e))
  {
  }

  /** Until the next start a closed coordinator publishes nothing and begins nothing. */
  lemma {:induction false} ClosedIsQuiet<V>(s: State<V>, events: seq<Event<V>>)
    requires Inv(s) && s.closed && StartEnters !in events
    ensures Quiet(s, Run(s, events))
  {
    if events != [] {
      var front, last := events[..|events| - 1], events[|events| - 1];
      assert last in events;
      ClosedIsQuiet(s, front);
      RunKeepsInv(s, front);
      ClosedStep(Run(s, front), last);
    }
  }

  /** Once the root is unsupported no further read is begun, and nothing that is reported changes. */
  lemma {:induction false} UnsupportedIsFinal<V>(s: State<V>, events: seq<Event<V>>)
    requires Inv(s) && s.supported.Unsupported?
    ensures
      var later := Run(s, events);
      later.supported.Unsupported? && later.tasks == s.tasks && later.data == s.data && !later.success
  {
    if events != [] {
      var front := events[..|events| - 1];
      UnsupportedIsFinal(s, front);
      RunKeepsInv(s, front);
      UnsupportedStep(Run(s, front), events[|events| - 1]);
    }
  }

  lemma UnsupportedStep<V>(s: State<V>, e: Event<V>)
    requires Inv(s) && s.supported.Unsupported?
    ensures Step(s, e).supported.Unsupported? && Step(s, e).tasks == s.tasks && Step(s, e).data == s.data
    ensures !Step(s, e).success
  {
  }

  // ---- what gets done ----

  predicate Resting<V>(s: State<V>) {
    (s.refresh.Some? ==> TaskOver(s, s.refresh.value)) && (s.poll.Some? ==> PollerOver(s, s.poll.value))
  }

  lemma ThreeSteps<V>(s: State<V>, a: Event<V>, b: Event<V>, c: Event<V>)
    ensures Run(s, [a, b, c]) == Step(Step(Step(s, a), b), c)
  {
    var none: seq<Event<V>> := [];
    FoldEnds((x, e) => Step(x, e), s, none, a);
    FoldEnds((x, e) => Step(x, e), s, [a], b);
    FoldEnds((x, e) => Step(x, e), s, [a, b], c);
    assert none + [a] == [a] && [a] + [b] == [a, b] && [a, b] + [c] == [a, b, c];
  }

  lemma AStartAsks<V>(s: State<V>)
    requires Inv(s) && s.holder.Free? && !s.supported.Unsupported? && Resting(s)
    ensures
      var t := |s.tasks|;
      Step(s, StartEnters) == s.(closed := false, tasks := s.tasks + [Created], refresh := Some(t), holder := Starting(t))
  {
  }

  lemma AReadPublishes<V>(s: State<V>, t: nat, value: V)
    requires !s.closed && !s.supported.Unsupported? && t < |s.tasks| && s.tasks[t].Created?
    ensures Step(Step(s, TaskRuns(t)), ReadEnds(t, Answered(value)))
      == s.(tasks := s.tasks[t := Done(false)], supported := Supported, data := Some(value), success := true)
  {
  }

  /** Requests made while a read is under way change nothing: they share it. */
  lemma RequestsShareARead<V>(s: State<V>, t: nat)
    requires Inv(s) && t < |s.tasks| && !s.tasks[t].Done?
    ensures Step(s, RequestMade) == s
  {
  }

  /** Asked while no read is under way, an open coordinator, with or without a poller, reads once and publishes the answer. */
  lemma ARequestIsAnswered<V>(s: State<V>, value: V)
    requires Inv(s) && MayRead(s) && (s.refresh.Some? ==> TaskOver(s, s.refresh.value))
    ensures
      var t := |s.tasks|;
      var later := Run(s, [RequestMade, TaskRuns(t), ReadEnds(t, Answered(value))]);
      && |later.tasks| == t + 1 && later.tasks[t] == Done(false)
      && later.data == Some(value) && later.success && later.supported.Supported?
  {
    var t := |s.tasks|;
    ThreeSteps(s, RequestMade, TaskRuns(t), ReadEnds(t, Answered(value)));
    AReadPublishes(Step(s, RequestMade), t, value);
  }

  /** A start at rest reads first and polls only then; it reopens a closed coordinator. */
  lemma AStartReadsThenPolls<V>(s: State<V>, value: V)
    requires Inv(s) && s.holder.Free? && !s.supported.Unsupported? && Resting(s)
    ensures
      var t, p := |s.tasks|, |s.pollers|;
      var read := Run(s, [StartEnters, TaskRuns(t), ReadEnds(t, Answered(value))]);
      var later := Step(read, StartResumes);
      && read.pollers == s.pollers && !read.closed
      && later.data == Some(value) && later.success && later.holder.Free?
      && later.pollers == s.pollers + [Sleeping] && later.poll == Some(p)
  {
    var t := |s.tasks|;
    ThreeSteps(s, StartEnters, TaskRuns(t), ReadEnds(t, Answered(value)));
    AStartAsks(s);
    AReadPublishes(Step(s, StartEnters), t, value);
  }

  /** The end of a read in an open coordinator, answered or failed. */
  lemma AReadEnds<V>(s: State<V>, t: nat, answer: Answer<V>)
    requires !s.closed && t < |s.tasks| && s.tasks[t].Reading?
    ensures
      var later := Step(s, ReadEnds(t, answer));
      && later.tasks == s.tasks[t := Done(false)] && later.closed == s.closed
      && match answer
         case Answered(value) => later.data == Some(value) && later.success
                                 && later.supported == if s.supported.Unknown? then Supported else s.supported
         case Failed(fieldMissing) => later.data == s.data && !later.success
                                      && later.supported == if fieldMissing then Unsupported else s.supported
  {
  }

  /** When its interval elapses the poller asks for a read, or joins the one under way. */
  lemma AWokenPollerReads<V>(s: State<V>, p: nat)
    requires Inv(s) && MayRead(s) && p < |s.pollers| && s.pollers[p].Sleeping?
    ensures
      var later := Step(s, PollerWakes(p));
      && later.refresh.Some? && later.refresh.value < |later.tasks| && !later.tasks[later.refresh.value].Done?
      && later.pollers == s.pollers[p := Awaiting(later.refresh.value)]
      && (if s.refresh.Some? && !TaskOver(s, s.refresh.value)
          then later.refresh == s.refresh && later.tasks == s.tasks
          else later.refresh == Some(|s.tasks|) && later.tasks == s.tasks + [Created])
  {
  }

  /** When its read is over, the poller sleeps on while the coordinator is open and supported, and ends otherwise. */
  lemma ARelievedPollerGoesOnIff<V>(s: State<V>, p: nat)
    requires p < |s.pollers| && s.pollers[p].Awaiting? && s.pollers[p].task < |s.tasks| && s.tasks[s.pollers[p].task].Done?
    ensures
      var later := Step(s, PollerResumes(p));
      later == MovePoller(s, p, if MayRead(s) && s.tasks[s.pollers[p].task] == Done(false) then Sleeping else Ended)
  {
  }

  /**
   * One interval of a started coordinator, with no read under way when it elapses: it reads; an answer is published
   * and a failure reported with the old snapshot kept; then it sleeps on, unless the root turned out unsupported.
   */
  lemma ATimerReads<V>(s: State<V>, p: nat, answer: Answer<V>)
    requires Inv(s) && MayRead(s) && p < |s.pollers| && s.pollers[p].Sleeping?
    requires s.refresh.Some? ==> TaskOver(s, s.refresh.value)
    ensures
      var t := |s.tasks|;
      var later := Step(Run(s, [PollerWakes(p), TaskRuns(t), ReadEnds(t, answer)]), PollerResumes(p));
      && !later.closed && later.tasks == s.tasks + [Done(false)]
      && match answer
         case Answered(value) =>
           later.data == Some(value) && later.success && later.supported.Supported? && later.pollers == s.pollers
         case Failed(fieldMissing) =>
           && later.data == s.data && !later.success
           && later.supported == (if fieldMissing then Unsupported else s.supported)
           && later.pollers == s.pollers[p := if fieldMissing then Ended else Sleeping]
  {
    var t := |s.tasks|;
    ThreeSteps(s, PollerWakes(p), TaskRuns(t), ReadEnds(t, answer));
    AWokenPollerReads(s, p);
    var reading := Step(Step(s, PollerWakes(p)), TaskRuns(t));
    assert reading.tasks == s.tasks + [Reading(s.closes)];
    AReadEnds(reading, t, answer);
    ARelievedPollerGoesOnIff(Step(reading, ReadEnds(t, answer)), p);
  }

  /** A poller whose interval elapses during a read waits for it, and sleeps on once it is answered. */
  lemma ATimerJoinsARead<V>(s: State<V>, p: nat, t: nat, value: V)
    requires Inv(s) && MayRead(s) && p < |s.pollers| && s.pollers[p].Sleeping? && t < |s.tasks| && s.tasks[t].Reading?
    ensures
      var later := Run(s, [PollerWakes(p), ReadEnds(t, Answered(value)), PollerResumes(p)]);
      && later.tasks == s.tasks[t := Done(false)] && later.pollers == s.pollers
      && later.data == Some(value) && later.success
  {
    ThreeSteps(s, PollerWakes(p), ReadEnds(t, Answered(value)), PollerResumes(p));
    AWokenPollerReads(s, p);
    AReadEnds(Step(s, PollerWakes(p)), t, Answered(value));
    ARelievedPollerGoesOnIff(Step(Step(s, PollerWakes(p)), ReadEnds(t, Answered(value))), p);
  }

  /** Over any number of intervals a started coordinator publishes the last answer and is still polling. */
  lemma {:induction false} TheTimerGoesOn<V>(s: State<V>, p: nat, values: seq<V>)
    requires Inv(s) && MayRead(s) && p < |s.pollers| && s.pollers[p].Sleeping? && values != []
    requires s.refresh.Some? ==> TaskOver(s, s.refresh.value)
    ensures
      var later := Intervals(s, p, values);
      && later.data == Some(values[|values| - 1]) && later.success && later.pollers == s.pollers
      && later.tasks == s.tasks + Over(|values|) && MayRead(later) && Inv(later)
      && (later.refresh.Some? ==> TaskOver(later, later.refresh.value))
  {
    var n := |values| - 1;
    var before := Intervals(s, p, values[..n]);
    if n > 0 {
      TheTimerGoesOn(s, p, values[..n]);
    } else {
      assert s.tasks + Over(0) == s.tasks;
    }
    ATimerReads(before, p, Answered(values[n]));
    IntervalKeepsInv(before, p, values[n]);
    assert s.tasks + Over(n) + [Done(false)] == s.tasks + Over(n + 1);
  }

  function Over(n: nat): seq<Task> { seq(n, _ => Done(false)) }

  function Interval<V>(s: State<V>, p: nat, value: V): State<V> {
    var t := |s.tasks|;
    Step(Run(s, [PollerWakes(p), TaskRuns(t), ReadEnds(t, Answered(value))]), PollerResumes(p))
  }

  function Intervals<V>(s: State<V>, p: nat, values: seq<V>): State<V> {
    if values == [] then s else Interval(Intervals(s, p, values[..|values| - 1]), p, values[|values| - 1])
  }

  lemma IntervalKeepsInv<V>(s: State<V>, p: nat, value: V)
    requires Inv(s)
    ensures Inv(Interval(s, p, value))
  {
    var t := |s.tasks|;
    var events := [PollerWakes(p), TaskRuns(t), ReadEnds(t, Answered(value))];
    RunKeepsInv(s, events);
    StepKeepsInv(Run(s, events), PollerResumes(p));
  }

  /** A start whose first read fails polls all the same, unless the root turned out unsupported. */
  lemma AStartAfterAFailedRead<V>(s: State<V>, fieldMissing: bool)
    requires Inv(s) && s.holder.Free? && !s.supported.Unsupported? && Resting(s)
    ensures
      var t := |s.tasks|;
      var later := Step(Run(s, [StartEnters, TaskRuns(t), ReadEnds(t, Failed(fieldMissing))]), StartResumes);
      && !later.closed && !later.success && later.data == s.data && later.holder.Free?
      && later.supported == (if fieldMissing then Unsupported else s.supported)
      && later.pollers == s.pollers + if fieldMissing then [] else [Sleeping]
  {
    var t := |s.tasks|;
    ThreeSteps(s, StartEnters, TaskRuns(t), ReadEnds(t, Failed(fieldMissing)));
    AStartAsks(s);
    AReadEnds(Step(Step(s, StartEnters), TaskRuns(t)), t, Failed(fieldMissing));
  }

  // ---- what a close leaves reported ----

  /** A join is interrupted while a success is reported. */
  predicate LeavesSuccess<V>(s: State<V>, e: Event<V>) {
    e == CloseJoins(true) && s.holder.Closing? && Joined(s) && s.success
  }

  /** If a close has completed in between, it left no success reported. */
  predicate ReportsNoSuccess<V>(before: State<V>, after: State<V>) {
    after.closes > before.closes ==> after.closed && !after.success
  }

  /** A step that completes a close leaves a success reported exactly when it is an interrupted join that finds one. */
  lemma ClosingStepReports<V>(s: State<V>, e: Event<V>)
    requires Inv(s)
    ensures ReportsNoSuccess(s, Step(s, e)) <==> !LeavesSuccess(s, e)
  {
  }

  ghost predicate ClosesReportNoSuccess<V(!new)>(events: seq<Event<V>>) {
    forall k | 0 <= k < |events| :: ReportsNoSuccess(Run(Fresh<V>(), events[..k]), Run(Fresh<V>(), events[..k + 1]))
  }

  ghost predicate NeverLeavesSuccess<V(!new)>(events: seq<Event<V>>) {
    forall k | 0 <= k < |events| :: !LeavesSuccess(Run(Fresh<V>(), events[..k]), events[k])
  }

  lemma NextOfRun<V>(events: seq<Event<V>>, k: nat)
    requires k < |events|
    ensures Run(Fresh<V>(), events[..k + 1]) == Step(Run(Fresh<V>(), events[..k]), events[k])
    ensures Inv(Run(Fresh<V>(), events[..k]))
  {
    assert events[..k + 1] == events[..k] + [events[k]];
    FoldEnds((a, e) => Step(a, e), Fresh<V>(), events[..k], events[k]);
    RunKeepsInv(Fresh<V>(), events[..k]);
  }

  /**
   * Every close that completes leaves no success reported, all along a run, exactly when no join is interrupted
   * while a success is reported.
   */
  lemma ClosesReportNoSuccessIff<V(!new)>(events: seq<Event<V>>)
    ensures ClosesReportNoSuccess(events) <==> NeverLeavesSuccess(events)
  {
    if ClosesReportNoSuccess(events) {
      forall k | 0 <= k < |events|
        ensures !LeavesSuccess(Run(Fresh<V>(), events[..k]), events[k])
      {
        NextOfRun(events, k);
        assert ReportsNoSuccess(Run(Fresh<V>(), events[..k]), Run(Fresh<V>(), events[..k + 1]));
        ClosingStepReports(Run(Fresh<V>(), events[..k]), events[k]);
      }
    }
    if NeverLeavesSuccess(events) {
      forall k | 0 <= k < |events|
        ensures ReportsNoSuccess(Run(Fresh<V>(), events[..k]), Run(Fresh<V>(), events[..k + 1]))
      {
        NextOfRun(events, k);
        ClosingStepReports(Run(Fresh<V>(), events[..k]), events[k]);
      }
    }
  }

  /** `e` begins a close: that of an owner, or of a start that failed. */
  predicate BeginsClose<V>(s: State<V>, e: Event<V>) {
    (e == CloseEnters && s.holder.Free?) || (e == StartFails && s.holder.Starting?)
  }

  lemma {:induction false} WhileClosing<V>(s: State<V>, events: seq<Event<V>>)
    requires s.holder.Closing? && s.closed && Run(s, events).closes == s.closes
    ensures
      var later := Run(s, events);
      later.holder.Closing? && later.closed && later.success == s.success
      && later.data == s.data && later.supported == s.supported
  {
    if events != [] {
      var front := events[..|events| - 1];
      TasksOnlyFinish(s, front, 0);
      TaskStep(Run(s, front), events[|events| - 1], 0);
      WhileClosing(s, front);
    }
  }

  /**
   * What a close comes to, whatever happens until it can join: it leaves a success reported exactly when one was
   * reported before and its join is interrupted.
   */
  lemma ACloseReports<V>(s: State<V>, begin: Event<V>, events: seq<Event<V>>, interrupted: bool)
    requires Inv(s) && BeginsClose(s, begin) && (s.poll.Some? || s.refresh.Some?)
    requires
      var joining := Run(Step(s, begin), events);
      joining.closes == s.closes && Joined(joining)
    ensures
      var later := Step(Run(Step(s, begin), events), CloseJoins(interrupted));
      && later.closes == s.closes + 1 && later.closed && later.holder.Free?
      && (later.success <==> interrupted && s.success)
      && later.data == s.data && later.supported == s.supported
  {
    WhileClosing(Step(s, begin), events);
  }

  /** With nothing to join a close is over at once, and leaves no success reported. */
  lemma ACloseOfNothingReports<V>(s: State<V>, begin: Event<V>)
    requires BeginsClose(s, begin) && s.poll.None? && s.refresh.None?
    ensures
      var later := Step(s, begin);
      later.closes == s.closes + 1 && later.closed && !later.success && later.holder.Free?
  {
  }

  /** What is reported after a close stays so until the next start or close. */
  lemma {:induction false} ClosedGoesOnReporting<V>(s: State<V>, events: seq<Event<V>>)
    requires Inv(s) && s.closed && s.holder.Free? && StartEnters !in events && CloseEnters !in events
    ensures
      var later := Run(s, events);
      && later.closed && later.holder.Free?
      && later.success == s.success && later.data == s.data && later.supported == s.supported
  {
    if events != [] {
      var front, last := events[..|events| - 1], events[|events| - 1];
      assert last in events;
      ClosedGoesOnReporting(s, front);
    }
  }

  /** A coordinator at rest but for its sleeping poller is closed, and cancelled again while it joins. */
  lemma AnInterruptedClose<V>(s: State<V>, p: nat)
    requires Inv(s) && s.holder.Free? && s.poll == Some(p) && (s.refresh.Some? ==> TaskOver(s, s.refresh.value))
    ensures
      var later := Run(s, [CloseEnters, PollerCancelled(p), CloseJoins(true)]);
      && later.closed && later.closes == s.closes + 1 && later.holder.Free? && Resting(later)
      && later.success == s.success && later.supported == s.supported && later.data == s.data
  {
    ThreeSteps(s, CloseEnters, PollerCancelled(p), CloseJoins(true));
  }

  /** The run in which a closed coordinator at rest reports success. */
  lemma AClosedCoordinatorCanReportSuccess<V>(value: V)
    ensures
      var s := Run(Fresh<V>(), [StartEnters, TaskRuns(0), ReadEnds(0, Answered(value)), StartResumes]
                               + [CloseEnters, PollerCancelled(0), CloseJoins(true)]);
      && s.closed && s.closes == 1 && s.holder.Free? && Resting(s)
      && s.success && s.supported.Supported? && s.data == Some(value)
  {
    var opening := [StartEnters, TaskRuns(0), ReadEnds(0, Answered(value)), StartResumes];
    var closing := [CloseEnters, PollerCancelled(0), CloseJoins(true)];
    var started := Run(Fresh<V>(), opening);
    AStart(value);
    RunKeepsInv(Fresh<V>(), opening);
    FoldJoins((a, e) => Step(a, e), Fresh<V>(), opening, closing);
    AnInterruptedClose(started, 0);
  }

  lemma AStart<V>(value: V)
    ensures
      var s := Run(Fresh<V>(), [StartEnters, TaskRuns(0), ReadEnds(0, Answered(value)), StartResumes]);
      s == State(Some(value), true, Supported, false, [Done(false)], Some(0), [Sleeping], Some(0), Free, 0)
  {
    var start := Fresh<V>();
    ThreeSteps(start, StartEnters, TaskRuns(0), ReadEnds(0, Answered(value)));
    AStartAsks(start);
    AReadPublishes(Step(start, StartEnters), 0, value);
    var reading := [StartEnters, TaskRuns(0), ReadEnds(0, Answered(value))];
    FoldEnds((a, e) => Step(a, e), start, reading, StartResumes);
    assert reading + [StartResumes] == [StartEnters, TaskRuns(0), ReadEnds(0, Answered(value)), StartResumes];
  }

  // ---- the coordinator object ----

  class SemanticSnapshotCoordinator<V> {
    var data: Option<V>
    var lastUpdateSuccess: bool
    var supported: Support
    var closed: bool
    var tasks: seq<Task>
    var refreshTask: Option<nat>
    var pollers: seq<Poller>
    var pollTask: Option<nat>
    var holder: Holder
    var closes: nat

    ghost function View(): State<V>
      reads this
    {
      State(data, lastUpdateSuccess, supported, closed, tasks, refreshTask, pollers, pollTask, holder, closes)
    }

    constructor ()
      ensures View() == Fresh<V>()
    {
      data, lastUpdateSuccess, supported, closed := None, false, Unknown, false;
      tasks, refreshTask, pollers, pollTask := [], None, [], None;
      holder, closes := Free, 0;
    }

    method FinishRefresh(t: nat, answer: Answer<V>)
      requires t < |tasks|
      modifies this
      ensures View() == Publish(EndTask(old(View()), t, false), answer)
    {
      tasks := tasks[t := Done(false)];
      match answer {
        case Failed(fieldMissing) =>
          if closed { return; }
          lastUpdateSuccess := false;
          supported := NextSupport(supported, fieldMissing, false);
        case Answered(value) =>
          if closed { return; }
          supported := NextSupport(supported, false, true);
          data := Some(value);
          lastUpdateSuccess := true;
      }
    }

    method RequestRefresh()
      modifies this
      ensures View() == Request(old(View()))
    {
      if closed || supported.Unsupported? { return; }
      if refreshTask.None? || (refreshTask.value < |tasks| ==> tasks[refreshTask.value].Done?) {
        tasks, refreshTask := tasks + [Created], Some(|tasks|);
      }
    }

    method WakePoller(p: nat)
      requires p < |pollers|
      modifies this
      ensures View() == Wake(old(View()), p)
    {
      var mayRead := !closed && !supported.Unsupported?;
      RequestRefresh();
      pollers := pollers[p := if mayRead && refreshTask.Some? then Awaiting(refreshTask.value) else Ended];
    }

    method EnterStartSection()
      modifies this
      ensures View() == EnterStart(old(View()))
    {
      if pollTask.Some? && pollTask.value < |pollers| && !pollers[pollTask.value].Ended? { return; }
      closed := false;
      RequestRefresh();
      if !supported.Unsupported? && refreshTask.Some? { holder := Starting(refreshTask.value); }
    }

    method ResumeStartSection()
      modifies this
      ensures View() == ResumeStart(old(View()))
    {
      if !supported.Unsupported? {
        pollers, pollTask := pollers + [Sleeping], Some(|pollers|);
      }
      holder := Free;
    }

    method EnterCloseSection()
      modifies this
      ensures View() == EnterClose(old(View()))
    {
      closed := true;
      if pollTask.None? && refreshTask.None? {
        lastUpdateSuccess := false;
        holder, closes := Free, closes + 1;
      } else {
        holder := Closing;
      }
    }

    method LeaveCloseSection(interrupted: bool)
      modifies this
      ensures View() == LeaveClose(old(View()), interrupted)
    {
      if !interrupted {
        pollTask, refreshTask := None, None;
        lastUpdateSuccess := false;
      }
      holder, closes := Free, closes + 1;
    }

    /** One step of the event loop, and the invariant that every run keeps. */
    method Perform(e: Event<V>)
      requires Inv(View())
      modifies this
      ensures View() == Step(old(View()), e) && Inv(View())
    {
      StepKeepsInv(View(), e);
      match e {
        case RequestMade => RequestRefresh();
        case TaskRuns(t) => if t < |tasks| && tasks[t].Created? { tasks := tasks[t := Reading(closes)]; }
        case ReadEnds(t, answer) => if t < |tasks| && tasks[t].Reading? { FinishRefresh(t, answer); }
        case TaskCancelled(t) => if t < |tasks| && !tasks[t].Done? { tasks := tasks[t := Done(true)]; }
        case PollerWakes(p) => if p < |pollers| && pollers[p].Sleeping? { WakePoller(p); }
        case PollerResumes(p) =>
          if p < |pollers| && pollers[p].Awaiting? && (pollers[p].task < |tasks| ==> tasks[pollers[p].task].Done?) {
            var t := pollers[p].task;
            var again := !closed && !supported.Unsupported? && t < |tasks| && tasks[t] == Done(false);
            pollers := pollers[p := if again then Sleeping else Ended];
          }
        case PollerCancelled(p) => if p < |pollers| { pollers := pollers[p := Ended]; }
        case StartEnters => if holder.Free? { EnterStartSection(); }
        case StartResumes =>
          if holder.Starting? && holder.task < |tasks| && tasks[holder.task] == Done(false) { ResumeStartSection(); }
        case StartFails => if holder.Starting? { EnterCloseSection(); }
        case CloseEnters => if holder.Free? { EnterCloseSection(); }
        case CloseJoins(interrupted) =>
          if holder.Closing? && (refreshTask.Some? && refreshTask.value < |tasks| ==> tasks[refreshTask.value].Done?)
             && (pollTask.Some? && pollTask.value < |pollers| ==> pollers[pollTask.value].Ended?) {
            LeaveCloseSection(interrupted);
          }
      }
    }
  }
}

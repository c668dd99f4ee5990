/**
  The guard in front of every zone write.

  A climate command may write several registers, and anything may happen while the
  gateway answers each of them: the guard is run again before every one.  `sent` is the
  record of what left, with the coordinator's history at that moment.
 */
module WriteFence {
  import opened Prelude
  import opened ZoneRetention
  import opened SemanticCoordinator

  datatype Register =
    | Mode | TargetTempDesired | TargetTemp | QuickVetoTemp | QuickVetoDuration
    | HolidayStartDate | HolidayEndDate | HolidaySetpoint | HolidayStartTime | HolidayEndTime
    | StateRegister(address: int)

  /** The status coordinator: did its last refresh succeed, and is the admission it holds trusted, if it holds one. */
  datatype Status = Status(lastUpdateSuccess: bool, admission: Option<bool>) {
    predicate Trusted() { lastUpdateSuccess && admission == Some(true) }
  }

  datatype Refusal = NotWritable | NoClient | NoAddress | BadZone | Stale | Unavailable | NotTrusted | Malformed

  datatype Result = Written | Refused(why: Refusal) | GatewayError

  /** While one write is awaited: what the coordinator lives through, the status afterwards, the gateway's verdict. */
  datatype Answer = Answer(events: seq<Event>, status: Status, ok: bool)

  datatype Lookup = Found | Missing | NotARecord

  /** `_zone()`: the first record with the id; an element that is no record makes the lookup raise. */
  function FindZone(items: seq<Item>, z: string): Lookup {
    if items == [] then Missing
    else if items[0].Junk? then NotARecord
    else if items[0].Named(z) then Found
    else FindZone(items[1..], z)
  }

  /** The entity's fixed parts: its canonical zone id, the zone's register instance, and where to write. */
  datatype Target = Target(zone: string, instance: Option<nat>, client: bool, busAddress: Option<int>)

  /** The first objection to a write, in the order they are raised. */
  function Objection(t: Target, c: Cache, status: Status, r: Register): Option<Refusal> {
    if r.StateRegister? then Some(NotWritable)
    else if !t.client then Some(NoClient)
    else if t.busAddress == None then Some(NoAddress)
    else if t.instance == None then Some(BadZone)
    else if !c.lastUpdateSuccess || t.zone in c.stale then Some(Stale)
    else
      match (if c.data == None then Missing else FindZone(c.data.value.zones, t.zone))
      case Missing => Some(Unavailable)
      case NotARecord => Some(Malformed)
      case Found => if status.Trusted() then None else Some(NotTrusted)
  }

  lemma {:induction false} FoundIsListed(items: seq<Item>, z: string)
    ensures FindZone(items, z) == Found ==> z in Ids(items)
    ensures FindZone(items, z) == Missing ==> z !in Ids(items)
  {
    if items != [] && !items[0].Junk? {
      FoundIsListed(items[1..], z);
      assert items == [items[0]] + items[1..];
      IdsOfConcat([items[0]], items[1..]);
      IdsOfOne(items[0]);
    }
  }

  /** The zone is listed, with records only ahead of it. */
  predicate InReach(items: seq<Item>, z: string) {
    exists i :: 0 <= i < |items| && items[i].Named(z) && forall j | 0 <= j < i :: items[j].Zone?
  }

  lemma {:induction false} FoundIffInReach(items: seq<Item>, z: string)
    ensures FindZone(items, z) == Found <==> InReach(items, z)
  {
    if items != [] {
      var rest := items[1..];
      FoundIffInReach(rest, z);
      if items[0].Named(z) {
        assert InReach(items, z);
      } else if items[0].Zone? {
        if InReach(rest, z) {
          var i :| 0 <= i < |rest| && rest[i].Named(z) && forall j | 0 <= j < i :: rest[j].Zone?;
          assert items[i + 1].Named(z) && forall j | 0 <= j < i + 1 :: items[j].Zone? by {
            assert forall j | 0 < j < i + 1 :: items[j] == rest[j - 1];
          }
        }
        if InReach(items, z) {
          var i :| 0 <= i < |items| && items[i].Named(z) && forall j | 0 <= j < i :: items[j].Zone?;
          assert rest[i - 1].Named(z) && forall j | 0 <= j < i - 1 :: rest[j].Zone?;
        }
      }
    }
  }

  /** The zone was in the latest full poll, or an event has named it since. */
  predicate Fresh(h: seq<Event>, z: string) {
    Seen(h, z) && Gaps(h, z) == 0
  }

  /**
    In every run: a configuration write of a complete target goes out iff the last refresh succeeded, admission is
    trusted and the zone can be looked up in the published list and is fresh.
   */
  lemma WritesGoOutIffFresh(t: Target, h: seq<Event>, status: Status, r: Register)
    ensures Objection(t, Run(h), status, r) == None <==>
              && !r.StateRegister? && t.client && t.busAddress.Some? && t.instance.Some?
              && Run(h).lastUpdateSuccess && status.Trusted()
              && Run(h).data.Some? && InReach(Run(h).data.value.zones, t.zone) && Fresh(h, t.zone)
  {
    StaleIffMissed(h, t.zone);
    if Run(h).data.Some? {
      FoundIffInReach(Run(h).data.value.zones, t.zone);
      FoundIsListed(Run(h).data.value.zones, t.zone);
      if t.zone in Ids(Run(h).data.value.zones) && t.zone !in Run(h).stale { PublishedAndNotStaleIsFresh(h, t.zone); }
    }
  }

  /** A complete target, and a register that may be written. */
  predicate Complete(t: Target, r: Register) {
    !r.StateRegister? && t.client && t.busAddress.Some? && t.instance.Some?
  }

  /**
    Which refusal a write meets: data that is stale or not refreshed comes before missing data, and that before a
    lack of trust, which is the objection exactly if nothing else stands in the way.
   */
  lemma RefusalsAre(t: Target, c: Cache, status: Status, r: Register)
    ensures Objection(t, c, status, r) == Some(NotWritable) <==> r.StateRegister?
    ensures Objection(t, c, status, r) == Some(Stale) <==> Complete(t, r) && (!c.lastUpdateSuccess || t.zone in c.stale)
    ensures Complete(t, r) && c.lastUpdateSuccess && t.zone !in c.stale ==>
              var found := if c.data == None then Missing else FindZone(c.data.value.zones, t.zone);
              && (Objection(t, c, status, r) == Some(Unavailable) <==> found == Missing)
              && (Objection(t, c, status, r) == Some(NotTrusted) <==> found == Found && !status.Trusted())
    ensures !Complete(t, r) ==>
              Objection(t, c, status, r) in {Some(NotWritable), Some(NoClient), Some(NoAddress), Some(BadZone)}
  {
  }

  /** Nothing goes out in any other state, not even past a malformed list. */
  lemma NothingGoesOutOtherwise(t: Target, h: seq<Event>, status: Status, r: Register)
    requires Objection(t, Run(h), status, r) == None
    ensures Run(h).lastUpdateSuccess && status.Trusted() && Fresh(h, t.zone) && !r.StateRegister?
  {
    FoundIsListed(Run(h).data.value.zones, t.zone);
    PublishedAndNotStaleIsFresh(h, t.zone);
  }

  datatype Preset = Schedule | Manual | QuickVeto | Away

  datatype Command =
    | SetTemperature(quickVeto: bool)
    | SetHvacMode
    | SetPreset(preset: Preset, holiday: bool)

  function CancelAway(holiday: bool): seq<Register> {
    if holiday then [HolidayStartDate, HolidayEndDate] else []
  }

  /** What a command writes, in order.  `quickVeto` and `holiday` are read once, when it starts. */
  function Plan(command: Command): seq<Register> {
    match command
    case SetTemperature(true) => [QuickVetoTemp]
    case SetTemperature(false) => [TargetTempDesired, TargetTemp]
    case SetHvacMode => [Mode]
    case SetPreset(Schedule, holiday) => CancelAway(holiday) + [Mode]
    case SetPreset(Manual, holiday) => CancelAway(holiday) + [Mode]
    case SetPreset(QuickVeto, _) => [QuickVetoTemp, QuickVetoDuration]
    case SetPreset(Away, _) => [HolidayEndDate, HolidaySetpoint, HolidayStartTime, HolidayEndTime, HolidayStartDate]
  }

  /** A write that left, with the coordinator's history and the status at that moment. */
  datatype Sent = Sent(register: Register, history: seq<Event>, status: Status)

  ghost predicate AllFresh(t: Target, sent: seq<Sent>) {
    forall s :: s in sent ==> s.status.Trusted() && Run(s.history).lastUpdateSuccess && Fresh(s.history, t.zone)
  }

  ghost function Registers(sent: seq<Sent>): seq<Register> {
    seq(|sent|, i requires 0 <= i < |sent| => sent[i].register)
  }

  class HelianthusZoneClimate {
    const coordinator: HelianthusSemanticCoordinator
    const target: Target
    var status: Status
    ghost var sent: seq<Sent>

    /** Every write that ever left was fenced. */
    ghost predicate Valid()
      reads this, coordinator
    {
      coordinator.Valid() && AllFresh(target, sent)
    }

    constructor (coordinator: HelianthusSemanticCoordinator, target: Target, status: Status)
      requires coordinator.Valid()
      ensures Valid() && sent == [] && this.coordinator == coordinator && this.target == target
    {
      this.coordinator, this.target, this.status := coordinator, target, status;
      sent := [];
    }

    method WriteExtRegister(r: Register, answer: Answer) returns (result: Result)
      requires Valid()
      modifies this`status, this`sent, coordinator
      ensures Valid()
      ensures var why := Objection(target, old(coordinator.State()), old(status), r);
              if why.Some? then
                result == Refused(why.value) && sent == old(sent) && coordinator.history == old(coordinator.history)
              else
                && result == (if answer.ok then Written else GatewayError)
                && sent == old(sent) + [Sent(r, old(coordinator.history), old(status))]
                && coordinator.history == old(coordinator.history) + answer.events
    {
      if r.StateRegister? { return Refused(NotWritable); }
      if !target.client { return Refused(NoClient); }
      if target.busAddress == None { return Refused(NoAddress); }
      if target.instance == None { return Refused(BadZone); }
      if !coordinator.lastUpdateSuccess { return Refused(Stale); }
      var stale := coordinator.ZoneIsStale(Some(target.zone));
      if stale { return Refused(Stale); }
      if coordinator.data == None { return Refused(Unavailable); }
      match FindZone(coordinator.data.value.zones, target.zone) {
        case Missing => return Refused(Unavailable);
        case NotARecord => return Refused(Malformed);
        case Found =>
      }
      if !status.Trusted() { return Refused(NotTrusted); }
      NothingGoesOutOtherwise(target, coordinator.history, status, r);
      sent := sent + [Sent(r, coordinator.history, status)];
      coordinator.Perform(answer.events);
      status := answer.status;
      return if answer.ok then Written else GatewayError;
    }

    /** A command writes its plan in order and stops at the first refusal or gateway error. */
    method Execute(command: Command, answers: seq<Answer>) returns (result: Result)
      requires Valid() && |answers| == |Plan(command)|
      modifies this`status, this`sent, coordinator
      ensures Valid()
      ensures |old(sent)| <= |sent| && sent[..|old(sent)|] == old(sent)
      ensures Registers(sent[|old(sent)|..]) <= Plan(command)
      ensures result == Written ==> Registers(sent[|old(sent)|..]) == Plan(command)
      ensures result.Refused? ==> Registers(sent[|old(sent)|..]) < Plan(command)
    {
      var plan := Plan(command);
      ghost var start := |sent|;
      result := Written;
      var i := 0;
      while i < |plan|
        invariant 0 <= i <= |plan| && Valid() && result == Written
        invariant |sent| == start + i && sent[..start] == old(sent)
        invariant Registers(sent[start..]) == plan[..i]
      {
        ghost var before := sent;
        result := WriteExtRegister(plan[i], answers[i]);
        if result.Refused? { return; }
        OneMoreSent(before, sent, start, plan, i);
        if result != Written { return; }
        i := i + 1;
      }
    }
  }

  lemma OneMoreSent(before: seq<Sent>, after: seq<Sent>, start: nat, plan: seq<Register>, i: nat)
    requires i < |plan| && |before| == start + i && |after| == |before| + 1 && after[..|before|] == before
    requires Registers(before[start..]) == plan[..i] && after[|before|].register == plan[i]
    ensures after[..start] == before[..start] && Registers(after[start..]) == plan[..i + 1]
  {
    assert after == before + [after[|before|]];
    assert after[start..] == before[start..] + [after[|before|]];
  }

  /**
    The last register of a command goes out only after every other one: the date that activates a holiday after the
    four fields it relies on, a mode after the dates that cancel a holiday, a duration after its temperature.
   */
  lemma ActivationComesLast(command: Command, registers: seq<Register>)
    requires registers <= Plan(command)
    ensures Plan(command)[|Plan(command)| - 1] in registers <==> registers == Plan(command)
  {
    var n := |Plan(command)| - 1;
    PlansDoNotRepeat(command);
    if i :| 0 <= i < |registers| && registers[i] == Plan(command)[n] { assert Plan(command)[i] == Plan(command)[n]; }
  }

  /** `a` goes out, and before `b`. */
  predicate Precedes(plan: seq<Register>, a: Register, b: Register) {
    exists i, j :: 0 <= i < j < |plan| && plan[i] == a && plan[j] == b
  }

  /**
    What each command must do: a holiday is activated behind all four of its other fields; another mode is set behind
    the cancelled dates, which are written exactly if a holiday is held; a quick veto lasts only once its temperature
    is set; and a temperature goes to the quick veto exactly while one is on.
   */
  lemma PlansAreSafe(holiday: bool)
    ensures forall field | field in {HolidayEndDate, HolidaySetpoint, HolidayStartTime, HolidayEndTime} ::
              Precedes(Plan(SetPreset(Away, holiday)), field, HolidayStartDate)
    ensures forall preset | preset == Schedule || preset == Manual ::
              var plan := Plan(SetPreset(preset, holiday));
              && Mode in plan
              && (forall d | d in {HolidayStartDate, HolidayEndDate} ::
                    (d in plan <==> holiday) && (holiday ==> Precedes(plan, d, Mode)))
              && (forall r | r in plan :: r in {HolidayStartDate, HolidayEndDate, Mode})
    ensures Precedes(Plan(SetPreset(QuickVeto, holiday)), QuickVetoTemp, QuickVetoDuration)
    ensures forall r :: r in Plan(SetTemperature(true)) <==> r == QuickVetoTemp
    ensures forall r :: r in Plan(SetTemperature(false)) <==> r == TargetTempDesired || r == TargetTemp
    ensures forall r :: r in Plan(SetHvacMode) <==> r == Mode
  {
    var away := Plan(SetPreset(Away, holiday));
    assert away[0] == HolidayEndDate && away[1] == HolidaySetpoint && away[2] == HolidayStartTime
      && away[3] == HolidayEndTime && away[4] == HolidayStartDate;
    var veto := Plan(SetPreset(QuickVeto, holiday));
    assert veto[0] == QuickVetoTemp && veto[1] == QuickVetoDuration;
    forall preset | preset == Schedule || preset == Manual
      ensures Plan(SetPreset(preset, holiday)) == if holiday then [HolidayStartDate, HolidayEndDate, Mode] else [Mode]
    {
    }
    var cancel := [HolidayStartDate, HolidayEndDate, Mode];
    assert cancel[0] == HolidayStartDate && cancel[1] == HolidayEndDate && cancel[2] == Mode;
  }

  lemma PlansDoNotRepeat(command: Command)
    ensures Plan(command) != [] && forall i, j :: 0 <= i < j < |Plan(command)| ==> Plan(command)[i] != Plan(command)[j]
  {
  }
}

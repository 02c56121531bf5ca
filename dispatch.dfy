/**
 * `process_message` as a function of the collection's state: the
 * topic-keyed update, the first rule of the table that holds, and that
 * rule's processor, after whose events the session-notification and
 * provisional-classification processors record the message's session
 * status.
 */
module Dispatch {
  import opened Wrappers
  import opened JsonValues
  import opened Writes
  import opened EventModel
  import opened SessionState
  import opened StateFacts
  import opened Rules
  import opened Processors
  import opened ProcessorFacts

  /** The categories the events of a cause are filed under. */
  predicate CategoryFits(c: Cause, category: Category) {
    match c
    case Incident | Out | Overtake | PersonalBestLap | Pit | TrackLimits => category == DriverAction
    case BlackFlag | BlackAndOrangeFlag | BlackAndWhiteFlag | BlueFlag
      | IncidentVerdict | ProvisionalClassification | QualifyingStageClassification => category == DriverNotification
    case GreenFlag => category == SectorNotification || category == TrackNotification
    case YellowFlag | DoubleYellowFlag => category == SectorNotification
    case ChequeredFlag | RedFlag | SafetyCarDeployed | VirtualSafetyCarDeployed
      | SafetyCarEnding | VirtualSafetyCarEnding => category == TrackNotification
    case RaceControlMessage => category == Other
    case _ => category == SessionNotification
  }

  /** Event `e` is one the collection files for cause `c`. */
  predicate Emitted(env: Env, s: State, c: Cause, e: Event) {
    e.cause == c && CategoryFits(c, e.category) && DetailsFit(c, e.details) && Stamped(env, s, e)
  }

  /** A green flag whose `Scope` is "Sector" clears a sector; any other clears the track. */
  predicate SectorScoped(lib: Externals, m: Message) {
    Field(lib, m, "Scope") == JStr("Sector")
  }

  /** The processor of `c` does not raise on this message and state. */
  predicate ProcessorSafe(lib: Externals, s: State, m: Message, c: Cause) {
    match c
    case BlackFlag | BlackAndOrangeFlag | BlackAndWhiteFlag | BlueFlag => DriverFlagSafe(lib, m)
    case YellowFlag | DoubleYellowFlag => SectorFlagSafe(lib, m)
    case GreenFlag => SectorScoped(lib, m) ==> SectorFlagSafe(lib, m)
    case QualifyingStageClassification => StageClassificationSafe(lib, s, m)
    case ProvisionalClassification => OrderedPositions(s)
    case Pit => StintsSafe(lib, m)
    case _ => true
  }

  /** The events of the processor the condition map assigns to `c`. */
  function Emit(env: Env, s: State, m: Message, c: Cause): seq<Event>
    requires ProcessorSafe(env.lib, s, m, c)
  {
    match c
    case Incident => IncidentEvents(env, s, m)
    case Out => OutEvents(env, s, m)
    case Overtake => OvertakeEvents(env, s, m)
    case PersonalBestLap => PersonalBestEvents(env, s, m)
    case Pit => PitEvents(env, s, m)
    case TrackLimits => TrackLimitsEvents(env, s, m)
    case BlackFlag | BlackAndOrangeFlag | BlackAndWhiteFlag | BlueFlag => DriverFlagEvents(env, s, m, c)
    case IncidentVerdict => VerdictEvents(env, s, m)
    case ProvisionalClassification => ProvisionalEvents(env, s, m)
    case QualifyingStageClassification => StageClassificationEvents(env, s, m)
    case GreenFlag =>
      if SectorScoped(env.lib, m) then SectorFlagEvents(env, s, m, c) else MessageEvents(env, s, m, TrackNotification, c)
    case YellowFlag | DoubleYellowFlag => SectorFlagEvents(env, s, m, c)
    case ChequeredFlag | RedFlag | SafetyCarDeployed | VirtualSafetyCarDeployed
      | SafetyCarEnding | VirtualSafetyCarEnding => MessageEvents(env, s, m, TrackNotification, c)
    case RaceControlMessage => MessageEvents(env, s, m, Other, c)
    case _ => SessionNotificationEvents(env, s, m, c)
  }

  /** The processors that record the message's session status once their events are out. */
  predicate RecordsStatus(c: Cause) {
    IsSessionNotification(c) || c == ProvisionalClassification
  }

  /** The processor selected over the updated state `s1` does not raise. */
  predicate RespondSafe(lib: Externals, s1: State, m: Message) {
    SelectCause(lib, m, s1).Some? ==> ProcessorSafe(lib, s1, m, SelectCause(lib, m, s1).value)
  }

  /** Neither the update nor the selected processor raises. */
  predicate StepSafe(lib: Externals, s: State, m: Message) {
    UpdateSafe(lib, m) && RespondSafe(lib, UpdateState(lib, s, m), m)
  }

  /**
   * The events of the first rule that holds over the updated state `s1`,
   * and the state once its processor has recorded the session status.
   */
  function Respond(env: Env, s1: State, m: Message): (State, seq<Event>)
    requires RespondSafe(env.lib, s1, m)
  {
    match SelectCause(env.lib, m, s1)
    case None => (s1, [])
    case Some(c) =>
      var events := Emit(env, s1, m, c);
      if RecordsStatus(c) then (s1.(sessionStatus := NewSessionStatus(env.lib, m, s1.sessionStatus)), events)
      else (s1, events)
  }

  /** The state after a message, and the events it yields. */
  function Step(env: Env, s: State, m: Message): (State, seq<Event>)
    requires StepSafe(env.lib, s, m)
  {
    Respond(env, UpdateState(env.lib, s, m), m)
  }

  // ----- What every processor emits ----------------------------------------------

  lemma DriverActionsFit(env: Env, s: State, m: Message, c: Cause)
    requires c in {Incident, Out, Overtake, PersonalBestLap, TrackLimits}
    requires ProcessorSafe(env.lib, s, m, c)
    ensures forall e :: e in Emit(env, s, m, c) ==> Emitted(env, s, c, e)
  {
    if c == Overtake {
      OvertakeFanOut(env, s, m);
    } else if c == Incident || c == TrackLimits {
      MessageActionsFit(env, s, m, c);
    } else {
      EntryActionsFit(env, s, m, c);
    }
  }

  lemma MessageActionsFit(env: Env, s: State, m: Message, c: Cause)
    requires c == Incident || c == TrackLimits
    ensures forall e :: e in Emit(env, s, m, c) ==> Emitted(env, s, c, e)
  {
  }

  lemma EntryActionsFit(env: Env, s: State, m: Message, c: Cause)
    requires c == Out || c == PersonalBestLap
    ensures forall e :: e in Emit(env, s, m, c) ==> Emitted(env, s, c, e)
  {
  }

  lemma PitsFit(env: Env, s: State, m: Message)
    requires ProcessorSafe(env.lib, s, m, Pit)
    ensures forall e :: e in Emit(env, s, m, Pit) ==> Emitted(env, s, Pit, e)
  {
    assert Emit(env, s, m, Pit) == PitEvents(env, s, m);
    PitEventsShape(env, s, m);
  }

  lemma ClassificationsFit(env: Env, s: State, m: Message, c: Cause)
    requires c == ProvisionalClassification || c == QualifyingStageClassification
    requires ProcessorSafe(env.lib, s, m, c)
    ensures forall e :: e in Emit(env, s, m, c) ==> Emitted(env, s, c, e)
  {
    if c == ProvisionalClassification {
      ProvisionalPerDriver(env, s, m);
    } else {
      StageClassificationsFit(env, s, m);
    }
  }

  lemma StageClassificationsFit(env: Env, s: State, m: Message)
    requires ProcessorSafe(env.lib, s, m, QualifyingStageClassification)
    ensures forall e :: e in Emit(env, s, m, QualifyingStageClassification) ==>
      Emitted(env, s, QualifyingStageClassification, e)
  {
  }

  /** The causes whose processor projects a flag or plain race-control message. */
  predicate IsTrackMessage(c: Cause) {
    match c
    case GreenFlag | YellowFlag | DoubleYellowFlag | ChequeredFlag | RedFlag | SafetyCarDeployed
      | VirtualSafetyCarDeployed | SafetyCarEnding | VirtualSafetyCarEnding | RaceControlMessage => true
    case _ => false
  }

  lemma DriverFlagsFit(env: Env, s: State, m: Message, c: Cause)
    requires c == BlackFlag || c == BlackAndOrangeFlag || c == BlackAndWhiteFlag || c == BlueFlag || c == IncidentVerdict
    requires ProcessorSafe(env.lib, s, m, c)
    ensures forall e :: e in Emit(env, s, m, c) ==> Emitted(env, s, c, e)
  {
  }

  lemma TrackFlagsFit(env: Env, s: State, m: Message, c: Cause)
    requires IsTrackMessage(c)
    requires ProcessorSafe(env.lib, s, m, c)
    ensures forall e :: e in Emit(env, s, m, c) ==> Emitted(env, s, c, e)
  {
  }

  lemma SessionNotificationsFit(env: Env, s: State, m: Message, c: Cause)
    requires IsSessionNotification(c)
    ensures forall e :: e in Emit(env, s, m, c) ==> Emitted(env, s, c, e)
  {
  }

  lemma NotificationsFit(env: Env, s: State, m: Message, c: Cause)
    requires c !in {Incident, Out, Overtake, PersonalBestLap, TrackLimits, Pit,
                    ProvisionalClassification, QualifyingStageClassification}
    requires ProcessorSafe(env.lib, s, m, c)
    ensures forall e :: e in Emit(env, s, m, c) ==> Emitted(env, s, c, e)
  {
    if c == BlackFlag || c == BlackAndOrangeFlag || c == BlackAndWhiteFlag || c == BlueFlag || c == IncidentVerdict {
      DriverFlagsFit(env, s, m, c);
    } else if IsTrackMessage(c) {
      TrackFlagsFit(env, s, m, c);
    } else {
      SessionNotificationsFit(env, s, m, c);
    }
  }

  /** Every event of a processor carries its cause, a category and details shape of that cause, and the collection's stamp. */
  lemma EmitFits(env: Env, s: State, m: Message, c: Cause)
    requires ProcessorSafe(env.lib, s, m, c)
    ensures forall e :: e in Emit(env, s, m, c) ==> Emitted(env, s, c, e)
  {
    if c in {Incident, Out, Overtake, PersonalBestLap, TrackLimits} {
      DriverActionsFit(env, s, m, c);
    } else if c == Pit {
      PitsFit(env, s, m);
    } else if c == ProvisionalClassification || c == QualifyingStageClassification {
      ClassificationsFit(env, s, m, c);
    } else {
      NotificationsFit(env, s, m, c);
    }
  }

  // ----- process_message ---------------------------------------------------------

  /** When no rule holds, the message yields nothing, but its topic's update has been applied. */
  lemma NoCauseNoEvents(env: Env, s: State, m: Message)
    requires StepSafe(env.lib, s, m)
    requires SelectCause(env.lib, m, UpdateState(env.lib, s, m)).None?
    ensures Step(env, s, m) == (UpdateState(env.lib, s, m), [])
  {
  }

  /** Every event of a message is one of the first rule that holds, over the updated state. */
  lemma StepEventsFit(env: Env, s: State, m: Message)
    requires StepSafe(env.lib, s, m)
    ensures Step(env, s, m).1 != [] ==> SelectCause(env.lib, m, UpdateState(env.lib, s, m)).Some?
    ensures forall e :: e in Step(env, s, m).1 ==>
      && SelectCause(env.lib, m, UpdateState(env.lib, s, m)) == Some(e.cause)
      && Holds(env.lib, m, UpdateState(env.lib, s, m), e.cause)
      && Emitted(env, UpdateState(env.lib, s, m), e.cause, e)
  {
    var s1 := UpdateState(env.lib, s, m);
    if SelectCause(env.lib, m, s1).Some? {
      var c := SelectCause(env.lib, m, s1).value;
      EmitFits(env, s1, m, c);
      SelectedRuleHolds(env.lib, m, s1, c);
    }
  }

  /**
   * Only a session notification or a provisional classification changes the
   * session status, to the status its message reports, and only to one of
   * the recorded statuses; every other field is as the update left it.
   */
  lemma StepStatus(env: Env, s: State, m: Message)
    requires StepSafe(env.lib, s, m)
    ensures Step(env, s, m).0 == UpdateState(env.lib, s, m).(sessionStatus := Step(env, s, m).0.sessionStatus)
    ensures Step(env, s, m).0.sessionStatus != s.sessionStatus ==>
      && SelectCause(env.lib, m, UpdateState(env.lib, s, m)).Some?
      && RecordsStatus(SelectCause(env.lib, m, UpdateState(env.lib, s, m)).value)
      && Step(env, s, m).0.sessionStatus == Some(StatusText(env.lib, m))
      && StatusText(env.lib, m) in SESSION_STATUSES
  {
  }

  /** A message keeps the collection's state valid. */
  lemma StepPreservesValid(env: Env, s: State, m: Message)
    requires Valid(s) && StepSafe(env.lib, s, m)
    ensures Valid(Step(env, s, m).0)
  {
    UpdateStatePreservesValid(env.lib, s, m);
    RespondPreservesValid(env, UpdateState(env.lib, s, m), m);
  }

  /** Recording the session status keeps a valid state valid. */
  lemma RespondPreservesValid(env: Env, s1: State, m: Message)
    requires Valid(s1) && RespondSafe(env.lib, s1, m)
    ensures Valid(Respond(env, s1, m).0)
  {
  }

  /** Over a valid state the recorded order lists only drivers with a tracked position, which the classification needs. */
  lemma ValidStateOrdersPositions(s: State)
    requires Valid(s)
    ensures OrderedPositions(s)
  {
  }
}

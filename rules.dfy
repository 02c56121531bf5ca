/**
 * The ordered rule table: one predicate per event cause over a message and
 * the state after the topic-keyed update, evaluated in table order, the
 * first that holds selecting the message's cause. Several predicates are
 * special cases of later, broader ones, so the order decides which cause a
 * message gets.
 */
module Rules {
  import opened Wrappers
  import opened JsonValues
  import opened EventModel
  import opened SessionState

  // ----- Reading the state and the message -----------------------------------

  predicate IsRace(s: State) {
    s.sessionType == Some("Race")
  }

  predicate IsQualifying(s: State) {
    s.sessionType == Some("Qualifying")
  }

  predicate IsPractice(s: State) {
    s.sessionType == Some("Practice")
  }

  /** The session is live: its last recorded status is "Aborted" or "Started". */
  predicate IsLive(s: State) {
    s.sessionStatus == Some("Aborted") || s.sessionStatus == Some("Started")
  }

  /** A field compares equal to a text: Python `==` between a value and a `str`. */
  predicate FieldIs(lib: Externals, m: Message, key: string, text: string) {
    Field(lib, m, key) == JStr(text)
  }

  predicate IsRaceControl(m: Message) {
    m.topic == RaceControlMessages
  }

  /** A `SessionData` message whose `SessionStatus` is `status`. */
  predicate SessionStatusIs(lib: Externals, m: Message, status: string) {
    m.topic == SessionData && FieldIs(lib, m, "SessionStatus", status)
  }

  // ----- The predicates, in table order --------------------------------------

  predicate IncidentRule(lib: Externals, m: Message, s: State) {
    IsRaceControl(m) && TextHas(lib, m, "INCIDENT") && TextHas(lib, m, "NOTED")
  }

  predicate OutRule(lib: Externals, m: Message, s: State) {
    m.topic == DriverRaceInfo && IsRace(s) && Truthy(Field(lib, m, "IsOut"))
  }

  predicate OvertakeRule(lib: Externals, m: Message, s: State) {
    && m.topic == DriverRaceInfo && IsRace(s) && IsLive(s)
    && !Field(lib, m, "OvertakeState").JNull? && !Field(lib, m, "Position").JNull?
  }

  predicate PersonalBestLapRule(lib: Externals, m: Message, s: State) {
    m.topic == TimingData && (IsPractice(s) || IsQualifying(s)) && Field(lib, m, "SessionPart").JNull?
  }

  predicate PitRule(lib: Externals, m: Message, s: State) {
    m.topic == TimingAppData && IsRace(s) && IsLive(s) && Field(lib, m, "Compound").JStr?
  }

  predicate TrackLimitsRule(lib: Externals, m: Message, s: State) {
    IsRaceControl(m) && TextHas(lib, m, "TRACK LIMITS")
  }

  predicate BlackFlagRule(lib: Externals, m: Message, s: State) {
    IsRaceControl(m) && TextHas(lib, m, "BLACK")
  }

  predicate BlackAndOrangeFlagRule(lib: Externals, m: Message, s: State) {
    IsRaceControl(m) && TextHas(lib, m, "BLACK AND ORANGE")
  }

  predicate BlackAndWhiteFlagRule(lib: Externals, m: Message, s: State) {
    IsRaceControl(m) && TextHas(lib, m, "BLACK AND WHITE")
  }

  predicate BlueFlagRule(lib: Externals, m: Message, s: State) {
    IsRaceControl(m) && FieldIs(lib, m, "Flag", "BLUE")
  }

  predicate IncidentVerdictRule(lib: Externals, m: Message, s: State) {
    && IsRaceControl(m) && TextHas(lib, m, "FIA STEWARDS")
    && !Contains(Text(lib, m).value, "UNDER INVESTIGATION")
    && !Contains(Text(lib, m).value, "PENALTY SERVED")
  }

  predicate ProvisionalClassificationRule(lib: Externals, m: Message, s: State) {
    SessionStatusIs(lib, m, "Finalised") && s.sessionStatus.Some?
  }

  predicate QualifyingStageClassificationRule(lib: Externals, m: Message, s: State) {
    && m.topic == TimingData && IsQualifying(s)
    && (PyEqInt(Field(lib, m, "SessionPart"), 2) || PyEqInt(Field(lib, m, "SessionPart"), 3))
  }

  predicate GreenFlagRule(lib: Externals, m: Message, s: State) {
    IsRaceControl(m) && (FieldIs(lib, m, "Flag", "GREEN") || FieldIs(lib, m, "Flag", "CLEAR"))
  }

  predicate YellowFlagRule(lib: Externals, m: Message, s: State) {
    IsRaceControl(m) && FieldIs(lib, m, "Flag", "YELLOW")
  }

  predicate DoubleYellowFlagRule(lib: Externals, m: Message, s: State) {
    IsRaceControl(m) && FieldIs(lib, m, "Flag", "DOUBLE YELLOW")
  }

  predicate ChequeredFlagRule(lib: Externals, m: Message, s: State) {
    IsRaceControl(m) && FieldIs(lib, m, "Flag", "CHEQUERED")
  }

  predicate RedFlagRule(lib: Externals, m: Message, s: State) {
    IsRaceControl(m) && FieldIs(lib, m, "Flag", "RED")
  }

  /** A race safety-car message with the given `Mode` and `Status`. */
  predicate SafetyCarRule(lib: Externals, m: Message, s: State, mode: string, status: string) {
    && IsRaceControl(m) && IsRace(s)
    && FieldIs(lib, m, "Category", "SafetyCar") && FieldIs(lib, m, "Mode", mode) && FieldIs(lib, m, "Status", status)
  }

  predicate SessionEndRule(lib: Externals, m: Message, s: State) {
    SessionStatusIs(lib, m, "Ends") && s.sessionStatus.Some?
  }

  predicate SessionStopRule(lib: Externals, m: Message, s: State) {
    SessionStatusIs(lib, m, "Aborted") && s.sessionStatus.Some?
  }

  predicate SessionResumeRule(lib: Externals, m: Message, s: State) {
    SessionStatusIs(lib, m, "Started") && s.sessionStatus == Some("Aborted")
  }

  /** The first status of a session of `kind`: "Started" with no status recorded yet. */
  predicate KindStartRule(lib: Externals, m: Message, s: State, kind: string) {
    SessionStatusIs(lib, m, "Started") && s.sessionType == Some(kind) && s.sessionStatus.None?
  }

  /** "Finished" in a session of `kind` that has a recorded status. */
  predicate KindEndRule(lib: Externals, m: Message, s: State, kind: string) {
    SessionStatusIs(lib, m, "Finished") && s.sessionType == Some(kind) && s.sessionStatus.Some?
  }

  /** Qualifying stage `n` starts: from no status for the first stage, from "Finished" for later ones. */
  predicate StageStartRule(lib: Externals, m: Message, s: State, n: int) {
    && SessionStatusIs(lib, m, "Started") && IsQualifying(s) && s.qualifyingStageNumber == Some(n)
    && (if n == 1 then s.sessionStatus.None? else s.sessionStatus == Some("Finished"))
  }

  predicate StageEndRule(lib: Externals, m: Message, s: State, n: int) {
    KindEndRule(lib, m, s, "Qualifying") && s.qualifyingStageNumber == Some(n)
  }

  predicate RaceControlMessageRule(lib: Externals, m: Message, s: State) {
    IsRaceControl(m) && Text(lib, m).Some?
  }

  // ----- The table -------------------------------------------------------------

  datatype Rule = Rule(cause: Cause, holds: (Externals, Message, State) -> bool)

  /** The cause of the rule at position `i` of the table: the order in which the rules are evaluated. */
  function CauseAt(i: nat): (c: Cause)
    requires i < RULE_COUNT
  {
    match i
    case 0 => Incident
    case 1 => Out
    case 2 => Overtake
    case 3 => PersonalBestLap
    case 4 => Pit
    case 5 => TrackLimits
    case 6 => BlackFlag
    case 7 => BlackAndOrangeFlag
    case 8 => BlackAndWhiteFlag
    case 9 => BlueFlag
    case 10 => IncidentVerdict
    case 11 => ProvisionalClassification
    case 12 => QualifyingStageClassification
    case 13 => GreenFlag
    case 14 => YellowFlag
    case 15 => DoubleYellowFlag
    case 16 => ChequeredFlag
    case 17 => RedFlag
    case 18 => SafetyCarDeployed
    case 19 => VirtualSafetyCarDeployed
    case 20 => SafetyCarEnding
    case 21 => VirtualSafetyCarEnding
    case 22 => SessionStart
    case 23 => SessionEnd
    case 24 => SessionStop
    case 25 => SessionResume
    case 26 => PracticeStart
    case 27 => PracticeEnd
    case 28 => Q1Start
    case 29 => Q1End
    case 30 => Q2Start
    case 31 => Q2End
    case 32 => Q3Start
    case 33 => Q3End
    case 34 => RaceStart
    case 35 => RaceEnd
    case _ => RaceControlMessage
  }

  /** Where the rule of each cause sits in the table. */
  function RulePosition(c: Cause): (i: nat)
    ensures i < RULE_COUNT
  {
    match c
    case Incident => 0
    case Out => 1
    case Overtake => 2
    case PersonalBestLap => 3
    case Pit => 4
    case TrackLimits => 5
    case BlackFlag => 6
    case BlackAndOrangeFlag => 7
    case BlackAndWhiteFlag => 8
    case BlueFlag => 9
    case IncidentVerdict => 10
    case ProvisionalClassification => 11
    case QualifyingStageClassification => 12
    case GreenFlag => 13
    case YellowFlag => 14
    case DoubleYellowFlag => 15
    case ChequeredFlag => 16
    case RedFlag => 17
    case SafetyCarDeployed => 18
    case VirtualSafetyCarDeployed => 19
    case SafetyCarEnding => 20
    case VirtualSafetyCarEnding => 21
    case SessionStart => 22
    case SessionEnd => 23
    case SessionStop => 24
    case SessionResume => 25
    case PracticeStart => 26
    case PracticeEnd => 27
    case Q1Start => 28
    case Q1End => 29
    case Q2Start => 30
    case Q2End => 31
    case Q3Start => 32
    case Q3End => 33
    case RaceStart => 34
    case RaceEnd => 35
    case RaceControlMessage => 36
  }

  /** The predicate of each cause. */
  function PredicateOf(c: Cause): (Externals, Message, State) -> bool {
    match c
    case Incident => IncidentRule
    case Out => OutRule
    case Overtake => OvertakeRule
    case PersonalBestLap => PersonalBestLapRule
    case Pit => PitRule
    case TrackLimits => TrackLimitsRule
    case BlackFlag => BlackFlagRule
    case BlackAndOrangeFlag => BlackAndOrangeFlagRule
    case BlackAndWhiteFlag => BlackAndWhiteFlagRule
    case BlueFlag => BlueFlagRule
    case IncidentVerdict => IncidentVerdictRule
    case ProvisionalClassification => ProvisionalClassificationRule
    case QualifyingStageClassification => QualifyingStageClassificationRule
    case GreenFlag => GreenFlagRule
    case YellowFlag => YellowFlagRule
    case DoubleYellowFlag => DoubleYellowFlagRule
    case ChequeredFlag => ChequeredFlagRule
    case RedFlag => RedFlagRule
    case SafetyCarDeployed => (lib, m, s) => SafetyCarRule(lib, m, s, "SAFETY CAR", "DEPLOYED")
    case VirtualSafetyCarDeployed => (lib, m, s) => SafetyCarRule(lib, m, s, "VIRTUAL SAFETY CAR", "DEPLOYED")
    case SafetyCarEnding => (lib, m, s) => SafetyCarRule(lib, m, s, "SAFETY CAR", "IN THIS LAP")
    case VirtualSafetyCarEnding => (lib, m, s) => SafetyCarRule(lib, m, s, "VIRTUAL SAFETY CAR", "ENDING")
    case SessionStart => SessionStartRule
    case SessionEnd => SessionEndRule
    case SessionStop => SessionStopRule
    case SessionResume => SessionResumeRule
    case PracticeStart => (lib, m, s) => KindStartRule(lib, m, s, "Practice")
    case PracticeEnd => (lib, m, s) => KindEndRule(lib, m, s, "Practice")
    case Q1Start => (lib, m, s) => StageStartRule(lib, m, s, 1)
    case Q1End => (lib, m, s) => StageEndRule(lib, m, s, 1)
    case Q2Start => (lib, m, s) => StageStartRule(lib, m, s, 2)
    case Q2End => (lib, m, s) => StageEndRule(lib, m, s, 2)
    case Q3Start => (lib, m, s) => StageStartRule(lib, m, s, 3)
    case Q3End => (lib, m, s) => StageEndRule(lib, m, s, 3)
    case RaceStart => (lib, m, s) => KindStartRule(lib, m, s, "Race")
    case RaceEnd => (lib, m, s) => KindEndRule(lib, m, s, "Race")
    case RaceControlMessage => RaceControlMessageRule
  }

  const RULE_COUNT: nat := 37

  /** The rule table: every cause once, in evaluation order, the catch-all race-control rule last. */
  function RuleTable(): (r: seq<Rule>)
    ensures |r| == RULE_COUNT
    ensures forall i :: 0 <= i < |r| ==> r[i] == Rule(CauseAt(i), PredicateOf(CauseAt(i)))
  {
    seq(RULE_COUNT, i requires 0 <= i < RULE_COUNT => Rule(CauseAt(i), PredicateOf(CauseAt(i))))
  }

  /** Whether the rule of cause `c` holds. */
  predicate Holds(lib: Externals, m: Message, s: State, c: Cause) {
    PredicateOf(c)(lib, m, s)
  }

  /** `RulePosition` and `CauseAt` are inverse: each cause has exactly one rule. */
  lemma CauseAtPosition(c: Cause)
    ensures CauseAt(RulePosition(c)) == c
  {
  }

  lemma PositionOfCauseAt(i: nat)
    requires i < RULE_COUNT
    ensures RulePosition(CauseAt(i)) == i
  {
    CauseAtPosition(CauseAt(i));
  }

  // ----- First match wins ------------------------------------------------------

  /** The index of the first rule at or after `from` that holds. */
  function FirstMatchFrom(lib: Externals, m: Message, s: State, rules: seq<Rule>, from: nat): (r: Option<nat>)
    requires from <= |rules|
    ensures r.Some? ==> from <= r.value < |rules| && rules[r.value].holds(lib, m, s)
    ensures r.Some? ==> forall j :: from <= j < r.value ==> !rules[j].holds(lib, m, s)
    ensures r.None? <==> forall j :: from <= j < |rules| ==> !rules[j].holds(lib, m, s)
    decreases |rules| - from
  {
    if from == |rules| then None
    else if rules[from].holds(lib, m, s) then Some(from)
    else FirstMatchFrom(lib, m, s, rules, from + 1)
  }

  /** The cause of the first rule of `rules` that holds. */
  function Select(lib: Externals, m: Message, s: State, rules: seq<Rule>): Option<Cause> {
    match FirstMatchFrom(lib, m, s, rules, 0)
    case None => None
    case Some(i) => Some(rules[i].cause)
  }

  /** The cause `process_message` selects for a message, given the state after the update. */
  function SelectCause(lib: Externals, m: Message, s: State): Option<Cause> {
    Select(lib, m, s, RuleTable())
  }

  /** No two rules share a cause. */
  predicate CausesDistinct(rules: seq<Rule>) {
    forall i, j :: 0 <= i < |rules| && 0 <= j < |rules| && rules[i].cause == rules[j].cause ==> i == j
  }

  lemma RuleTableCausesDistinct()
    ensures CausesDistinct(RuleTable())
  {
    forall i, j | 0 <= i < RULE_COUNT && 0 <= j < RULE_COUNT && CauseAt(i) == CauseAt(j) ensures i == j {
      PositionOfCauseAt(i);
      PositionOfCauseAt(j);
    }
  }

  /**
   * First match wins: the cause of rule `i` is selected exactly when rule `i`
   * holds and no earlier rule does.
   */
  lemma SelectIsFirstMatch(lib: Externals, m: Message, s: State, rules: seq<Rule>, i: nat)
    requires CausesDistinct(rules) && i < |rules|
    ensures Select(lib, m, s, rules) == Some(rules[i].cause) <==>
      rules[i].holds(lib, m, s) && forall j :: 0 <= j < i ==> !rules[j].holds(lib, m, s)
  {
    var r := FirstMatchFrom(lib, m, s, rules, 0);
    if Select(lib, m, s, rules) == Some(rules[i].cause) {
      assert r.value == i;
    }
  }

  /** No cause is selected exactly when no rule holds. */
  lemma SelectNone(lib: Externals, m: Message, s: State, rules: seq<Rule>)
    ensures Select(lib, m, s, rules).None? <==> forall j :: 0 <= j < |rules| ==> !rules[j].holds(lib, m, s)
  {
  }

  /** A rule that only holds when an earlier rule holds is never selected. */
  lemma ShadowedRuleNeverSelected(lib: Externals, m: Message, s: State, rules: seq<Rule>, i: nat, k: nat)
    requires CausesDistinct(rules) && k < i < |rules|
    requires rules[i].holds(lib, m, s) ==> rules[k].holds(lib, m, s)
    ensures Select(lib, m, s, rules) != Some(rules[i].cause)
  {
    SelectIsFirstMatch(lib, m, s, rules, i);
  }

  /** The rule of the selected cause holds. */
  lemma SelectedRuleHolds(lib: Externals, m: Message, s: State, c: Cause)
    requires SelectCause(lib, m, s) == Some(c)
    ensures Holds(lib, m, s, c)
  {
    var i := FirstMatchFrom(lib, m, s, RuleTable(), 0).value;
    assert RuleTable()[i] == Rule(CauseAt(i), PredicateOf(CauseAt(i)));
  }

  // ----- Reachability -----------------------------------------------------------

  /** Texts with "BLACK AND ORANGE" or "BLACK AND WHITE" satisfy the black-flag rule too. */
  lemma BlackFlagCoversVariants(lib: Externals, m: Message, s: State)
    ensures BlackAndOrangeFlagRule(lib, m, s) ==> BlackFlagRule(lib, m, s)
    ensures BlackAndWhiteFlagRule(lib, m, s) ==> BlackFlagRule(lib, m, s)
  {
    if BlackAndOrangeFlagRule(lib, m, s) {
      ContainsPrefix(Text(lib, m).value, "BLACK AND ORANGE", "BLACK");
    }
    if BlackAndWhiteFlagRule(lib, m, s) {
      ContainsPrefix(Text(lib, m).value, "BLACK AND WHITE", "BLACK");
    }
  }

  lemma BlackFlagEntries(lib: Externals, m: Message, s: State)
    ensures RuleTable()[6].holds(lib, m, s) == BlackFlagRule(lib, m, s)
    ensures RuleTable()[7] == Rule(BlackAndOrangeFlag, BlackAndOrangeFlagRule)
    ensures RuleTable()[8] == Rule(BlackAndWhiteFlag, BlackAndWhiteFlagRule)
  {
  }

  /**
   * The black-and-orange and black-and-white flag rules can never be
   * selected: their texts contain "BLACK", so the black-flag rule, which
   * comes first, already holds.
   */
  lemma BlackFlagVariantsUnreachable(lib: Externals, m: Message, s: State)
    ensures SelectCause(lib, m, s) != Some(BlackAndOrangeFlag)
    ensures SelectCause(lib, m, s) != Some(BlackAndWhiteFlag)
  {
    RuleTableCausesDistinct();
    BlackFlagCoversVariants(lib, m, s);
    BlackFlagEntries(lib, m, s);
    ShadowedRuleNeverSelected(lib, m, s, RuleTable(), 7, 6);
    ShadowedRuleNeverSelected(lib, m, s, RuleTable(), 8, 6);
  }

  /** The topic each rule requires. */
  function RuleTopic(c: Cause): Topic {
    match c
    case Out => DriverRaceInfo
    case Overtake => DriverRaceInfo
    case PersonalBestLap => TimingData
    case QualifyingStageClassification => TimingData
    case Pit => TimingAppData
    case ProvisionalClassification => SessionData
    case SessionStart => SessionData
    case SessionEnd => SessionData
    case SessionStop => SessionData
    case SessionResume => SessionData
    case PracticeStart => SessionData
    case PracticeEnd => SessionData
    case Q1Start => SessionData
    case Q1End => SessionData
    case Q2Start => SessionData
    case Q2End => SessionData
    case Q3Start => SessionData
    case Q3End => SessionData
    case RaceStart => SessionData
    case RaceEnd => SessionData
    case _ => RaceControlMessages
  }

  /** Every rule is about one topic: a rule holds only for messages on that topic. */
  lemma HoldsNeedsTopic(lib: Externals, m: Message, s: State, c: Cause)
    requires Holds(lib, m, s, c)
    ensures m.topic == RuleTopic(c)
  {
    match c
    case Out =>
    case Overtake =>
    case PersonalBestLap =>
    case QualifyingStageClassification =>
    case Pit =>
    case ProvisionalClassification =>
    case SessionStart =>
    case SessionEnd =>
    case SessionStop =>
    case SessionResume =>
    case PracticeStart =>
    case PracticeEnd =>
    case Q1Start =>
    case Q1End =>
    case Q2Start =>
    case Q2End =>
    case Q3Start =>
    case Q3End =>
    case RaceStart =>
    case RaceEnd =>
    case _ =>
  }

  /** A race-control rule that reads the message text. */
  predicate TextRuleHolds(lib: Externals, m: Message, s: State) {
    || IncidentRule(lib, m, s) || TrackLimitsRule(lib, m, s) || BlackFlagRule(lib, m, s)
    || BlackAndOrangeFlagRule(lib, m, s) || BlackAndWhiteFlagRule(lib, m, s) || IncidentVerdictRule(lib, m, s)
  }

  lemma CatchAllEntry(lib: Externals, m: Message, s: State)
    ensures RuleTable()[RULE_COUNT - 1] == Rule(RaceControlMessage, RaceControlMessageRule)
  {
  }

  /**
   * The catch-all race-control rule, last in the table, is a superset of
   * every rule that reads the text; it is selected exactly when it holds and
   * no earlier rule does, and so every race-control message whose text is a
   * string receives some cause.
   */
  lemma RaceControlMessageIsCatchAll(lib: Externals, m: Message, s: State)
    ensures TextRuleHolds(lib, m, s) ==> RaceControlMessageRule(lib, m, s)
    ensures SelectCause(lib, m, s) == Some(RaceControlMessage) <==>
      RaceControlMessageRule(lib, m, s) && forall j :: 0 <= j < RULE_COUNT - 1 ==> !RuleTable()[j].holds(lib, m, s)
    ensures RaceControlMessageRule(lib, m, s) ==> SelectCause(lib, m, s).Some?
  {
    TextRulesImplyCatchAll(lib, m, s);
    CatchAllSelection(lib, m, s);
  }

  lemma TextRulesImplyCatchAll(lib: Externals, m: Message, s: State)
    ensures TextRuleHolds(lib, m, s) ==> RaceControlMessageRule(lib, m, s)
  {
  }

  lemma CatchAllSelection(lib: Externals, m: Message, s: State)
    ensures SelectCause(lib, m, s) == Some(RaceControlMessage) <==>
      RaceControlMessageRule(lib, m, s) && forall j :: 0 <= j < RULE_COUNT - 1 ==> !RuleTable()[j].holds(lib, m, s)
    ensures RaceControlMessageRule(lib, m, s) ==> SelectCause(lib, m, s).Some?
  {
    RuleTableCausesDistinct();
    CatchAllEntry(lib, m, s);
    SelectIsFirstMatch(lib, m, s, RuleTable(), RULE_COUNT - 1);
    SelectNone(lib, m, s, RuleTable());
  }

  /** A message on a topic no rule reads selects no cause, whatever the state. */
  lemma OtherTopicsSelectNothing(lib: Externals, m: Message, s: State)
    requires m.topic !in {RaceControlMessages, DriverRaceInfo, TimingData, TimingAppData, SessionData}
    ensures SelectCause(lib, m, s).None?
  {
    if SelectCause(lib, m, s).Some? {
      SelectedRuleHolds(lib, m, s, SelectCause(lib, m, s).value);
      HoldsNeedsTopic(lib, m, s, SelectCause(lib, m, s).value);
    }
  }
}

/**
 * The state an events collection tracks between messages, and the
 * topic-keyed update `process_message` applies before it looks for an event:
 * per-session fields (lap, session type, start, offset, stream start,
 * qualifying stage, status) and per-driver records (locations, stints, pits,
 * personal-best laps, positions).
 *
 * A per-driver record `driver_x[d][f]` is flattened to a map keyed by
 * `(d, f)`; each message contributes a batch of change-gated writes (module
 * `Writes`), so the new record is `ApplyWrites(old, batch)`.
 */
module SessionState {
  import opened Wrappers
  import opened JsonValues
  import opened Writes
  import opened EventModel

  datatype Axis = X | Y | Z
  datatype StintField = CompoundField | TyreAgeField
  datatype StintValue = CompoundValue(compound: string) | TyreAgeValue(laps: int)
  datatype PitField = PitDate | PitLaneDuration | PitStopDuration | PitLap

  datatype State = State(
    sessionStreamStart: Option<Instant>,
    sessionStart: Option<Instant>,
    sessionOffset: Option<string>,
    sessionType: Option<string>,
    sessionStatus: Option<string>,
    lapNumber: Option<int>,
    qualifyingStageNumber: Option<int>,
    driverStints: map<(int, StintField), StintValue>,
    driverPits: map<(int, PitField), int>,
    driverLocations: map<(int, Axis), int>,
    driverPersonalBestLaps: map<int, Millis>,
    driverPositions: map<int, int>,
    positionOrder: seq<int>)   // the iteration order of `driver_positions`

  /** The state of a freshly constructed collection. */
  function Initial(): State {
    State(None, None, None, None, None, None, None, map[], map[], map[], map[], map[], [])
  }

  /** The only session statuses the collection records ("Inactive" is ignored). */
  const SESSION_STATUSES: set<string> := {"Aborted", "Ends", "Finalised", "Finished", "Started"}

  /** 2024-10-18 12:30 at GMT-05:00, that is 17:30 UTC, in microseconds. */
  const NEW_RACE_PIT_TOPIC_CUTOFF_DATE: Instant := 1729272600000000

  /** A stint record stores a compound under "compound" and a lap count under "tyre_age_at_start". */
  predicate StintsTyped(stints: map<(int, StintField), StintValue>) {
    forall k :: k in stints ==> (stints[k].CompoundValue? <==> k.1 == CompoundField)
  }

  /** What the collection's fields can hold between messages. */
  predicate Valid(s: State) {
    && (s.sessionStatus.Some? ==> s.sessionStatus.value in SESSION_STATUSES)
    && (s.qualifyingStageNumber.Some? ==> 1 <= s.qualifyingStageNumber.value <= 3)
    && StintsTyped(s.driverStints)
    && IsOrderOf(s.positionOrder, s.driverPositions)
  }

  lemma InitialValid()
    ensures Valid(Initial())
  {
  }

  // ----- Reading tracked records -------------------------------------------

  function CompoundOf(s: State, d: int): Option<string> {
    var v := Lookup(s.driverStints, (d, CompoundField));
    if v.Some? && v.value.CompoundValue? then Some(v.value.compound) else None
  }

  function TyreAgeOf(s: State, d: int): Option<int> {
    var v := Lookup(s.driverStints, (d, TyreAgeField));
    if v.Some? && v.value.TyreAgeValue? then Some(v.value.laps) else None
  }

  function LocationOf(s: State, d: int): LocationMarker {
    LocationMarker(Lookup(s.driverLocations, (d, X)), Lookup(s.driverLocations, (d, Y)),
                   Lookup(s.driverLocations, (d, Z)))
  }

  // ----- Message fields ------------------------------------------------------

  /** The `Lines` object of a message, or no entries when it is not an object. */
  function LinesOf(lib: Externals, m: Message): JsonObject {
    if Field(lib, m, "Lines").JObj? then Field(lib, m, "Lines").fields else []
  }

  /** The condition of the session-start rule, which also marks the start of the session stream. */
  predicate SessionStartRule(lib: Externals, m: Message, s: State) {
    && m.topic == SessionData
    && s.sessionStatus.None?
    && Field(lib, m, "Series").JList?
    && Field(lib, m, "Series").items == []
  }

  // ----- Per-session updates -------------------------------------------------
  //
  // Each function gives the new value of one field; none raises, and a value
  // that cannot be read leaves the field as it was.

  /** `int(CurrentLap)`, when it parses. */
  function NewLapNumber(lib: Externals, m: Message, lap: Option<int>): Option<int> {
    ToInt(Field(lib, m, "CurrentLap")).Or(lap)
  }

  /** The stream starts at the message that satisfies the session-start rule. */
  function NewSessionStreamStart(lib: Externals, m: Message, s: State): Option<Instant> {
    if SessionStartRule(lib, m, s) then Some(m.timepoint) else s.sessionStreamStart
  }

  /** `(start, GMT offset, session type)` from a `SessionInfo` message, when all three can be read. */
  function SessionInfoOf(lib: Externals, m: Message): Option<(Instant, string, string)> {
    var offset := Get(m.content, "GmtOffset");
    var kind := Get(m.content, "Type");
    if offset.JNull? || kind.JNull? then None
    else
      match lib.sessionStartDate(PyStr(lib.repr, Get(m.content, "StartDate")), PyStr(lib.repr, offset))
      case None => None
      case Some(start) => Some((start, PyStr(lib.repr, offset), PyStr(lib.repr, kind)))
  }

  /** The text of a message's `SessionStatus`; `str()` of anything succeeds. */
  function StatusText(lib: Externals, m: Message): string {
    PyStr(lib.repr, Field(lib, m, "SessionStatus"))
  }

  function NewSessionStatus(lib: Externals, m: Message, status: Option<string>): Option<string> {
    if StatusText(lib, m) in SESSION_STATUSES then Some(StatusText(lib, m)) else status
  }

  function NewQualifyingStageNumber(lib: Externals, m: Message, stage: Option<int>): Option<int> {
    match ToInt(Field(lib, m, "QualifyingPart"))
    case None => stage
    case Some(n) => if 1 <= n <= 3 then Some(n) else stage
  }

  // ----- Driver locations ----------------------------------------------------

  /** `locations[-1]` raises on an empty `Position` list. */
  predicate LocationsSafe(lib: Externals, m: Message) {
    Field(lib, m, "Position").JList? ==> Field(lib, m, "Position").items != []
  }

  /** The `Entries` of the latest sample in `Position`; none when any level has the wrong shape. */
  function LocationEntries(lib: Externals, m: Message): JsonObject
    requires LocationsSafe(lib, m)
  {
    var locations := Field(lib, m, "Position");
    if !locations.JList? then []
    else
      var latest := locations.items[|locations.items| - 1];
      if !latest.JObj? then []
      else
        var entries := lib.deepGet(latest, "Entries");
        if entries.JObj? then entries.fields else []
  }

  function EntryLocationWrites(e: (string, Json)): (r: seq<((int, Axis), int)>)
    ensures forall i :: 0 <= i < |r| ==> ParseInt(e.0) == Some(r[i].0.0)
  {
    match ParseInt(e.0)
    case None => []
    case Some(d) =>
      if !e.1.JObj? then []
      else
        var x, y, z := ToInt(Get(e.1.fields, "X")), ToInt(Get(e.1.fields, "Y")), ToInt(Get(e.1.fields, "Z"));
        if x.None? || y.None? || z.None? then []
        else [((d, X), x.value), ((d, Y), y.value), ((d, Z), z.value)]
  }

  function LocationWrites(entries: JsonObject): seq<((int, Axis), int)>
    decreases |entries|
  {
    if entries == [] then []
    else LocationWrites(entries[..|entries| - 1]) + EntryLocationWrites(entries[|entries| - 1])
  }


  function NewDriverLocations(lib: Externals, m: Message, locations: map<(int, Axis), int>): map<(int, Axis), int>
    requires LocationsSafe(lib, m)
  {
    ApplyWrites(locations, LocationWrites(LocationEntries(lib, m)))
  }

  // ----- Driver stints -------------------------------------------------------

  predicate StintKeysParse(stints: JsonObject) {
    forall i :: 0 <= i < |stints| ==> ParseInt(stints[i].0).Some?
  }

  function StintNumber(stints: JsonObject, i: nat): int
    requires i < |stints| && StintKeysParse(stints)
  {
    ParseInt(stints[i].0).value
  }

  /**
   * The index `max(stints, key=int)` selects: a stint with the largest number,
   * the first such one when numbers repeat.
   */
  function LatestStintIndex(stints: JsonObject): (r: nat)
    requires |stints| > 0 && StintKeysParse(stints)
    ensures r < |stints|
    ensures forall i :: 0 <= i < |stints| ==> StintNumber(stints, i) <= StintNumber(stints, r)
    ensures forall i :: 0 <= i < r ==> StintNumber(stints, i) < StintNumber(stints, r)
    decreases |stints|
  {
    if |stints| == 1 then 0
    else
      var init := stints[..|stints| - 1];
      assert StintKeysParse(init);
      var j := LatestStintIndex(init);
      assert forall i :: 0 <= i < |init| ==> StintNumber(init, i) == StintNumber(stints, i);
      if StintNumber(stints, |stints| - 1) > StintNumber(stints, j) then |stints| - 1 else j
  }

  /** Selecting the latest stint raises when a stint key is not an integer. */
  predicate StintKeysSafe(lib: Externals, data: Json) {
    lib.deepGet(data, "Stints").JObj? ==> StintKeysParse(lib.deepGet(data, "Stints").fields)
  }

  /** The record of a driver's latest stint, when `Stints` is a non-empty object and that record an object. */
  function LatestStint(lib: Externals, data: Json): Option<JsonObject>
    requires StintKeysSafe(lib, data)
  {
    var stints := lib.deepGet(data, "Stints");
    if !stints.JObj? || stints.fields == [] then None
    else
      var latest := Get(stints.fields, stints.fields[LatestStintIndex(stints.fields)].0);
      if latest.JObj? then Some(latest.fields) else None
  }

  /** Neither `max(..., key=int)` nor the unguarded `int(TotalLaps)` raises on this timing-app entry. */
  predicate EntryStintSafe(lib: Externals, e: (string, Json)) {
    ParseInt(e.0).Some? && e.1.JObj? ==>
      && StintKeysSafe(lib, e.1)
      && (LatestStint(lib, e.1).Some? && HasKey(LatestStint(lib, e.1).value, "TotalLaps") ==>
            ToInt(Get(LatestStint(lib, e.1).value, "TotalLaps")).Some?)
  }

  predicate EntriesStintSafe(lib: Externals, entries: JsonObject) {
    forall i :: 0 <= i < |entries| ==> EntryStintSafe(lib, entries[i])
  }

  predicate StintsSafe(lib: Externals, m: Message) {
    EntriesStintSafe(lib, LinesOf(lib, m))
  }

  function EntryStintWrites(lib: Externals, e: (string, Json)): (r: seq<((int, StintField), StintValue)>)
    requires EntryStintSafe(lib, e)
    ensures forall i :: 0 <= i < |r| ==> ParseInt(e.0) == Some(r[i].0.0)
    ensures forall i :: 0 <= i < |r| ==> (r[i].1.CompoundValue? <==> r[i].0.1 == CompoundField)
  {
    match ParseInt(e.0)
    case None => []
    case Some(d) =>
      if !e.1.JObj? then []
      else
        match LatestStint(lib, e.1)
        case None => []
        case Some(latest) =>
          (if HasKey(latest, "Compound")
           then [((d, CompoundField), CompoundValue(PyStr(lib.repr, Get(latest, "Compound"))))] else [])
          + (if HasKey(latest, "TotalLaps")
             then [((d, TyreAgeField), TyreAgeValue(ToInt(Get(latest, "TotalLaps")).value))] else [])
  }

  function StintWrites(lib: Externals, entries: JsonObject): seq<((int, StintField), StintValue)>
    requires EntriesStintSafe(lib, entries)
    decreases |entries|
  {
    if entries == [] then []
    else
      assert EntriesStintSafe(lib, entries[..|entries| - 1]);
      StintWrites(lib, entries[..|entries| - 1]) + EntryStintWrites(lib, entries[|entries| - 1])
  }


  function NewDriverStints(lib: Externals, m: Message, stints: map<(int, StintField), StintValue>)
    : map<(int, StintField), StintValue>
    requires StintsSafe(lib, m)
  {
    ApplyWrites(stints, StintWrites(lib, LinesOf(lib, m)))
  }

  // ----- Personal-best laps --------------------------------------------------

  /** `to_timedelta(str(data.get(key, {}).get("Value")))`; `None` where that raises. */
  function LapTimeOf(lib: Externals, data: JsonObject, key: string): Option<Millis> {
    var record := GetOr(data, key, JObj([]));
    if record.JObj? then lib.lapTime(PyStr(lib.repr, Get(record.fields, "Value"))) else None
  }

  /** The best lap of a timing entry when both lap times parse and the best equals the last. */
  function PersonalBestOf(lib: Externals, data: JsonObject): (r: Option<Millis>)
    ensures r.Some? <==>
      LapTimeOf(lib, data, "BestLapTime").Some? && LapTimeOf(lib, data, "LastLapTime").Some?
      && lib.isClose(LapTimeOf(lib, data, "BestLapTime").value, LapTimeOf(lib, data, "LastLapTime").value)
    ensures r.Some? ==> r == LapTimeOf(lib, data, "BestLapTime")
  {
    var best := LapTimeOf(lib, data, "BestLapTime");
    var last := LapTimeOf(lib, data, "LastLapTime");
    if best.Some? && last.Some? && lib.isClose(best.value, last.value) then best else None
  }

  function EntryPersonalBestWrites(lib: Externals, e: (string, Json)): (r: seq<(int, Millis)>)
    ensures forall i :: 0 <= i < |r| ==> ParseInt(e.0) == Some(r[i].0)
  {
    match ParseInt(e.0)
    case None => []
    case Some(d) =>
      if !e.1.JObj? then []
      else
        match PersonalBestOf(lib, e.1.fields)
        case None => []
        case Some(best) => [(d, best)]
  }

  function PersonalBestWrites(lib: Externals, entries: JsonObject): seq<(int, Millis)>
    decreases |entries|
  {
    if entries == [] then []
    else PersonalBestWrites(lib, entries[..|entries| - 1]) + EntryPersonalBestWrites(lib, entries[|entries| - 1])
  }


  function NewDriverPersonalBestLaps(lib: Externals, m: Message, bests: map<int, Millis>): map<int, Millis> {
    ApplyWrites(bests, PersonalBestWrites(lib, LinesOf(lib, m)))
  }

  // ----- Pits ----------------------------------------------------------------

  /** The pit lane time of an entry: `PitLaneTime`, or `Duration` when that is falsy. */
  function PitLaneValue(lib: Externals, data: Json): Json {
    if Truthy(lib.deepGet(data, "PitLaneTime")) then lib.deepGet(data, "PitLaneTime")
    else lib.deepGet(data, "Duration")
  }

  function EntryPitWrites(lib: Externals, t: Instant, e: (string, Json)): (r: seq<((int, PitField), int)>)
    ensures forall i :: 0 <= i < |r| ==> ParseInt(e.0) == Some(r[i].0.0)
  {
    match ParseInt(e.0)
    case None => []
    case Some(d) =>
      var lane := PitLaneValue(lib, e.1);
      var lap := lib.deepGet(e.1, "Lap");
      if lane.JNull? || lap.JNull? || lib.toFloat(lane).None? || ToInt(lap).None? then []
      else
        var base := [((d, PitDate), t), ((d, PitLaneDuration), lib.toFloat(lane).value), ((d, PitLap), ToInt(lap).value)];
        var stop := lib.deepGet(e.1, "PitStopTime");
        if !stop.JNull? && lib.toFloat(stop).Some? then base + [((d, PitStopDuration), lib.toFloat(stop).value)]
        else base
  }

  function PitWrites(lib: Externals, t: Instant, entries: JsonObject): seq<((int, PitField), int)>
    decreases |entries|
  {
    if entries == [] then []
    else PitWrites(lib, t, entries[..|entries| - 1]) + EntryPitWrites(lib, t, entries[|entries| - 1])
  }

  function PitEntries(lib: Externals, m: Message): JsonObject {
    if Field(lib, m, "PitTimes").JObj? then Field(lib, m, "PitTimes").fields else []
  }


  function NewDriverPits(lib: Externals, m: Message, pits: map<(int, PitField), int>): map<(int, PitField), int> {
    ApplyWrites(pits, PitWrites(lib, m.timepoint, PitEntries(lib, m)))
  }

  // ----- Positions -----------------------------------------------------------

  function EntryPositionWrites(e: (string, Json)): (r: seq<(int, int)>)
    ensures forall i :: 0 <= i < |r| ==> ParseInt(e.0) == Some(r[i].0)
  {
    match ParseInt(e.0)
    case None => []
    case Some(d) =>
      if !e.1.JObj? then []
      else
        match ToInt(Get(e.1.fields, "Position"))
        case None => []
        case Some(p) => [(d, p)]
  }

  function PositionWrites(entries: JsonObject): seq<(int, int)>
    decreases |entries|
  {
    if entries == [] then []
    else PositionWrites(entries[..|entries| - 1]) + EntryPositionWrites(entries[|entries| - 1])
  }


  function NewDriverPositions(lib: Externals, m: Message, positions: map<int, int>): map<int, int> {
    ApplyWrites(positions, PositionWrites(LinesOf(lib, m)))
  }

  function NewPositionOrder(lib: Externals, m: Message, order: seq<int>): seq<int> {
    InsertOrder(order, PositionWrites(LinesOf(lib, m)))
  }

  // ----- The topic-keyed update ----------------------------------------------

  /** Pit data for this session comes from the older `PitLaneTimeCollection` topic. */
  predicate UseLegacyPitTopic(s: State) {
    s.sessionType != Some("Race")
    || (s.sessionStart.Some? && s.sessionStart.value < NEW_RACE_PIT_TOPIC_CUTOFF_DATE)
  }

  /** Pit data for this session comes from the newer `PitStopSeries` topic. */
  predicate UseNewPitTopic(s: State) {
    s.sessionType == Some("Race")
    && s.sessionStart.Some? && s.sessionStart.value >= NEW_RACE_PIT_TOPIC_CUTOFF_DATE
  }

  /** The update raises on neither an empty location list nor a malformed stint key or lap count. */
  predicate UpdateSafe(lib: Externals, m: Message) {
    && (m.topic == PositionZ ==> LocationsSafe(lib, m))
    && (m.topic == TimingAppData ==> StintsSafe(lib, m))
  }

  /**
   * The state after the topic-keyed update. The source dispatches on the
   * topic and each branch updates some fields; written field by field, each
   * field changes only under the topics that update it.
   */
  function UpdateState(lib: Externals, s: State, m: Message): State
    requires UpdateSafe(lib, m)
  {
    var info := if m.topic == SessionInfo then SessionInfoOf(lib, m) else None;
    State(
      sessionStreamStart := if m.topic == SessionData then NewSessionStreamStart(lib, m, s) else s.sessionStreamStart,
      sessionStart := if info.Some? then Some(info.value.0) else s.sessionStart,
      sessionOffset := if info.Some? then Some(info.value.1) else s.sessionOffset,
      sessionType := if info.Some? then Some(info.value.2) else s.sessionType,
      sessionStatus := s.sessionStatus,
      lapNumber := if m.topic == LapCount then NewLapNumber(lib, m, s.lapNumber) else s.lapNumber,
      qualifyingStageNumber :=
        if m.topic == SessionData && s.sessionType == Some("Qualifying")
        then NewQualifyingStageNumber(lib, m, s.qualifyingStageNumber) else s.qualifyingStageNumber,
      driverStints := if m.topic == TimingAppData then NewDriverStints(lib, m, s.driverStints) else s.driverStints,
      driverPits :=
        if (m.topic == PitLaneTimeCollection && UseLegacyPitTopic(s)) || (m.topic == PitStopSeries && UseNewPitTopic(s))
        then NewDriverPits(lib, m, s.driverPits) else s.driverPits,
      driverLocations := if m.topic == PositionZ then NewDriverLocations(lib, m, s.driverLocations) else s.driverLocations,
      driverPersonalBestLaps :=
        if m.topic == TimingData then NewDriverPersonalBestLaps(lib, m, s.driverPersonalBestLaps)
        else s.driverPersonalBestLaps,
      driverPositions := if m.topic == TimingData then NewDriverPositions(lib, m, s.driverPositions) else s.driverPositions,
      positionOrder := if m.topic == TimingData then NewPositionOrder(lib, m, s.positionOrder) else s.positionOrder)
  }
}

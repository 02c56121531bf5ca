/**
 * The event processors: given a message whose cause has been selected and
 * the state after the topic-keyed update, the events the collection yields
 * for it. A processor that walks the entries of a message, or the drivers
 * the collection tracks, is written as the per-element projection and a
 * `Gather` over the elements; the others yield at most one event.
 */
module Processors {
  import opened Wrappers
  import opened JsonValues
  import opened Writes
  import opened EventModel
  import opened SessionState
  import opened Folds

  // ----- What every event shares ---------------------------------------------

  /** An event of the collection at `date`, timed from the start of the session stream. */
  function MakeEvent(env: Env, s: State, date: Instant, category: Category, cause: Cause, details: Details): Event {
    Event(env.meetingKey, env.sessionKey, date, ElapsedTime(s.sessionStreamStart, Some(date)), category, cause, details)
  }

  /** The fields an event takes from the collection: its keys, and its elapsed time from the stream start. */
  predicate Stamped(env: Env, s: State, e: Event) {
    && e.meetingKey == env.meetingKey && e.sessionKey == env.sessionKey
    && e.elapsedTime == ElapsedTime(s.sessionStreamStart, Some(e.date))
  }

  /** The message's `Utc` time when it parses, else the time the message was received. */
  function MessageDate(lib: Externals, m: Message): Instant {
    lib.utcDate(Field(lib, m, "Utc")).GetOr(m.timepoint)
  }

  /** The message's `Lap` when `int()` accepts it, else the tracked lap. */
  function MessageLap(lib: Externals, m: Message, s: State): Option<int> {
    ToInt(Field(lib, m, "Lap")).Or(s.lapNumber)
  }

  /** The roles of an event that names one driver. */
  function Sole(d: int): Roles {
    map[d := Initiator]
  }

  // ----- Roles of the drivers an incident names -------------------------------

  /**
   * No driver gives no roles. Two or more drivers at a named location are a
   * contact with the first listed at fault: the first is the initiator and
   * every later one a participant, a later mention overriding the first.
   * Otherwise every driver named is an initiator.
   */
  function AssignRoles(drivers: seq<int>, marker: Option<string>): (r: Option<Roles>)
    ensures r.None? <==> drivers == []
    ensures r.Some? ==> forall d :: d in r.value <==> d in drivers
    ensures |drivers| >= 2 && marker.Some? ==>
      forall i :: 1 <= i < |drivers| ==> drivers[i] in r.value && r.value[drivers[i]] == Participant
    ensures |drivers| >= 2 && marker.Some? && drivers[0] !in drivers[1..] ==>
      drivers[0] in r.value && r.value[drivers[0]] == Initiator
    ensures !(|drivers| >= 2 && marker.Some?) ==> forall d :: d in drivers ==> d in r.value && r.value[d] == Initiator
  {
    if drivers == [] then None
    else if |drivers| >= 2 && marker.Some? then
      Some(map[drivers[0] := Initiator] + map d | d in drivers[1..] :: Participant)
    else
      Some(map d | d in drivers :: Initiator)
  }

  // ----- Incidents ---------------------------------------------------------------

  /** An incident event when the text matches the incident pattern; its lap, from the text first. */
  function IncidentEvents(env: Env, s: State, m: Message): (r: seq<Event>)
    ensures |r| <= 1
    ensures r != [] <==> Text(env.lib, m).Some? && env.lib.incidentPattern(Text(env.lib, m).value).Some?
    ensures r != [] ==>
      var text := Text(env.lib, m).value;
      var cap := env.lib.incidentPattern(text).value;
      var lap := ToInt(Field(env.lib, m, "Lap"));
      && Stamped(env, s, r[0]) && r[0].cause == Incident && r[0].category == DriverAction
      && r[0].date == MessageDate(env.lib, m)
      && r[0].details.IncidentDetails?
      && r[0].details.marker == cap.marker && r[0].details.reason == cap.reason && r[0].details.message == text
      && r[0].details.driverRoles == AssignRoles(cap.driverNumbers, cap.marker)
      && r[0].details.lapNumber == (if cap.lapNumber.Some? then cap.lapNumber else if lap.Some? then lap else s.lapNumber)
  {
    match Text(env.lib, m)
    case None => []
    case Some(text) =>
      match env.lib.incidentPattern(text)
      case None => []
      case Some(cap) =>
        var details := IncidentDetails(cap.lapNumber.Or(MessageLap(env.lib, m, s)), cap.marker,
                                       AssignRoles(cap.driverNumbers, cap.marker), cap.reason, text);
        [MakeEvent(env, s, MessageDate(env.lib, m), DriverAction, Incident, details)]
  }

  // ----- Outs --------------------------------------------------------------------

  /** The out event of one top-level entry: a driver-number key whose data has a truthy `IsOut`. */
  function OutEntryEvents(env: Env, s: State, t: Instant, e: (string, Json)): (r: seq<Event>)
    ensures |r| <= 1
    ensures r != [] <==> ParseInt(e.0).Some? && e.1.JObj? && Truthy(Get(e.1.fields, "IsOut"))
    ensures r != [] ==>
      var d := ParseInt(e.0).value;
      && Stamped(env, s, r[0]) && r[0].cause == Out && r[0].category == DriverAction && r[0].date == t
      && r[0].details == OutDetails(s.lapNumber, LocationOf(s, d), Some(Sole(d)))
  {
    match ParseInt(e.0)
    case None => []
    case Some(d) =>
      if !e.1.JObj? || !Truthy(Get(e.1.fields, "IsOut")) then []
      else [MakeEvent(env, s, t, DriverAction, Out, OutDetails(s.lapNumber, LocationOf(s, d), Some(Sole(d))))]
  }

  function OutStep(env: Env, s: State, t: Instant): ((string, Json)) -> seq<Event> {
    e => OutEntryEvents(env, s, t, e)
  }

  /** One out event per entry of the message that reports its driver out, in entry order. */
  function OutEvents(env: Env, s: State, m: Message): (r: seq<Event>)
    ensures forall ev :: ev in r ==>
      exists i :: 0 <= i < |m.content| && ev in OutEntryEvents(env, s, m.timepoint, m.content[i])
    ensures forall i, ev :: 0 <= i < |m.content| && ev in OutEntryEvents(env, s, m.timepoint, m.content[i]) ==> ev in r
    ensures var out := Emitters(m.content, OutStep(env, s, m.timepoint));
      && |r| == |out|
      && forall k :: 0 <= k < |out| ==> r[k] == OutEntryEvents(env, s, m.timepoint, m.content[out[k]])[0]
  {
    var f := OutStep(env, s, m.timepoint);
    assert forall e :: f(e) == OutEntryEvents(env, s, m.timepoint, e);
    GatherMembers(m.content, f);
    GatherAtMostOne(m.content, f);
    Gather(m.content, f)
  }

  // ----- Overtakes ---------------------------------------------------------------

  /** The entry of the overtaking driver: its data is an object whose `OvertakeState` equals 2. */
  predicate Overtaking(e: (string, Json)) {
    e.1.JObj? && PyEqInt(Get(e.1.fields, "OvertakeState"), 2)
  }

  /** The first overtaking entry. */
  function FirstOvertaking(entries: JsonObject): (r: Option<nat>)
    ensures r.Some? ==> r.value < |entries| && Overtaking(entries[r.value])
    ensures r.Some? ==> forall j :: 0 <= j < r.value ==> !Overtaking(entries[j])
    ensures r.None? ==> forall j :: 0 <= j < |entries| ==> !Overtaking(entries[j])
  {
    if entries == [] then None
    else if Overtaking(entries[0]) then Some(0)
    else match FirstOvertaking(entries[1..])
      case None => None
      case Some(k) => Some(k + 1)
  }

  /** The overtaking driver: the key of the first overtaking entry, `None` when it is not a number. */
  function Overtaker(entries: JsonObject): Option<int> {
    match FirstOvertaking(entries)
    case None => None
    case Some(i) => ParseInt(entries[i].0)
  }

  /** An overtaken entry: an object that is not overtaking and has a `Position`. */
  predicate Overtaken(e: (string, Json)) {
    e.1.JObj? && !PyEqInt(Get(e.1.fields, "OvertakeState"), 2) && !Get(e.1.fields, "Position").JNull?
  }

  /** Both `int(key)` and `int(Position)` succeed on an overtaken entry. */
  predicate Converts(e: (string, Json)) {
    Overtaken(e) ==> ParseInt(e.0).Some? && ToInt(Get(e.1.fields, "Position")).Some?
  }

  /** `(driver, position)` of an overtaken entry that converts. */
  function OvertakenPair(e: (string, Json)): seq<(int, int)> {
    if Overtaken(e) && Converts(e) then [(ParseInt(e.0).value, ToInt(Get(e.1.fields, "Position")).value)] else []
  }

  /** The overtaken drivers and their new positions, in entry order; none at all when one fails to convert. */
  function OvertakenList(entries: JsonObject): (r: seq<(int, int)>)
    ensures (exists i :: 0 <= i < |entries| && !Converts(entries[i])) ==> r == []
    ensures (forall i :: 0 <= i < |entries| ==> Converts(entries[i])) ==>
      && (forall p :: p in r ==> exists i :: 0 <= i < |entries| && p in OvertakenPair(entries[i]))
      && (forall i, p :: 0 <= i < |entries| && p in OvertakenPair(entries[i]) ==> p in r)
      && |r| == |Emitters(entries, OvertakenPair)|
      && (forall k :: 0 <= k < |r| ==> r[k] == OvertakenPair(entries[Emitters(entries, OvertakenPair)[k]])[0])
  {
    if forall i :: 0 <= i < |entries| ==> Converts(entries[i]) then
      GatherMembers(entries, OvertakenPair);
      GatherAtMostOne(entries, OvertakenPair);
      Gather(entries, OvertakenPair)
    else []
  }

  /** Driver `p.0` overtaken by `overtaker` and now at position `p.1`. */
  function OvertakeEvent(env: Env, s: State, t: Instant, overtaker: int, p: (int, int)): (ev: Event)
    ensures Stamped(env, s, ev) && ev.cause == Overtake && ev.category == DriverAction
    ensures ev.date == t - (p.1 - 1)
    ensures ev.details.OvertakeDetails?
    ensures ev.details.position == Some(p.1 - 1) && ev.details.lapNumber == s.lapNumber
    ensures ev.details.location == LocationOf(s, overtaker)
    ensures ev.details.driverRoles.Some? && ev.details.driverRoles.value.Keys == {overtaker, p.0}
    ensures ev.details.driverRoles.value[p.0] == Participant
    ensures overtaker != p.0 ==> ev.details.driverRoles.value[overtaker] == Initiator
  {
    var roles := map[overtaker := Initiator][p.0 := Participant];
    MakeEvent(env, s, t - (p.1 - 1), DriverAction, Overtake,
              OvertakeDetails(s.lapNumber, LocationOf(s, overtaker), Some(roles), Some(p.1 - 1)))
  }

  function OvertakeStep(env: Env, s: State, t: Instant, overtaker: int): ((int, int)) -> seq<Event> {
    p => [OvertakeEvent(env, s, t, overtaker, p)]
  }

  /** One event per overtaken driver, when the message names an overtaker. */
  function OvertakeEvents(env: Env, s: State, m: Message): seq<Event> {
    match Overtaker(m.content)
    case None => []
    case Some(o) => Gather(OvertakenList(m.content), OvertakeStep(env, s, m.timepoint, o))
  }

  // ----- Personal-best laps -----------------------------------------------------

  /** A personal-best event for a timing entry whose best and last lap times parse and agree. */
  function PersonalBestEntryEvents(env: Env, s: State, t: Instant, e: (string, Json)): (r: seq<Event>)
    ensures |r| <= 1
    ensures r != [] <==> ParseInt(e.0).Some? && e.1.JObj? && PersonalBestOf(env.lib, e.1.fields).Some?
    ensures r != [] ==>
      var d := ParseInt(e.0).value;
      && Stamped(env, s, r[0]) && r[0].cause == PersonalBestLap && r[0].category == DriverAction && r[0].date == t
      && (ToInt(Get(e.1.fields, "Position")).Some? ==>
            r[0].details == PersonalBestDetails(Some(Sole(d)), ToInt(Get(e.1.fields, "Position")),
                                                LapTimeOf(env.lib, e.1.fields, "BestLapTime"), CompoundOf(s, d), TyreAgeOf(s, d)))
      && (ToInt(Get(e.1.fields, "Position")).None? ==>
            r[0].details == UnplacedPersonalBestDetails(Some(Sole(d)), LapTimeOf(env.lib, e.1.fields, "BestLapTime"),
                                                        CompoundOf(s, d), TyreAgeOf(s, d)))
  {
    match ParseInt(e.0)
    case None => []
    case Some(d) =>
      if !e.1.JObj? then []
      else
        match PersonalBestOf(env.lib, e.1.fields)
        case None => []
        case Some(best) =>
          var details :=
            match ToInt(Get(e.1.fields, "Position"))
            case Some(position) =>
              PersonalBestDetails(Some(Sole(d)), Some(position), Some(best), CompoundOf(s, d), TyreAgeOf(s, d))
            case None =>
              UnplacedPersonalBestDetails(Some(Sole(d)), Some(best), CompoundOf(s, d), TyreAgeOf(s, d));
          [MakeEvent(env, s, t, DriverAction, PersonalBestLap, details)]
  }

  function PersonalBestStep(env: Env, s: State, t: Instant): ((string, Json)) -> seq<Event> {
    e => PersonalBestEntryEvents(env, s, t, e)
  }

  /** One personal-best event per timing entry that sets one, in entry order. */
  function PersonalBestEvents(env: Env, s: State, m: Message): (r: seq<Event>)
    ensures forall ev :: ev in r ==>
      exists i :: 0 <= i < |LinesOf(env.lib, m)| && ev in PersonalBestEntryEvents(env, s, m.timepoint, LinesOf(env.lib, m)[i])
    ensures forall i, ev ::
      (0 <= i < |LinesOf(env.lib, m)| && ev in PersonalBestEntryEvents(env, s, m.timepoint, LinesOf(env.lib, m)[i])) ==> ev in r
    ensures var lines := LinesOf(env.lib, m);
      var best := Emitters(lines, PersonalBestStep(env, s, m.timepoint));
      && |r| == |best|
      && forall k :: 0 <= k < |best| ==> r[k] == PersonalBestEntryEvents(env, s, m.timepoint, lines[best[k]])[0]
  {
    var f := PersonalBestStep(env, s, m.timepoint);
    assert forall e :: f(e) == PersonalBestEntryEvents(env, s, m.timepoint, e);
    GatherMembers(LinesOf(env.lib, m), f);
    GatherAtMostOne(LinesOf(env.lib, m), f);
    Gather(LinesOf(env.lib, m), f)
  }

  // ----- Pits --------------------------------------------------------------------

  /** The latest stint records a fitted compound on new tyres. */
  predicate PitGate(latest: JsonObject) {
    && HasKey(latest, "Compound")
    && Get(latest, "Compound") != JStr("UNKNOWN")
    && Get(latest, "TyresNotChanged") == JStr("0")
  }

  /** A pit event for a timing-app entry whose latest stint passes the gate, dated and lapped from the pit record. */
  function PitEntryEvents(env: Env, s: State, t: Instant, e: (string, Json)): (r: seq<Event>)
    requires EntryStintSafe(env.lib, e)
    ensures |r| <= 1
    ensures r != [] <==>
      ParseInt(e.0).Some? && e.1.JObj? && LatestStint(env.lib, e.1).Some? && PitGate(LatestStint(env.lib, e.1).value)
    ensures r != [] ==>
      var d := ParseInt(e.0).value;
      var date := Lookup(s.driverPits, (d, PitDate));
      var lap := Lookup(s.driverPits, (d, PitLap));
      && Stamped(env, s, r[0]) && r[0].cause == Pit && r[0].category == DriverAction
      && r[0].date == (if date.Some? then date.value else t)
      && r[0].details == PitDetails(if lap.Some? then lap else s.lapNumber, Some(Sole(d)), CompoundOf(s, d), TyreAgeOf(s, d),
                                    Lookup(s.driverPits, (d, PitLaneDuration)), Lookup(s.driverPits, (d, PitStopDuration)))
  {
    match ParseInt(e.0)
    case None => []
    case Some(d) =>
      if !e.1.JObj? then []
      else
        match LatestStint(env.lib, e.1)
        case None => []
        case Some(latest) =>
          if !PitGate(latest) then []
          else
            var date := Lookup(s.driverPits, (d, PitDate)).GetOr(t);
            var lap := Lookup(s.driverPits, (d, PitLap)).Or(s.lapNumber);
            var details := PitDetails(lap, Some(Sole(d)), CompoundOf(s, d), TyreAgeOf(s, d),
                                      Lookup(s.driverPits, (d, PitLaneDuration)), Lookup(s.driverPits, (d, PitStopDuration)));
            [MakeEvent(env, s, date, DriverAction, Pit, details)]
  }

  /** The pit step of the loop; the entries it visits are all safe, so the guard never fails there. */
  function PitStep(env: Env, s: State, t: Instant): ((string, Json)) -> seq<Event> {
    e => if EntryStintSafe(env.lib, e) then PitEntryEvents(env, s, t, e) else []
  }

  /** One pit event per timing-app entry that passes the gate, in entry order. */
  function PitEvents(env: Env, s: State, m: Message): (r: seq<Event>)
    requires StintsSafe(env.lib, m)
    ensures forall ev :: ev in r ==>
      exists i :: 0 <= i < |LinesOf(env.lib, m)| && ev in PitEntryEvents(env, s, m.timepoint, LinesOf(env.lib, m)[i])
    ensures forall i, ev ::
      (0 <= i < |LinesOf(env.lib, m)| && ev in PitEntryEvents(env, s, m.timepoint, LinesOf(env.lib, m)[i])) ==> ev in r
    ensures var lines := LinesOf(env.lib, m);
      var pits := Emitters(lines, PitStep(env, s, m.timepoint));
      && |r| == |pits|
      && forall k :: 0 <= k < |pits| ==> r[k] == PitEntryEvents(env, s, m.timepoint, lines[pits[k]])[0]
  {
    var lines := LinesOf(env.lib, m);
    var f := PitStep(env, s, m.timepoint);
    forall i | 0 <= i < |lines| ensures f(lines[i]) == PitEntryEvents(env, s, m.timepoint, lines[i]) {
    }
    GatherMembers(lines, f);
    GatherAtMostOne(lines, f);
    Gather(lines, f)
  }

  /** Every pit event carries its cause, the driver-action category, the pit details shape and the collection's stamp. */
  lemma PitEventsShape(env: Env, s: State, m: Message)
    requires StintsSafe(env.lib, m)
    ensures forall ev :: ev in PitEvents(env, s, m) ==>
      ev.cause == Pit && ev.category == DriverAction && ev.details.PitDetails? && Stamped(env, s, ev)
  {
    var lines := LinesOf(env.lib, m);
    forall ev | ev in PitEvents(env, s, m)
      ensures ev.cause == Pit && ev.category == DriverAction && ev.details.PitDetails? && Stamped(env, s, ev)
    {
      var i :| 0 <= i < |lines| && ev in PitEntryEvents(env, s, m.timepoint, lines[i]);
    }
  }

  // ----- Track limits ------------------------------------------------------------

  /** A track-limits event when the text matches; dated by the local time in the text when that converts. */
  function TrackLimitsEvents(env: Env, s: State, m: Message): (r: seq<Event>)
    ensures |r| <= 1
    ensures r != [] <==> Text(env.lib, m).Some? && env.lib.trackLimitsPattern(Text(env.lib, m).value).Some?
    ensures r != [] ==>
      var text := Text(env.lib, m).value;
      var cap := env.lib.trackLimitsPattern(text).value;
      var local := env.lib.localTimeOnDate(MessageDate(env.lib, m), cap.time, s.sessionOffset);
      var lap := ToInt(Field(env.lib, m, "Lap"));
      && Stamped(env, s, r[0]) && r[0].cause == TrackLimits && r[0].category == DriverAction
      && r[0].date == (if local.Some? then local.value else MessageDate(env.lib, m))
      && r[0].details.TrackLimitsDetails?
      && r[0].details.lapNumber == (if cap.lapNumber.Some? then cap.lapNumber else if lap.Some? then lap else s.lapNumber)
      && r[0].details.marker == cap.marker && r[0].details.message == text
      && r[0].details.driverRoles == (if cap.driverNumber.Some? then Some(Sole(cap.driverNumber.value)) else None)
  {
    match Text(env.lib, m)
    case None => []
    case Some(text) =>
      match env.lib.trackLimitsPattern(text)
      case None => []
      case Some(cap) =>
        var date := MessageDate(env.lib, m);
        var local := env.lib.localTimeOnDate(date, cap.time, s.sessionOffset);
        var roles := if cap.driverNumber.Some? then Some(Sole(cap.driverNumber.value)) else None;
        var details := TrackLimitsDetails(cap.lapNumber.Or(MessageLap(env.lib, m, s)), cap.marker, roles, text);
        [MakeEvent(env, s, local.GetOr(date), DriverAction, TrackLimits, details)]
  }

  // ----- Incident verdicts -------------------------------------------------------

  /** A verdict event from the standard verdict pattern, else from the penalty pattern. */
  function VerdictEvents(env: Env, s: State, m: Message): (r: seq<Event>)
    ensures |r| <= 1
    ensures r != [] <==>
      Text(env.lib, m).Some? &&
      (env.lib.verdictPattern(Text(env.lib, m).value).Some? || env.lib.penaltyPattern(Text(env.lib, m).value).Some?)
    ensures r != [] ==>
      && Stamped(env, s, r[0]) && r[0].cause == IncidentVerdict && r[0].category == DriverNotification
      && (r[0].details.VerdictDetails? || r[0].details.PenaltyDetails?)
      && r[0].date == MessageDate(env.lib, m) && r[0].details.lapNumber == MessageLap(env.lib, m, s)
      && r[0].details.message == Text(env.lib, m).value
    ensures r != [] && env.lib.verdictPattern(Text(env.lib, m).value).Some? ==>
      var cap := env.lib.verdictPattern(Text(env.lib, m).value).value;
      && r[0].details.VerdictDetails?
      && r[0].details.marker == cap.marker && r[0].details.verdict == cap.verdict && r[0].details.reason == cap.reason
      && r[0].details.driverRoles == AssignRoles(cap.driverNumbers, cap.marker)
    ensures r != [] && env.lib.verdictPattern(Text(env.lib, m).value).None? ==>
      var cap := env.lib.penaltyPattern(Text(env.lib, m).value).value;
      && r[0].details.PenaltyDetails?
      && r[0].details.verdict == cap.verdict && r[0].details.reason == cap.reason
      && r[0].details.driverRoles == (if cap.driverNumber.Some? then Some(Sole(cap.driverNumber.value)) else None)
  {
    match Text(env.lib, m)
    case None => []
    case Some(text) =>
      var date, lap := MessageDate(env.lib, m), MessageLap(env.lib, m, s);
      match env.lib.verdictPattern(text)
      case Some(cap) =>
        var details := VerdictDetails(lap, cap.marker, AssignRoles(cap.driverNumbers, cap.marker), cap.verdict, cap.reason, text);
        [MakeEvent(env, s, date, DriverNotification, IncidentVerdict, details)]
      case None =>
        match env.lib.penaltyPattern(text)
        case None => []
        case Some(cap) =>
          var roles := if cap.driverNumber.Some? then Some(Sole(cap.driverNumber.value)) else None;
          [MakeEvent(env, s, date, DriverNotification, IncidentVerdict, PenaltyDetails(lap, roles, cap.verdict, cap.reason, text))]
  }

  // ----- Classifications ---------------------------------------------------------

  predicate PracticeOrQualifying(s: State) {
    s.sessionType == Some("Practice") || s.sessionType == Some("Qualifying")
  }

  /** A driver's provisional classification, dated `position` microseconds after the message. */
  function ClassificationEvent(env: Env, s: State, t: Instant, d: int): (ev: Event)
    requires d in s.driverPositions
    ensures Stamped(env, s, ev) && ev.cause == ProvisionalClassification && ev.category == DriverNotification
    ensures ev.date == t + s.driverPositions[d]
    ensures ev.details.ClassificationDetails?
    ensures ev.details.driverRoles == Some(Sole(d)) && ev.details.position == Some(s.driverPositions[d])
    ensures PracticeOrQualifying(s) ==>
      ev.details.lapDuration == Lookup(s.driverPersonalBestLaps, d)
      && ev.details.compound == CompoundOf(s, d) && ev.details.tyreAgeAtStart == TyreAgeOf(s, d)
    ensures !PracticeOrQualifying(s) ==>
      ev.details.lapDuration.None? && ev.details.compound.None? && ev.details.tyreAgeAtStart.None?
  {
    var pos := s.driverPositions[d];
    var q := PracticeOrQualifying(s);
    var details := ClassificationDetails(Some(Sole(d)), Some(pos),
                                         if q then Lookup(s.driverPersonalBestLaps, d) else None,
                                         if q then CompoundOf(s, d) else None,
                                         if q then TyreAgeOf(s, d) else None);
    MakeEvent(env, s, t + pos, DriverNotification, ProvisionalClassification, details)
  }

  function ClassificationStep(env: Env, s: State, t: Instant): int -> seq<Event> {
    d => if d in s.driverPositions then [ClassificationEvent(env, s, t, d)] else []
  }

  /** Every tracked position is recorded in the iteration order of the positions. */
  predicate OrderedPositions(s: State) {
    forall k :: 0 <= k < |s.positionOrder| ==> s.positionOrder[k] in s.driverPositions
  }

  /** One provisional classification per driver with a tracked position, in the order positions were first recorded. */
  function ProvisionalEvents(env: Env, s: State, m: Message): seq<Event>
    requires OrderedPositions(s)
  {
    Gather(s.positionOrder, ClassificationStep(env, s, m.timepoint))
  }

  /** The stage a `SessionPart` names, when `int()` accepts it. */
  function StagePart(lib: Externals, m: Message): Option<int> {
    ToInt(Field(lib, m, "SessionPart"))
  }

  /** An entry naming a driver names one whose position is tracked; otherwise the source raises. */
  predicate StageEntryRanked(s: State, e: (string, Json)) {
    ParseInt(e.0).Some? && e.1.JObj? ==> ParseInt(e.0).value in s.driverPositions
  }

  predicate StageClassificationSafe(lib: Externals, s: State, m: Message) {
    (StagePart(lib, m) == Some(2) || StagePart(lib, m) == Some(3)) ==>
      forall i :: 0 <= i < |LinesOf(lib, m)| ==> StageEntryRanked(s, LinesOf(lib, m)[i])
  }

  /** The classification of one driver out of the stage before `stage`, advanced or knocked out. */
  function StageEntryEvents(env: Env, s: State, t: Instant, stage: int, e: (string, Json)): (r: seq<Event>)
    requires StageEntryRanked(s, e)
    ensures |r| <= 1
    ensures r != [] <==> ParseInt(e.0).Some? && e.1.JObj?
    ensures r != [] ==>
      var d := ParseInt(e.0).value;
      && Stamped(env, s, r[0]) && r[0].cause == QualifyingStageClassification && r[0].category == DriverNotification
      && r[0].date == t + s.driverPositions[d]
      && r[0].details == StageClassificationDetails(
           Some(Sole(d)), Some(s.driverPositions[d]), Lookup(s.driverPersonalBestLaps, d), CompoundOf(s, d),
           TyreAgeOf(s, d), stage - 1, Truthy(Get(e.1.fields, "KnockedOut")))
  {
    match ParseInt(e.0)
    case None => []
    case Some(d) =>
      if !e.1.JObj? then []
      else
        var pos := s.driverPositions[d];
        var details := StageClassificationDetails(Some(Sole(d)), Some(pos), Lookup(s.driverPersonalBestLaps, d),
                                                  CompoundOf(s, d), TyreAgeOf(s, d), stage - 1,
                                                  Truthy(Get(e.1.fields, "KnockedOut")));
        [MakeEvent(env, s, t + pos, DriverNotification, QualifyingStageClassification, details)]
  }

  function StageStep(env: Env, s: State, t: Instant, stage: int): ((string, Json)) -> seq<Event> {
    e => if StageEntryRanked(s, e) then StageEntryEvents(env, s, t, stage, e) else []
  }

  /** At the start of the second or third stage, one classification per driver entry of the message. */
  function StageClassificationEvents(env: Env, s: State, m: Message): (r: seq<Event>)
    requires StageClassificationSafe(env.lib, s, m)
    ensures StagePart(env.lib, m) != Some(2) && StagePart(env.lib, m) != Some(3) ==> r == []
    ensures StagePart(env.lib, m) == Some(2) || StagePart(env.lib, m) == Some(3) ==>
      && (forall ev :: ev in r ==> exists i :: (0 <= i < |LinesOf(env.lib, m)| &&
            ev in StageEntryEvents(env, s, m.timepoint, StagePart(env.lib, m).value, LinesOf(env.lib, m)[i])))
      && (forall i, ev ::
            (0 <= i < |LinesOf(env.lib, m)| &&
             ev in StageEntryEvents(env, s, m.timepoint, StagePart(env.lib, m).value, LinesOf(env.lib, m)[i])) ==> ev in r)
    ensures StagePart(env.lib, m) == Some(2) || StagePart(env.lib, m) == Some(3) ==>
      var lines := LinesOf(env.lib, m);
      var n := StagePart(env.lib, m).value;
      var drivers := Emitters(lines, StageStep(env, s, m.timepoint, n));
      && |r| == |drivers|
      && forall k :: 0 <= k < |drivers| ==> r[k] == StageEntryEvents(env, s, m.timepoint, n, lines[drivers[k]])[0]
  {
    match StagePart(env.lib, m)
    case Some(n) =>
      if n != 2 && n != 3 then []
      else
        var f := StageStep(env, s, m.timepoint, n);
        assert forall e | StageEntryRanked(s, e) :: f(e) == StageEntryEvents(env, s, m.timepoint, n, e);
        GatherMembers(LinesOf(env.lib, m), f);
        GatherAtMostOne(LinesOf(env.lib, m), f);
        Gather(LinesOf(env.lib, m), f)
    case None => []
  }

  // ----- Flags, notifications and other race-control messages --------------------

  /** A driver flag without a `RacingNumber` names its car in the text; otherwise the source raises. */
  predicate DriverFlagSafe(lib: Externals, m: Message) {
    Text(lib, m).Some? && ToInt(Field(lib, m, "RacingNumber")).None? ==> lib.carPattern(Text(lib, m).value).Some?
  }

  /** The driver of a driver flag: its `RacingNumber`, else the car the text names. */
  function FlaggedDriver(lib: Externals, m: Message): int
    requires Text(lib, m).Some? && DriverFlagSafe(lib, m)
  {
    ToInt(Field(lib, m, "RacingNumber")).GetOr(lib.carPattern(Text(lib, m).value).GetOr(0))
  }

  function DriverFlagEvents(env: Env, s: State, m: Message, cause: Cause): (r: seq<Event>)
    requires DriverFlagSafe(env.lib, m)
    ensures |r| <= 1 && (r != [] <==> Text(env.lib, m).Some?)
    ensures r != [] ==>
      var racing := ToInt(Field(env.lib, m, "RacingNumber"));
      var d := if racing.Some? then racing.value else env.lib.carPattern(Text(env.lib, m).value).value;
      && Stamped(env, s, r[0]) && r[0].cause == cause && r[0].category == DriverNotification
      && r[0].date == MessageDate(env.lib, m)
      && r[0].details == DriverFlagDetails(MessageLap(env.lib, m, s), Some(Sole(d)), Text(env.lib, m).value)
  {
    match Text(env.lib, m)
    case None => []
    case Some(text) =>
      var details := DriverFlagDetails(MessageLap(env.lib, m, s), Some(Sole(FlaggedDriver(env.lib, m))), text);
      [MakeEvent(env, s, MessageDate(env.lib, m), DriverNotification, cause, details)]
  }

  /** A sector flag's text names its sector; otherwise the source raises. */
  predicate SectorFlagSafe(lib: Externals, m: Message) {
    Text(lib, m).Some? ==> lib.sectorPattern(Text(lib, m).value).Some?
  }

  function SectorFlagEvents(env: Env, s: State, m: Message, cause: Cause): (r: seq<Event>)
    requires SectorFlagSafe(env.lib, m)
    ensures |r| <= 1 && (r != [] <==> Text(env.lib, m).Some?)
    ensures r != [] ==>
      && Stamped(env, s, r[0]) && r[0].cause == cause && r[0].category == SectorNotification
      && r[0].date == MessageDate(env.lib, m)
      && r[0].details == SectorFlagDetails(MessageLap(env.lib, m, s), env.lib.sectorPattern(Text(env.lib, m).value),
                                           Text(env.lib, m).value)
  {
    match Text(env.lib, m)
    case None => []
    case Some(text) =>
      var details := SectorFlagDetails(MessageLap(env.lib, m, s), env.lib.sectorPattern(text), text);
      [MakeEvent(env, s, MessageDate(env.lib, m), SectorNotification, cause, details)]
  }

  /** A race-control message reported as is, under `category` and `cause`. */
  function MessageEvents(env: Env, s: State, m: Message, category: Category, cause: Cause): (r: seq<Event>)
    ensures |r| <= 1 && (r != [] <==> Text(env.lib, m).Some?)
    ensures r != [] ==>
      && Stamped(env, s, r[0]) && r[0].cause == cause && r[0].category == category
      && r[0].date == MessageDate(env.lib, m)
      && r[0].details == MessageDetails(MessageLap(env.lib, m, s), Text(env.lib, m).value)
  {
    match Text(env.lib, m)
    case None => []
    case Some(text) => [MakeEvent(env, s, MessageDate(env.lib, m), category, cause, MessageDetails(MessageLap(env.lib, m, s), text))]
  }

  /** A session notification: one event at the message time, with no details. */
  function SessionNotificationEvents(env: Env, s: State, m: Message, cause: Cause): (r: seq<Event>)
    ensures |r| == 1
    ensures Stamped(env, s, r[0]) && r[0].cause == cause && r[0].category == SessionNotification
    ensures r[0].date == m.timepoint && r[0].details == NoDetails
  {
    [MakeEvent(env, s, m.timepoint, SessionNotification, cause, NoDetails)]
  }
}

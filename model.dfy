/**
 * The vocabulary of the events collection: causes, categories, the sparse
 * per-cause details payload, emitted events, and the collaborators whose
 * internals are outside this model (nested lookup, date and lap-time
 * parsing, the regular-expression extractors and the details hash), which
 * the collection receives as function values.
 */
module EventModel {
  import opened Wrappers
  import opened JsonValues

  /** A point in time, in microseconds since the Unix epoch (UTC). */
  type Instant = int

  /** A duration read from a float of seconds; its scale is opaque to the model. */
  type Millis = int

  /** The closed set of event causes, in the order the enumeration declares them. */
  datatype Cause =
    | PersonalBestLap | Incident | TrackLimits | Out | Overtake | Pit
    | BlackFlag | BlackAndOrangeFlag | BlackAndWhiteFlag | BlueFlag
    | IncidentVerdict | ProvisionalClassification | QualifyingStageClassification
    | GreenFlag | YellowFlag | DoubleYellowFlag
    | ChequeredFlag | RedFlag | SafetyCarDeployed | VirtualSafetyCarDeployed
    | SafetyCarEnding | VirtualSafetyCarEnding
    | SessionStart | SessionEnd | SessionStop | SessionResume
    | PracticeStart | PracticeEnd
    | Q1Start | Q1End | Q2Start | Q2End | Q3Start | Q3End
    | RaceStart | RaceEnd
    | RaceControlMessage

  datatype Category =
    | DriverAction | DriverNotification | SectorNotification
    | TrackNotification | SessionNotification | Other

  /** The causes whose processor emits a session notification and then records the new session status. */
  predicate IsSessionNotification(c: Cause) {
    match c
    case SessionStart | SessionEnd | SessionStop | SessionResume | PracticeStart | PracticeEnd
      | Q1Start | Q1End | Q2Start | Q2End | Q3Start | Q3End | RaceStart | RaceEnd => true
    case _ => false
  }

  datatype Role = Initiator | Participant

  /** Driver number to role; the source keys it by the number's decimal text. */
  type Roles = map<int, Role>

  /** The `{x, y, z}` marker of out and overtake events; an axis never recorded is `None`. */
  datatype LocationMarker = LocationMarker(x: Option<int>, y: Option<int>, z: Option<int>)

  /**
   * The details payload, one constructor per shape the processors build, so
   * that an event only carries the fields meaningful for its cause. A field
   * of type `Option` is a key the source always writes, possibly as `None`.
   * A personal-best lap has two shapes: with a `position` key when the
   * entry's position converts, and without that key otherwise.
   */
  datatype Details =
    | IncidentDetails(lapNumber: Option<int>, marker: Option<string>, driverRoles: Option<Roles>,
                      reason: Option<string>, message: string)
    | OutDetails(lapNumber: Option<int>, location: LocationMarker, driverRoles: Option<Roles>)
    | OvertakeDetails(lapNumber: Option<int>, location: LocationMarker, driverRoles: Option<Roles>,
                      position: Option<int>)
    | PersonalBestDetails(driverRoles: Option<Roles>, position: Option<int>, lapDuration: Option<Millis>,
                          compound: Option<string>, tyreAgeAtStart: Option<int>)
    | UnplacedPersonalBestDetails(driverRoles: Option<Roles>, lapDuration: Option<Millis>,
                                  compound: Option<string>, tyreAgeAtStart: Option<int>)
    | PitDetails(lapNumber: Option<int>, driverRoles: Option<Roles>, compound: Option<string>,
                 tyreAgeAtStart: Option<int>, pitLaneDuration: Option<Millis>, pitStopDuration: Option<Millis>)
    | TrackLimitsDetails(lapNumber: Option<int>, marker: Option<string>, driverRoles: Option<Roles>,
                         message: string)
    | VerdictDetails(lapNumber: Option<int>, marker: Option<string>, driverRoles: Option<Roles>,
                     verdict: Option<string>, reason: Option<string>, message: string)
    | PenaltyDetails(lapNumber: Option<int>, driverRoles: Option<Roles>, verdict: Option<string>,
                     reason: Option<string>, message: string)
    | ClassificationDetails(driverRoles: Option<Roles>, position: Option<int>, lapDuration: Option<Millis>,
                            compound: Option<string>, tyreAgeAtStart: Option<int>)
    | StageClassificationDetails(driverRoles: Option<Roles>, position: Option<int>, lapDuration: Option<Millis>,
                                 compound: Option<string>, tyreAgeAtStart: Option<int>,
                                 qualifyingStageNumber: int, eliminated: bool)
    | DriverFlagDetails(lapNumber: Option<int>, driverRoles: Option<Roles>, message: string)
    | SectorFlagDetails(lapNumber: Option<int>, marker: Option<string>, message: string)
    | MessageDetails(lapNumber: Option<int>, message: string)
    | NoDetails

  /** Which details shapes a cause's processor may build. */
  predicate DetailsFit(c: Cause, d: Details) {
    match c
    case Incident => d.IncidentDetails?
    case Out => d.OutDetails?
    case Overtake => d.OvertakeDetails?
    case PersonalBestLap => d.PersonalBestDetails? || d.UnplacedPersonalBestDetails?
    case Pit => d.PitDetails?
    case TrackLimits => d.TrackLimitsDetails?
    case BlackFlag => d.DriverFlagDetails?
    case BlackAndOrangeFlag => d.DriverFlagDetails?
    case BlackAndWhiteFlag => d.DriverFlagDetails?
    case BlueFlag => d.DriverFlagDetails?
    case IncidentVerdict => d.VerdictDetails? || d.PenaltyDetails?
    case ProvisionalClassification => d.ClassificationDetails?
    case QualifyingStageClassification => d.StageClassificationDetails?
    case GreenFlag => d.SectorFlagDetails? || d.MessageDetails?
    case YellowFlag => d.SectorFlagDetails?
    case DoubleYellowFlag => d.SectorFlagDetails?
    case ChequeredFlag => d.MessageDetails?
    case RedFlag => d.MessageDetails?
    case SafetyCarDeployed => d.MessageDetails?
    case VirtualSafetyCarDeployed => d.MessageDetails?
    case SafetyCarEnding => d.MessageDetails?
    case VirtualSafetyCarEnding => d.MessageDetails?
    case RaceControlMessage => d.MessageDetails?
    case _ => d.NoDetails?
  }

  /** The signed time between the stream start and an event; its text rendering is not modelled. */
  datatype Elapsed = Elapsed(negative: bool, magnitude: nat)

  function Signed(e: Elapsed): int {
    if e.negative then -(e.magnitude as int) else e.magnitude
  }

  /**
   * The elapsed session time of an event: absent when either end is unknown,
   * marked negative when the event precedes the stream start.
   */
  function ElapsedTime(start: Option<Instant>, end: Option<Instant>): (r: Option<Elapsed>)
    ensures r.None? <==> start.None? || end.None?
    ensures r.Some? ==> (r.value.negative <==> end.value < start.value)
    ensures r.Some? ==> Signed(r.value) == end.value - start.value
  {
    if start.None? || end.None? then None
    else if end.value < start.value then Some(Elapsed(true, start.value - end.value))
    else Some(Elapsed(false, end.value - start.value))
  }

  datatype Event = Event(
    meetingKey: int,
    sessionKey: int,
    date: Instant,
    elapsedTime: Option<Elapsed>,
    category: Category,
    cause: Cause,
    details: Details)

  /** What the incident pattern captures from a race-control text. */
  datatype IncidentCapture = IncidentCapture(
    marker: Option<string>, lapNumber: Option<int>, driverNumbers: seq<int>, reason: Option<string>)

  /** What the standard incident-verdict pattern captures. */
  datatype VerdictCapture = VerdictCapture(
    marker: Option<string>, driverNumbers: seq<int>, verdict: Option<string>, reason: Option<string>)

  /** What the "... FOR CAR N (XXX)" penalty pattern captures. */
  datatype PenaltyCapture = PenaltyCapture(
    verdict: Option<string>, driverNumber: Option<int>, reason: Option<string>)

  /** What the track-limits pattern captures. */
  datatype TrackLimitsCapture = TrackLimitsCapture(
    driverNumber: Option<int>, marker: Option<string>, lapNumber: Option<int>, time: Option<string>)

  /**
   * Collaborators whose internals this model does not define. Each returns
   * `None` where the original raises or finds nothing.
   */
  datatype Externals = Externals(
    deepGet: (Json, string) -> Json,                     // nested lookup; JNull when absent
    utcDate: Json -> Option<Instant>,                     // parse a UTC timestamp field
    sessionStartDate: (string, string) -> Option<Instant>, // parse a start date and attach a GMT offset
    lapTime: string -> Option<Millis>,                    // parse a lap-time text
    toFloat: Json -> Option<Millis>,                      // float() of a duration
    isClose: (Millis, Millis) -> bool,                    // equality to within 1e-3 relative tolerance
    localTimeOnDate: (Instant, Option<string>, Option<string>) -> Option<Instant>, // local HH:MM:SS on a date, with offset
    repr: Json -> string,                                 // str() of floats and containers
    incidentPattern: string -> Option<IncidentCapture>,
    verdictPattern: string -> Option<VerdictCapture>,
    penaltyPattern: string -> Option<PenaltyCapture>,
    trackLimitsPattern: string -> Option<TrackLimitsCapture>,
    carPattern: string -> Option<int>,                    // "CAR <n>" in a text
    sectorPattern: string -> Option<string>,              // "SECTOR <n>" in a text
    hashDetails: Details -> string)                       // stable hash of a details payload

  /** What an events collection is constructed with. */
  datatype Env = Env(meetingKey: int, sessionKey: int, lib: Externals)

  /** The deduplication key of an event: its date, its cause and the hash of its details. */
  function UniqueKey(lib: Externals, e: Event): (Instant, Cause, string) {
    (e.date, e.cause, lib.hashDetails(e.details))
  }

  /**
   * The feed topics the collection subscribes to, by name: "DriverRaceInfo",
   * "LapCount", "PitLaneTimeCollection", "PitStopSeries", "Position.z",
   * "RaceControlMessages", "SessionData", "SessionInfo", "TimingAppData" and
   * "TimingData". A message on any other topic reads as `OtherTopic`.
   */
  datatype Topic =
    | DriverRaceInfo | LapCount | PitLaneTimeCollection | PitStopSeries | PositionZ
    | RaceControlMessages | SessionData | SessionInfo | TimingAppData | TimingData
    | OtherTopic

  /** A message from the feed. */
  datatype Message = Message(topic: Topic, content: JsonObject, timepoint: Instant)

  /** Nested lookup of `key` in a message's content. */
  function Field(lib: Externals, m: Message, key: string): Json {
    lib.deepGet(JObj(m.content), key)
  }

  /** The `Message` text of a race-control message, when it is a string. */
  function Text(lib: Externals, m: Message): Option<string> {
    if Field(lib, m, "Message").JStr? then Some(Field(lib, m, "Message").s) else None
  }

  /** `isinstance(text, str) and sub in text`. */
  predicate TextHas(lib: Externals, m: Message, sub: string) {
    Text(lib, m).Some? && Contains(Text(lib, m).value, sub)
  }
}

/**
 * The collection itself: an object whose fields hold what the session has
 * reported so far, with one method per update and per processor of
 * `EventsCollection`. Each update method is proved to leave the fields as the
 * matching `SessionState` function says, each processor to yield the events
 * of the matching `Processors` function, and `ProcessMessage` to move the
 * object exactly as `Dispatch.Step` moves its state.
 */
module Collection {
  import opened Wrappers
  import opened JsonValues
  import opened Writes
  import opened EventModel
  import opened SessionState
  import opened Folds
  import opened Rules
  import opened Processors
  import opened Dispatch

  // ----- Loop steps ------------------------------------------------------------

  /** One more write of an entry's batch is one more change-gated `Put`. */
  lemma PutNext<K(!new), V>(m: map<K, V>, before: seq<(K, V)>, ws: seq<(K, V)>, j: nat)
    requires j < |ws|
    ensures ApplyWrites(m, before + ws[..j + 1]) == Put(ApplyWrites(m, before + ws[..j]), ws[j].0, ws[j].1)
  {
    var prefix := before + ws[..j];
    assert before + ws[..j + 1] == prefix + [ws[j]];
    assert (prefix + [ws[j]])[..|prefix|] == prefix;
  }

  lemma NoneYet<T>(before: seq<T>, ws: seq<T>)
    ensures before + ws[..0] == before && before + ws[..|ws|] == before + ws
  {
    assert ws[..0] == [] && ws[..|ws|] == ws;
  }

  /** An entry yielding at most one write is at most one `Put`, which also records a new key in the order. */
  lemma PutOne<K(!new), V>(m: map<K, V>, order: seq<K>, before: seq<(K, V)>, ws: seq<(K, V)>)
    requires |ws| <= 1
    ensures ws == [] ==> ApplyWrites(m, before + ws) == ApplyWrites(m, before)
    ensures ws == [] ==> InsertOrder(order, before + ws) == InsertOrder(order, before)
    ensures ws != [] ==> ApplyWrites(m, before + ws) == Put(ApplyWrites(m, before), ws[0].0, ws[0].1)
    ensures ws != [] ==> InsertOrder(order, before + ws) == PutOrder(InsertOrder(order, before), ws[0].0)
  {
    if ws == [] {
      assert before + ws == before;
    } else {
      assert (before + ws)[..|before|] == before;
    }
  }

  lemma LocationWritesNext(entries: JsonObject, i: nat)
    requires i < |entries|
    ensures LocationWrites(entries[..i + 1]) == LocationWrites(entries[..i]) + EntryLocationWrites(entries[i])
  {
    assert entries[..i + 1][..i] == entries[..i];
  }

  lemma StintWritesNext(lib: Externals, entries: JsonObject, i: nat)
    requires i < |entries| && EntriesStintSafe(lib, entries)
    ensures EntriesStintSafe(lib, entries[..i]) && EntriesStintSafe(lib, entries[..i + 1])
    ensures StintWrites(lib, entries[..i + 1]) == StintWrites(lib, entries[..i]) + EntryStintWrites(lib, entries[i])
  {
    assert entries[..i + 1][..i] == entries[..i];
  }

  lemma PersonalBestWritesNext(lib: Externals, entries: JsonObject, i: nat)
    requires i < |entries|
    ensures |EntryPersonalBestWrites(lib, entries[i])| <= 1
    ensures PersonalBestWrites(lib, entries[..i + 1])
      == PersonalBestWrites(lib, entries[..i]) + EntryPersonalBestWrites(lib, entries[i])
  {
    assert entries[..i + 1][..i] == entries[..i];
  }

  lemma PitWritesNext(lib: Externals, t: Instant, entries: JsonObject, i: nat)
    requires i < |entries|
    ensures PitWrites(lib, t, entries[..i + 1]) == PitWrites(lib, t, entries[..i]) + EntryPitWrites(lib, t, entries[i])
  {
    assert entries[..i + 1][..i] == entries[..i];
  }

  lemma PositionWritesNext(entries: JsonObject, i: nat)
    requires i < |entries|
    ensures |EntryPositionWrites(entries[i])| <= 1
    ensures PositionWrites(entries[..i + 1]) == PositionWrites(entries[..i]) + EntryPositionWrites(entries[i])
  {
    assert entries[..i + 1][..i] == entries[..i];
  }

  /** A track flag or safety-car message is filed as a track notification carrying the message. */
  lemma TrackMessagesAreMessages(env: Env, s: State, m: Message, c: Cause)
    requires c in {ChequeredFlag, RedFlag, SafetyCarDeployed, VirtualSafetyCarDeployed, SafetyCarEnding,
                   VirtualSafetyCarEnding}
    ensures Emit(env, s, m, c) == MessageEvents(env, s, m, TrackNotification, c)
  {
  }

  class EventsCollection {
    const meetingKey: int
    const sessionKey: int
    const lib: Externals

    var sessionStreamStart: Option<Instant>
    var sessionStart: Option<Instant>
    var sessionOffset: Option<string>
    var sessionType: Option<string>
    var sessionStatus: Option<string>
    var lapNumber: Option<int>
    var qualifyingStageNumber: Option<int>
    var driverStints: map<(int, StintField), StintValue>
    var driverPits: map<(int, PitField), int>
    var driverLocations: map<(int, Axis), int>
    var driverPersonalBestLaps: map<int, Millis>
    var driverPositions: map<int, int>
    var positionOrder: seq<int>   // the iteration order of `driver_positions`

    /** The fields, as the value the rest of the model reasons about. */
    function View(): State
      reads this
    {
      State(sessionStreamStart, sessionStart, sessionOffset, sessionType, sessionStatus, lapNumber,
            qualifyingStageNumber, driverStints, driverPits, driverLocations, driverPersonalBestLaps,
            driverPositions, positionOrder)
    }

    /** What every event of this collection is stamped with. */
    function Environment(): Env {
      Env(meetingKey, sessionKey, lib)
    }

    constructor(meetingKey: int, sessionKey: int, lib: Externals)
      ensures Environment() == Env(meetingKey, sessionKey, lib)
      ensures View() == Initial() && Valid(View())
    {
      this.meetingKey := meetingKey;
      this.sessionKey := sessionKey;
      this.lib := lib;
      sessionStreamStart, sessionStart, sessionOffset, sessionType := None, None, None, None;
      sessionStatus, lapNumber, qualifyingStageNumber := None, None, None;
      driverStints, driverPits, driverLocations := map[], map[], map[];
      driverPersonalBestLaps, driverPositions, positionOrder := map[], map[], [];
      new;
      InitialValid();
    }

    // ----- Per-session updates -----------------------------------------------

    method UpdateLapNumber(m: Message)
      modifies this`lapNumber
      ensures lapNumber == NewLapNumber(lib, m, old(lapNumber))
    {
      var lap := ToInt(Field(lib, m, "CurrentLap"));
      if lap.Some? {
        lapNumber := lap;
      }
    }

    method UpdateSessionStreamStart(m: Message)
      modifies this`sessionStreamStart
      ensures sessionStreamStart == NewSessionStreamStart(lib, m, old(View()))
    {
      if SessionStartRule(lib, m, View()) {
        sessionStreamStart := Some(m.timepoint);
      }
    }

    method UpdateSessionInfo(m: Message)
      modifies this`sessionStart, this`sessionOffset, this`sessionType
      ensures SessionInfoOf(lib, m).None? ==>
        sessionStart == old(sessionStart) && sessionOffset == old(sessionOffset) && sessionType == old(sessionType)
      ensures SessionInfoOf(lib, m).Some? ==>
        var info := SessionInfoOf(lib, m).value;
        sessionStart == Some(info.0) && sessionOffset == Some(info.1) && sessionType == Some(info.2)
    {
      var info := SessionInfoOf(lib, m);
      if info.Some? {
        sessionStart := Some(info.value.0);
        sessionOffset := Some(info.value.1);
        sessionType := Some(info.value.2);
      }
    }

    method UpdateSessionStatus(m: Message)
      modifies this`sessionStatus
      ensures sessionStatus == NewSessionStatus(lib, m, old(sessionStatus))
    {
      var status := StatusText(lib, m);
      if status in SESSION_STATUSES {
        sessionStatus := Some(status);
      }
    }

    method UpdateQualifyingStageNumber(m: Message)
      modifies this`qualifyingStageNumber
      ensures qualifyingStageNumber == NewQualifyingStageNumber(lib, m, old(qualifyingStageNumber))
    {
      var part := ToInt(Field(lib, m, "QualifyingPart"));
      if part.Some? && 1 <= part.value <= 3 {
        qualifyingStageNumber := part;
      }
    }

    // ----- Per-driver updates ------------------------------------------------
    //
    // Each `Put...` method stores one value unless it is already there; each
    // `UpdateDriver...` method visits the entries of a message in order and
    // puts what each one yields.

    method PutLocation(k: (int, Axis), v: int)
      modifies this`driverLocations
      ensures driverLocations == Put(old(driverLocations), k, v)
    {
      if Lookup(driverLocations, k) != Some(v) {
        driverLocations := driverLocations[k := v];
      }
    }

    method UpdateDriverLocations(m: Message)
      requires LocationsSafe(lib, m)
      modifies this`driverLocations
      ensures driverLocations == NewDriverLocations(lib, m, old(driverLocations))
    {
      var entries := LocationEntries(lib, m);
      ghost var start := driverLocations;
      var i := 0;
      while i < |entries|
        invariant 0 <= i <= |entries|
        invariant driverLocations == ApplyWrites(start, LocationWrites(entries[..i]))
      {
        ghost var before := LocationWrites(entries[..i]);
        var ws := EntryLocationWrites(entries[i]);
        NoneYet(before, ws);
        var j := 0;
        while j < |ws|
          invariant 0 <= j <= |ws|
          invariant driverLocations == ApplyWrites(start, before + ws[..j])
        {
          PutNext(start, before, ws, j);
          PutLocation(ws[j].0, ws[j].1);
          j := j + 1;
        }
        LocationWritesNext(entries, i);
        i := i + 1;
      }
      assert entries[..|entries|] == entries;
    }

    method PutStint(k: (int, StintField), v: StintValue)
      modifies this`driverStints
      ensures driverStints == Put(old(driverStints), k, v)
    {
      if Lookup(driverStints, k) != Some(v) {
        driverStints := driverStints[k := v];
      }
    }

    method UpdateDriverStints(m: Message)
      requires StintsSafe(lib, m)
      modifies this`driverStints
      ensures driverStints == NewDriverStints(lib, m, old(driverStints))
    {
      var entries := LinesOf(lib, m);
      ghost var start := driverStints;
      var i := 0;
      while i < |entries|
        invariant 0 <= i <= |entries|
        invariant EntriesStintSafe(lib, entries[..i])
        invariant driverStints == ApplyWrites(start, StintWrites(lib, entries[..i]))
      {
        StintWritesNext(lib, entries, i);
        ghost var before := StintWrites(lib, entries[..i]);
        var ws := EntryStintWrites(lib, entries[i]);
        NoneYet(before, ws);
        var j := 0;
        while j < |ws|
          invariant 0 <= j <= |ws|
          invariant driverStints == ApplyWrites(start, before + ws[..j])
        {
          PutNext(start, before, ws, j);
          PutStint(ws[j].0, ws[j].1);
          j := j + 1;
        }
        i := i + 1;
      }
      assert entries[..|entries|] == entries;
    }

    method PutPersonalBestLap(d: int, best: Millis)
      modifies this`driverPersonalBestLaps
      ensures driverPersonalBestLaps == Put(old(driverPersonalBestLaps), d, best)
    {
      if Lookup(driverPersonalBestLaps, d) != Some(best) {
        driverPersonalBestLaps := driverPersonalBestLaps[d := best];
      }
    }

    method UpdateDriverPersonalBestLaps(m: Message)
      modifies this`driverPersonalBestLaps
      ensures driverPersonalBestLaps == NewDriverPersonalBestLaps(lib, m, old(driverPersonalBestLaps))
    {
      var entries := LinesOf(lib, m);
      ghost var start := driverPersonalBestLaps;
      var i := 0;
      while i < |entries|
        invariant 0 <= i <= |entries|
        invariant driverPersonalBestLaps == ApplyWrites(start, PersonalBestWrites(lib, entries[..i]))
      {
        ghost var before := PersonalBestWrites(lib, entries[..i]);
        var ws := EntryPersonalBestWrites(lib, entries[i]);
        PersonalBestWritesNext(lib, entries, i);
        PutOne(start, [], before, ws);
        if ws != [] {
          PutPersonalBestLap(ws[0].0, ws[0].1);
        }
        i := i + 1;
      }
      assert entries[..|entries|] == entries;
    }

    method PutPit(k: (int, PitField), v: int)
      modifies this`driverPits
      ensures driverPits == Put(old(driverPits), k, v)
    {
      if Lookup(driverPits, k) != Some(v) {
        driverPits := driverPits[k := v];
      }
    }

    method UpdateDriverPits(m: Message)
      modifies this`driverPits
      ensures driverPits == NewDriverPits(lib, m, old(driverPits))
    {
      var entries := PitEntries(lib, m);
      ghost var start := driverPits;
      var i := 0;
      while i < |entries|
        invariant 0 <= i <= |entries|
        invariant driverPits == ApplyWrites(start, PitWrites(lib, m.timepoint, entries[..i]))
      {
        ghost var before := PitWrites(lib, m.timepoint, entries[..i]);
        var ws := EntryPitWrites(lib, m.timepoint, entries[i]);
        NoneYet(before, ws);
        var j := 0;
        while j < |ws|
          invariant 0 <= j <= |ws|
          invariant driverPits == ApplyWrites(start, before + ws[..j])
        {
          PutNext(start, before, ws, j);
          PutPit(ws[j].0, ws[j].1);
          j := j + 1;
        }
        PitWritesNext(lib, m.timepoint, entries, i);
        i := i + 1;
      }
      assert entries[..|entries|] == entries;
    }

    /**
     * A dictionary keeps an existing key in its place, so recording the
     * driver in the order changes the order only for a driver new to it.
     */
    method PutPosition(d: int, p: int)
      modifies this`driverPositions, this`positionOrder
      ensures driverPositions == Put(old(driverPositions), d, p)
      ensures positionOrder == PutOrder(old(positionOrder), d)
    {
      if Lookup(driverPositions, d) != Some(p) {
        driverPositions := driverPositions[d := p];
      }
      positionOrder := PutOrder(positionOrder, d);
    }

    method UpdateDriverPositions(m: Message)
      modifies this`driverPositions, this`positionOrder
      ensures driverPositions == NewDriverPositions(lib, m, old(driverPositions))
      ensures positionOrder == NewPositionOrder(lib, m, old(positionOrder))
    {
      var entries := LinesOf(lib, m);
      ghost var start, startOrder := driverPositions, positionOrder;
      var i := 0;
      while i < |entries|
        invariant 0 <= i <= |entries|
        invariant driverPositions == ApplyWrites(start, PositionWrites(entries[..i]))
        invariant positionOrder == InsertOrder(startOrder, PositionWrites(entries[..i]))
      {
        ghost var before := PositionWrites(entries[..i]);
        var ws := EntryPositionWrites(entries[i]);
        PositionWritesNext(entries, i);
        PutOne(start, startOrder, before, ws);
        if ws != [] {
          PutPosition(ws[0].0, ws[0].1);
        }
        i := i + 1;
      }
      assert entries[..|entries|] == entries;
    }

    // The topic-keyed update that opens `process_message`, a group of topics at a time.

    method UpdateSessionFields(m: Message)
      requires m.topic in {LapCount, SessionInfo}
      modifies this
      ensures View() == UpdateState(lib, old(View()), m)
    {
      match m.topic
      case LapCount => UpdateLapNumber(m);
      case SessionInfo => UpdateSessionInfo(m);
    }

    /** Session data marks the stream start and, in qualifying, the stage. */
    method UpdateFromSessionData(m: Message)
      requires m.topic == SessionData
      modifies this
      ensures View() == UpdateState(lib, old(View()), m)
    {
      UpdateSessionStreamStart(m);
      if sessionType == Some("Qualifying") {
        UpdateQualifyingStageNumber(m);
      }
    }

    /** Pit data comes from one of two topics, by session type and start. */
    method UpdatePitFields(m: Message)
      requires m.topic in {PitLaneTimeCollection, PitStopSeries}
      modifies this
      ensures View() == UpdateState(lib, old(View()), m)
    {
      match m.topic
      case PitLaneTimeCollection =>
        if UseLegacyPitTopic(View()) {
          UpdateDriverPits(m);
        }
      case PitStopSeries =>
        if UseNewPitTopic(View()) {
          UpdateDriverPits(m);
        }
    }

    method UpdateFromPositionZ(m: Message)
      requires m.topic == PositionZ && UpdateSafe(lib, m)
      modifies this
      ensures View() == UpdateState(lib, old(View()), m)
    {
      UpdateDriverLocations(m);
    }

    method UpdateFromTimingAppData(m: Message)
      requires m.topic == TimingAppData && UpdateSafe(lib, m)
      modifies this
      ensures View() == UpdateState(lib, old(View()), m)
    {
      UpdateDriverStints(m);
    }

    method UpdateFromTimingData(m: Message)
      requires m.topic == TimingData
      modifies this
      ensures View() == UpdateState(lib, old(View()), m)
    {
      UpdateDriverPersonalBestLaps(m);
      UpdateDriverPositions(m);
    }

    method Update(m: Message)
      requires UpdateSafe(lib, m)
      modifies this
      ensures View() == UpdateState(lib, old(View()), m)
    {
      match m.topic
      case LapCount | SessionInfo => UpdateSessionFields(m);
      case SessionData => UpdateFromSessionData(m);
      case PitLaneTimeCollection | PitStopSeries => UpdatePitFields(m);
      case PositionZ => UpdateFromPositionZ(m);
      case TimingAppData => UpdateFromTimingAppData(m);
      case TimingData => UpdateFromTimingData(m);
      case DriverRaceInfo | RaceControlMessages | OtherTopic =>
    }

    // ----- Processors that walk the entries of a message -----------------------

    method ProcessOuts(m: Message) returns (events: seq<Event>)
      ensures events == OutEvents(Environment(), View(), m)
    {
      var f := OutStep(Environment(), View(), m.timepoint);
      events := [];
      var i := 0;
      while i < |m.content|
        invariant 0 <= i <= |m.content|
        invariant events == Gather(m.content[..i], f)
      {
        GatherStep(m.content, f, i);
        events := events + OutEntryEvents(Environment(), View(), m.timepoint, m.content[i]);
        i := i + 1;
      }
      GatherWhole(m.content, f);
    }

    method ProcessOvertakes(m: Message) returns (events: seq<Event>)
      ensures events == OvertakeEvents(Environment(), View(), m)
    {
      events := [];
      var overtaker := Overtaker(m.content);
      if overtaker.None? {
        return;
      }
      var overtaken := OvertakenList(m.content);
      var f := OvertakeStep(Environment(), View(), m.timepoint, overtaker.value);
      var i := 0;
      while i < |overtaken|
        invariant 0 <= i <= |overtaken|
        invariant events == Gather(overtaken[..i], f)
      {
        GatherStep(overtaken, f, i);
        events := events + [OvertakeEvent(Environment(), View(), m.timepoint, overtaker.value, overtaken[i])];
        i := i + 1;
      }
      GatherWhole(overtaken, f);
    }

    method ProcessPersonalBestLaps(m: Message) returns (events: seq<Event>)
      ensures events == PersonalBestEvents(Environment(), View(), m)
    {
      var entries := LinesOf(lib, m);
      var f := PersonalBestStep(Environment(), View(), m.timepoint);
      events := [];
      var i := 0;
      while i < |entries|
        invariant 0 <= i <= |entries|
        invariant events == Gather(entries[..i], f)
      {
        GatherStep(entries, f, i);
        events := events + f(entries[i]);
        i := i + 1;
      }
      GatherWhole(entries, f);
    }

    method ProcessPits(m: Message) returns (events: seq<Event>)
      requires StintsSafe(lib, m)
      ensures events == PitEvents(Environment(), View(), m)
    {
      var entries := LinesOf(lib, m);
      var f := PitStep(Environment(), View(), m.timepoint);
      events := [];
      var i := 0;
      while i < |entries|
        invariant 0 <= i <= |entries|
        invariant events == Gather(entries[..i], f)
      {
        GatherStep(entries, f, i);
        events := events + PitEntryEvents(Environment(), View(), m.timepoint, entries[i]);
        i := i + 1;
      }
      GatherWhole(entries, f);
    }

    /** The classification events alone; `ProcessProvisionalClassification` records the status after them. */
    method ClassifyProvisionally(m: Message) returns (events: seq<Event>)
      requires OrderedPositions(View())
      ensures events == ProvisionalEvents(Environment(), View(), m)
    {
      var f := ClassificationStep(Environment(), View(), m.timepoint);
      events := [];
      var i := 0;
      while i < |positionOrder|
        invariant 0 <= i <= |positionOrder|
        invariant events == Gather(positionOrder[..i], f)
      {
        GatherStep(positionOrder, f, i);
        events := events + [ClassificationEvent(Environment(), View(), m.timepoint, positionOrder[i])];
        i := i + 1;
      }
      GatherWhole(positionOrder, f);
    }

    method ProcessProvisionalClassification(m: Message) returns (events: seq<Event>)
      requires OrderedPositions(View())
      modifies this`sessionStatus
      ensures events == ProvisionalEvents(Environment(), old(View()), m)
      ensures sessionStatus == NewSessionStatus(lib, m, old(sessionStatus))
    {
      events := ClassifyProvisionally(m);
      UpdateSessionStatus(m);
    }

    /** The classifications out of the stage before `stage`, one per driver entry, in entry order. */
    method ClassifyStage(m: Message, stage: int) returns (events: seq<Event>)
      requires forall i :: 0 <= i < |LinesOf(lib, m)| ==> StageEntryRanked(View(), LinesOf(lib, m)[i])
      ensures events == Gather(LinesOf(lib, m), StageStep(Environment(), View(), m.timepoint, stage))
    {
      var entries := LinesOf(lib, m);
      var f := StageStep(Environment(), View(), m.timepoint, stage);
      events := [];
      var i := 0;
      while i < |entries|
        invariant 0 <= i <= |entries|
        invariant events == Gather(entries[..i], f)
      {
        GatherStep(entries, f, i);
        events := events + StageEntryEvents(Environment(), View(), m.timepoint, stage, entries[i]);
        i := i + 1;
      }
      GatherWhole(entries, f);
    }

    method ProcessQualifyingStageClassifications(m: Message) returns (events: seq<Event>)
      requires StageClassificationSafe(lib, View(), m)
      ensures events == StageClassificationEvents(Environment(), View(), m)
    {
      var part := StagePart(lib, m);
      if part == Some(2) || part == Some(3) {
        events := ClassifyStage(m, part.value);
      } else {
        events := [];
      }
    }

    method ProcessSessionNotification(m: Message, cause: Cause) returns (events: seq<Event>)
      modifies this`sessionStatus
      ensures events == SessionNotificationEvents(Environment(), old(View()), m, cause)
      ensures sessionStatus == NewSessionStatus(lib, m, old(sessionStatus))
    {
      events := SessionNotificationEvents(Environment(), View(), m, cause);
      UpdateSessionStatus(m);
    }

    // ----- process_message -----------------------------------------------------

    /** The cause of the first rule of `rules` that holds over the current fields, evaluated in table order. */
    method FirstCause(rules: seq<Rule>, m: Message) returns (c: Option<Cause>)
      ensures c == Select(lib, m, View(), rules)
    {
      var i := 0;
      while i < |rules|
        invariant 0 <= i <= |rules|
        invariant forall j :: 0 <= j < i ==> !rules[j].holds(lib, m, View())
      {
        if rules[i].holds(lib, m, View()) {
          return Some(rules[i].cause);
        }
        i := i + 1;
      }
      return None;
    }

    // The processing map, one group of causes at a time. The processors of
    // single race-control messages (incidents, verdicts, flags, track limits)
    // compute at most one event without a loop and are the `Processors`
    // functions themselves.

    /** The processors that walk the entries of a message. */
    method RunEntryProcessor(m: Message, c: Cause) returns (events: seq<Event>)
      requires c in {Out, Overtake, PersonalBestLap, Pit}
      requires ProcessorSafe(lib, View(), m, c)
      ensures events == Emit(Environment(), View(), m, c)
    {
      match c
      case Out => events := ProcessOuts(m);
      case Overtake => events := ProcessOvertakes(m);
      case PersonalBestLap => events := ProcessPersonalBestLaps(m);
      case Pit => events := ProcessPits(m);
    }

    /** The processors of messages about one incident or one driver. */
    method RunDriverMessage(m: Message, c: Cause) returns (events: seq<Event>)
      requires c in {Incident, TrackLimits, IncidentVerdict, BlackFlag, BlackAndOrangeFlag, BlackAndWhiteFlag, BlueFlag}
      requires ProcessorSafe(lib, View(), m, c)
      ensures events == Emit(Environment(), View(), m, c)
    {
      match c
      case Incident => events := IncidentEvents(Environment(), View(), m);
      case TrackLimits => events := TrackLimitsEvents(Environment(), View(), m);
      case IncidentVerdict => events := VerdictEvents(Environment(), View(), m);
      case BlackFlag => events := DriverFlagEvents(Environment(), View(), m, BlackFlag);
      case BlackAndOrangeFlag => events := DriverFlagEvents(Environment(), View(), m, BlackAndOrangeFlag);
      case BlackAndWhiteFlag => events := DriverFlagEvents(Environment(), View(), m, BlackAndWhiteFlag);
      case BlueFlag => events := DriverFlagEvents(Environment(), View(), m, BlueFlag);
    }

    /** The processors of flags that may name a sector; a green flag without the "Sector" scope clears the track. */
    method RunSectorFlag(m: Message, c: Cause) returns (events: seq<Event>)
      requires c in {GreenFlag, YellowFlag, DoubleYellowFlag}
      requires ProcessorSafe(lib, View(), m, c)
      ensures events == Emit(Environment(), View(), m, c)
    {
      match c
      case GreenFlag =>
        if SectorScoped(lib, m) {
          events := SectorFlagEvents(Environment(), View(), m, GreenFlag);
        } else {
          events := MessageEvents(Environment(), View(), m, TrackNotification, GreenFlag);
        }
      case YellowFlag => events := SectorFlagEvents(Environment(), View(), m, YellowFlag);
      case DoubleYellowFlag => events := SectorFlagEvents(Environment(), View(), m, DoubleYellowFlag);
    }

    /** The processors of track flags and safety-car messages. */
    method RunTrackMessage(m: Message, c: Cause) returns (events: seq<Event>)
      requires c in {ChequeredFlag, RedFlag, SafetyCarDeployed, VirtualSafetyCarDeployed, SafetyCarEnding,
                     VirtualSafetyCarEnding}
      requires ProcessorSafe(lib, View(), m, c)
      ensures events == Emit(Environment(), View(), m, c)
    {
      TrackMessagesAreMessages(Environment(), View(), m, c);
      events := MessageEvents(Environment(), View(), m, TrackNotification, c);
    }

    /** The processors that leave the session status alone. */
    method RunStatelessProcessor(m: Message, c: Cause) returns (events: seq<Event>)
      requires !RecordsStatus(c)
      requires ProcessorSafe(lib, View(), m, c)
      ensures events == Emit(Environment(), View(), m, c)
    {
      match c
      case Out | Overtake | PersonalBestLap | Pit => events := RunEntryProcessor(m, c);
      case QualifyingStageClassification => events := ProcessQualifyingStageClassifications(m);
      case Incident | TrackLimits | IncidentVerdict | BlackFlag | BlackAndOrangeFlag | BlackAndWhiteFlag | BlueFlag =>
        events := RunDriverMessage(m, c);
      case GreenFlag | YellowFlag | DoubleYellowFlag => events := RunSectorFlag(m, c);
      case ChequeredFlag | RedFlag | SafetyCarDeployed | VirtualSafetyCarDeployed | SafetyCarEnding
        | VirtualSafetyCarEnding => events := RunTrackMessage(m, c);
      case RaceControlMessage => events := MessageEvents(Environment(), View(), m, Other, RaceControlMessage);
    }

    /** The processors that record the message's session status once their events are out. */
    method RunStatusProcessor(m: Message, c: Cause) returns (events: seq<Event>)
      requires RecordsStatus(c)
      requires ProcessorSafe(lib, View(), m, c)
      modifies this`sessionStatus
      ensures events == Emit(Environment(), old(View()), m, c)
      ensures sessionStatus == NewSessionStatus(lib, m, old(sessionStatus))
    {
      if c == ProvisionalClassification {
        events := ProcessProvisionalClassification(m);
      } else {
        events := ProcessSessionNotification(m, c);
      }
    }

    /** The processor the processing map assigns to `c`. */
    method RunProcessor(m: Message, c: Cause) returns (events: seq<Event>)
      requires ProcessorSafe(lib, View(), m, c)
      modifies this`sessionStatus
      ensures events == Emit(Environment(), old(View()), m, c)
      ensures sessionStatus == if RecordsStatus(c) then NewSessionStatus(lib, m, old(sessionStatus)) else old(sessionStatus)
    {
      if RecordsStatus(c) {
        events := RunStatusProcessor(m, c);
      } else {
        events := RunStatelessProcessor(m, c);
      }
    }

    /** Runs the processor of the first rule that holds over the current, already updated, state. */
    method Respond(m: Message) returns (events: seq<Event>)
      requires RespondSafe(lib, View(), m)
      modifies this`sessionStatus
      ensures (View(), events) == Dispatch.Respond(Environment(), old(View()), m)
    {
      var c := FirstCause(RuleTable(), m);
      if c.None? {
        events := [];
      } else {
        events := RunProcessor(m, c.value);
      }
    }

    /** Folds one message into the collection and yields its events. */
    method ProcessMessage(m: Message) returns (events: seq<Event>)
      requires StepSafe(lib, View(), m)
      modifies this
      ensures (View(), events) == Step(Environment(), old(View()), m)
      ensures old(Valid(View())) ==> Valid(View())
    {
      ghost var before := View();
      Update(m);
      events := Respond(m);
      if Valid(before) {
        StepPreservesValid(Environment(), before, m);
      }
    }
  }
}

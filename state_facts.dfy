/**
 * What the topic-keyed update promises: the pit-topic cutover picks at most
 * one topic, every update is idempotent, the per-driver updates touch only
 * the drivers a message names, the session status is never touched by the
 * update phase, and the invariant `Valid` is kept.
 */
module StateFacts {
  import opened Wrappers
  import opened JsonValues
  import opened Writes
  import opened EventModel
  import opened SessionState

  /**
   * The two pit topics are never both in use; a session that is not a race
   * always uses the older one; a race with a known start uses exactly one,
   * the newer from the cutoff date on; a race with no known start uses neither.
   */
  lemma PitTopicCutover(s: State)
    ensures !(UseLegacyPitTopic(s) && UseNewPitTopic(s))
    ensures s.sessionType != Some("Race") ==> UseLegacyPitTopic(s)
    ensures s.sessionType == Some("Race") && s.sessionStart.Some? ==>
      (UseLegacyPitTopic(s) || UseNewPitTopic(s))
      && (UseNewPitTopic(s) <==> s.sessionStart.value >= NEW_RACE_PIT_TOPIC_CUTOFF_DATE)
    ensures s.sessionType == Some("Race") && s.sessionStart.None? ==>
      !UseLegacyPitTopic(s) && !UseNewPitTopic(s)
  {
  }

  /** A pit message changes only the pit records, and those only when its topic is the one in use. */
  lemma PitTopicUpdate(lib: Externals, s: State, m: Message)
    requires m.topic == PitLaneTimeCollection || m.topic == PitStopSeries
    ensures UpdateState(lib, s, m) == s.(driverPits := UpdateState(lib, s, m).driverPits)
    ensures m.topic == PitLaneTimeCollection && !UseLegacyPitTopic(s) ==> UpdateState(lib, s, m) == s
    ensures m.topic == PitStopSeries && !UseNewPitTopic(s) ==> UpdateState(lib, s, m) == s
  {
  }

  /** A per-driver record is idempotent under the same message. */
  lemma DriverRecordsIdempotent(lib: Externals, m: Message, s: State)
    ensures NewDriverPits(lib, m, NewDriverPits(lib, m, s.driverPits)) == NewDriverPits(lib, m, s.driverPits)
    ensures NewDriverPersonalBestLaps(lib, m, NewDriverPersonalBestLaps(lib, m, s.driverPersonalBestLaps))
      == NewDriverPersonalBestLaps(lib, m, s.driverPersonalBestLaps)
    ensures NewDriverPositions(lib, m, NewDriverPositions(lib, m, s.driverPositions))
      == NewDriverPositions(lib, m, s.driverPositions)
    ensures NewPositionOrder(lib, m, NewPositionOrder(lib, m, s.positionOrder)) == NewPositionOrder(lib, m, s.positionOrder)
    ensures LocationsSafe(lib, m) ==>
      NewDriverLocations(lib, m, NewDriverLocations(lib, m, s.driverLocations)) == NewDriverLocations(lib, m, s.driverLocations)
    ensures StintsSafe(lib, m) ==>
      NewDriverStints(lib, m, NewDriverStints(lib, m, s.driverStints)) == NewDriverStints(lib, m, s.driverStints)
  {
    ApplyWritesIdempotent(s.driverPits, PitWrites(lib, m.timepoint, PitEntries(lib, m)));
    ApplyWritesIdempotent(s.driverPersonalBestLaps, PersonalBestWrites(lib, LinesOf(lib, m)));
    ApplyWritesIdempotent(s.driverPositions, PositionWrites(LinesOf(lib, m)));
    InsertOrderIdempotent(s.positionOrder, PositionWrites(LinesOf(lib, m)));
    if LocationsSafe(lib, m) {
      ApplyWritesIdempotent(s.driverLocations, LocationWrites(LocationEntries(lib, m)));
    }
    if StintsSafe(lib, m) {
      ApplyWritesIdempotent(s.driverStints, StintWrites(lib, LinesOf(lib, m)));
    }
  }

  /** Folding the same message into the state twice is the same as folding it in once. */
  lemma UpdateStateIdempotent(lib: Externals, s: State, m: Message)
    requires UpdateSafe(lib, m)
    ensures UpdateState(lib, UpdateState(lib, s, m), m) == UpdateState(lib, s, m)
  {
    DriverRecordsIdempotent(lib, m, s);
  }

  // ----- Locality -------------------------------------------------------------

  /** Some entry of `entries` is keyed by driver number `d`. */
  predicate NamesDriver(entries: JsonObject, d: int) {
    exists j :: 0 <= j < |entries| && ParseInt(entries[j].0) == Some(d)
  }

  lemma NamesDriverPrefix(entries: JsonObject, d: int)
    requires entries != [] && NamesDriver(entries[..|entries| - 1], d)
    ensures NamesDriver(entries, d)
  {
    var j :| 0 <= j < |entries| - 1 && ParseInt(entries[..|entries| - 1][j].0) == Some(d);
    assert entries[j] == entries[..|entries| - 1][j];
  }

  lemma NamesDriverLast(entries: JsonObject, d: int)
    requires entries != [] && ParseInt(entries[|entries| - 1].0) == Some(d)
    ensures NamesDriver(entries, d)
  {
  }

  /** A batch whose every write is about some named driver leaves every other driver's keys as they were. */
  lemma BatchIsLocal<K(!new), V>(m: map<K, V>, ws: seq<(K, V)>, driverOf: K -> int, entries: JsonObject, k: K)
    requires forall i :: 0 <= i < |ws| ==> NamesDriver(entries, driverOf(ws[i].0))
    requires !NamesDriver(entries, driverOf(k))
    ensures Lookup(ApplyWrites(m, ws), k) == Lookup(m, k)
  {
    ApplyWritesUntouched(m, ws, k);
  }

  lemma {:induction false} LocationWritesNamed(entries: JsonObject)
    ensures forall i :: 0 <= i < |LocationWrites(entries)| ==> NamesDriver(entries, LocationWrites(entries)[i].0.0)
    decreases |entries|
  {
    if entries != [] {
      var init := entries[..|entries| - 1];
      LocationWritesNamed(init);
      var ws := LocationWrites(entries);
      forall i | 0 <= i < |ws| ensures NamesDriver(entries, ws[i].0.0) {
        if i < |LocationWrites(init)| {
          NamesDriverPrefix(entries, ws[i].0.0);
        } else {
          NamesDriverLast(entries, ws[i].0.0);
        }
      }
    }
  }

  lemma {:induction false} StintWritesFacts(lib: Externals, entries: JsonObject)
    requires EntriesStintSafe(lib, entries)
    ensures forall i :: 0 <= i < |StintWrites(lib, entries)| ==>
      NamesDriver(entries, StintWrites(lib, entries)[i].0.0)
      && (StintWrites(lib, entries)[i].1.CompoundValue? <==> StintWrites(lib, entries)[i].0.1 == CompoundField)
    decreases |entries|
  {
    if entries != [] {
      var init := entries[..|entries| - 1];
      assert EntriesStintSafe(lib, init);
      StintWritesFacts(lib, init);
      var ws := StintWrites(lib, entries);
      forall i | 0 <= i < |ws|
        ensures NamesDriver(entries, ws[i].0.0) && (ws[i].1.CompoundValue? <==> ws[i].0.1 == CompoundField)
      {
        if i < |StintWrites(lib, init)| {
          NamesDriverPrefix(entries, ws[i].0.0);
        } else {
          NamesDriverLast(entries, ws[i].0.0);
        }
      }
    }
  }

  lemma {:induction false} PersonalBestWritesNamed(lib: Externals, entries: JsonObject)
    ensures forall i :: 0 <= i < |PersonalBestWrites(lib, entries)| ==>
      NamesDriver(entries, PersonalBestWrites(lib, entries)[i].0)
    decreases |entries|
  {
    if entries != [] {
      var init := entries[..|entries| - 1];
      PersonalBestWritesNamed(lib, init);
      var ws := PersonalBestWrites(lib, entries);
      forall i | 0 <= i < |ws| ensures NamesDriver(entries, ws[i].0) {
        if i < |PersonalBestWrites(lib, init)| {
          NamesDriverPrefix(entries, ws[i].0);
        } else {
          NamesDriverLast(entries, ws[i].0);
        }
      }
    }
  }

  lemma {:induction false} PitWritesNamed(lib: Externals, t: Instant, entries: JsonObject)
    ensures forall i :: 0 <= i < |PitWrites(lib, t, entries)| ==>
      NamesDriver(entries, PitWrites(lib, t, entries)[i].0.0)
    decreases |entries|
  {
    if entries != [] {
      var init := entries[..|entries| - 1];
      PitWritesNamed(lib, t, init);
      var ws := PitWrites(lib, t, entries);
      forall i | 0 <= i < |ws| ensures NamesDriver(entries, ws[i].0.0) {
        if i < |PitWrites(lib, t, init)| {
          NamesDriverPrefix(entries, ws[i].0.0);
        } else {
          NamesDriverLast(entries, ws[i].0.0);
        }
      }
    }
  }

  lemma {:induction false} PositionWritesNamed(entries: JsonObject)
    ensures forall i :: 0 <= i < |PositionWrites(entries)| ==> NamesDriver(entries, PositionWrites(entries)[i].0)
    decreases |entries|
  {
    if entries != [] {
      var init := entries[..|entries| - 1];
      PositionWritesNamed(init);
      var ws := PositionWrites(entries);
      forall i | 0 <= i < |ws| ensures NamesDriver(entries, ws[i].0) {
        if i < |PositionWrites(init)| {
          NamesDriverPrefix(entries, ws[i].0);
        } else {
          NamesDriverLast(entries, ws[i].0);
        }
      }
    }
  }

  /** The driver entries a message's update reads, by topic. */
  function TopicEntries(lib: Externals, m: Message): JsonObject
    requires UpdateSafe(lib, m)
  {
    match m.topic
    case PitLaneTimeCollection => PitEntries(lib, m)
    case PitStopSeries => PitEntries(lib, m)
    case PositionZ => LocationEntries(lib, m)
    case TimingAppData => LinesOf(lib, m)
    case TimingData => LinesOf(lib, m)
    case _ => []
  }

  /** A driver the message does not name keeps every per-driver record, its position and its place in the order. */
  lemma UpdateStateIsLocal(lib: Externals, s: State, m: Message, d: int)
    requires UpdateSafe(lib, m)
    requires !NamesDriver(TopicEntries(lib, m), d)
    ensures forall a :: Lookup(UpdateState(lib, s, m).driverLocations, (d, a)) == Lookup(s.driverLocations, (d, a))
    ensures forall f :: Lookup(UpdateState(lib, s, m).driverStints, (d, f)) == Lookup(s.driverStints, (d, f))
    ensures forall f :: Lookup(UpdateState(lib, s, m).driverPits, (d, f)) == Lookup(s.driverPits, (d, f))
    ensures Lookup(UpdateState(lib, s, m).driverPersonalBestLaps, d) == Lookup(s.driverPersonalBestLaps, d)
    ensures Lookup(UpdateState(lib, s, m).driverPositions, d) == Lookup(s.driverPositions, d)
    ensures d in UpdateState(lib, s, m).positionOrder <==> d in s.positionOrder
  {
    var r := UpdateState(lib, s, m);
    var entries := TopicEntries(lib, m);
    match m.topic
    case PitLaneTimeCollection =>
      PitWritesNamed(lib, m.timepoint, entries);
      forall f ensures Lookup(r.driverPits, (d, f)) == Lookup(s.driverPits, (d, f)) {
        BatchIsLocal(s.driverPits, PitWrites(lib, m.timepoint, entries), (k: (int, PitField)) => k.0, entries, (d, f));
      }
    case PitStopSeries =>
      PitWritesNamed(lib, m.timepoint, entries);
      forall f ensures Lookup(r.driverPits, (d, f)) == Lookup(s.driverPits, (d, f)) {
        BatchIsLocal(s.driverPits, PitWrites(lib, m.timepoint, entries), (k: (int, PitField)) => k.0, entries, (d, f));
      }
    case PositionZ =>
      LocationWritesNamed(entries);
      forall a ensures Lookup(r.driverLocations, (d, a)) == Lookup(s.driverLocations, (d, a)) {
        BatchIsLocal(s.driverLocations, LocationWrites(entries), (k: (int, Axis)) => k.0, entries, (d, a));
      }
    case TimingAppData =>
      StintWritesFacts(lib, entries);
      forall f ensures Lookup(r.driverStints, (d, f)) == Lookup(s.driverStints, (d, f)) {
        BatchIsLocal(s.driverStints, StintWrites(lib, entries), (k: (int, StintField)) => k.0, entries, (d, f));
      }
    case TimingData =>
      var bests := PersonalBestWrites(lib, entries);
      var positions := PositionWrites(entries);
      PersonalBestWritesNamed(lib, entries);
      PositionWritesNamed(entries);
      BatchIsLocal(s.driverPersonalBestLaps, bests, (k: int) => k, entries, d);
      BatchIsLocal(s.driverPositions, positions, (k: int) => k, entries, d);
      InsertOrderStays(s.positionOrder, positions, d);
    case _ =>
  }

  /** Recording positions of other drivers neither adds `d` to the order nor removes it. */
  lemma {:induction false} InsertOrderStays(order: seq<int>, ws: seq<(int, int)>, d: int)
    requires forall i :: 0 <= i < |ws| ==> ws[i].0 != d
    ensures d in InsertOrder(order, ws) <==> d in order
    decreases |ws|
  {
    if ws != [] {
      InsertOrderStays(order, ws[..|ws| - 1], d);
    }
  }

  /** The update phase keeps the collection's invariant. */
  lemma UpdateStatePreservesValid(lib: Externals, s: State, m: Message)
    requires UpdateSafe(lib, m) && Valid(s)
    ensures Valid(UpdateState(lib, s, m))
  {
    match m.topic
    case TimingAppData =>
      var ws := StintWrites(lib, LinesOf(lib, m));
      StintWritesFacts(lib, LinesOf(lib, m));
      ApplyWritesPreserves(s.driverStints, ws,
        (k: (int, StintField), v: StintValue) => v.CompoundValue? <==> k.1 == CompoundField);
    case TimingData =>
      InsertOrderIsOrder(s.positionOrder, s.driverPositions, PositionWrites(LinesOf(lib, m)));
    case _ =>
  }
}

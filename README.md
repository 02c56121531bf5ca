# OpenF1 events collection, modelled in Dafny

This project models `EventsCollection`, the part of the OpenF1 live-timing
ingestor that turns an ordered stream of feed messages into motorsport
events. Examples of such events are incidents, outs, overtakes, personal-best
laps, pit stops, track-limit warnings, steward verdicts, classifications,
flags, safety cars and session notifications.

Each message goes through the collection as follows:

1. It is folded into the collection's per-session fields and per-driver
   records. Each topic updates its own part.
2. The ordered rule table is searched for the first rule whose predicate holds.
3. That rule's processor turns the message, together with the tracked state,
   into events.

A session-notification or provisional-classification processor records the
message's session status only after its events are out.

The project has these modules, one per file:

- `JsonValues` (`json.dfy`). Message content as a JSON-like datatype. It also
  gives Python's `int()`, `str()`, truthiness and `==` on those values.
- `EventModel` (`model.dfy`). Causes, categories, the details payload,
  events, the elapsed-time computation and topics. It also holds
  `Externals`, the collaborators whose internals are not modelled.
- `Writes` (`writes.dfy`). A change-gated dictionary write, a batch of
  writes, and the insertion order of a dictionary.
- `SessionState` (`state.dfy`). The tracked state as a value, and the
  topic-keyed update as a function of it.
- `StateFacts` (`state_facts.dfy`). What the update promises:
  - the pit-topic cutover;
  - idempotence;
  - locality per driver;
  - the state invariant.
- `Folds` (`folds.dfy`). A loop that visits a sequence in order and appends
  what each element yields.
- `Rules` (`rules.dfy`). The 37 rule predicates, the ordered table, first
  match wins, and which rules can ever be selected.
- `Processors` (`processors.dfy`). What each processor yields, as a function
  of a message and the state.
- `ProcessorFacts` (`processor_facts.dfy`). Overtake fan-out and date order,
  and classification of each driver exactly once.
- `Dispatch` (`dispatch.dfy`). The processing map, and `process_message` as
  the function `Step` over states.
- `Collection` (`collection.dfy`). The class `EventsCollection`:
  - its fields mirror the collection's attributes;
  - every update and every looping processor is a method, proved equal to
    the matching function;
  - `ProcessMessage` moves the object exactly as `Dispatch.Step` moves its
    state, and keeps `SessionState.Valid`.

Modelling choices:

- **Time.** Timestamps are integer microseconds since the epoch (UTC).
  `NEW_RACE_PIT_TOPIC_CUTOFF_DATE` is 2024-10-18 12:30 at GMT-05:00, which is
  1729272600000000.
- **Per-driver records.** A nested dictionary `driver_x[d][f]` is a map keyed
  by `(d, f)`.
- **Insertion order.** The insertion order of `driver_positions`, which the
  provisional classification iterates, is a sequence `positionOrder`.
- **Collaborators as parameters.** Nested lookup, date parsing, lap-time
  parsing, float conversion, `math.isclose`, local-time conversion, the
  regular-expression extractors and the details hash are fields of the
  `Externals` value the collection is built with. Each of them returns
  `None` where the original raises or finds nothing.

## Model

The source file of every row is
`src/openf1/services/ingestor_livetiming/core/processing/collections/events.py`.

| member | source | states |
|---|---|---|
| JsonValues.KeyIndex | src/openf1/services/ingestor_livetiming/core/processing/collections/events.py:269-288 | a lookup `data.get(key)` finds the first field named `key`; `None` exactly when no field has that name |
| JsonValues.ParseNatToString | src/openf1/services/ingestor_livetiming/core/processing/collections/events.py:346 | `int()` of the decimal text of a natural number gives that number back |
| JsonValues.ParseIntToString | src/openf1/services/ingestor_livetiming/core/processing/collections/events.py:740-743 | `int(str(d)) == d`: a driver number written as a role key (`f"{driver_number}"`) and parsed back is the same number, so roles can be keyed by the number |
| JsonValues.IntegralPartIsFloor | src/openf1/services/ingestor_livetiming/core/processing/collections/events.py:1117 | `int()` of a non-negative float `SessionPart` truncates it to its floor |
| JsonValues.ContainsPrefix | src/openf1/services/ingestor_livetiming/core/processing/collections/events.py:1375-1390 | a text containing a phrase contains every prefix of that phrase, for example "BLACK AND WHITE" contains "BLACK" |
| EventModel.ElapsedTime | src/openf1/services/ingestor_livetiming/core/processing/collections/events.py:28-43 | absent exactly when either end is missing; marked negative exactly when the end precedes the start; the signed value is end minus start |
| Writes.Put | src/openf1/services/ingestor_livetiming/core/processing/collections/events.py:316-324 | after a change-gated write the key holds the value; every other key is unchanged; writing a value already held leaves the dictionary as it was |
| Writes.ApplyWritesAt | src/openf1/services/ingestor_livetiming/core/processing/collections/events.py:327-374 | after a batch of writes a key holds its last written value, or its old value when the batch never wrote it |
| Writes.LastWriteIsAWrite | src/openf1/services/ingestor_livetiming/core/processing/collections/events.py:316-324 | a batch has a last write for a key exactly when some write names that key, and that write is in the batch |
| Writes.ApplyWritesIdempotent | src/openf1/services/ingestor_livetiming/core/processing/collections/events.py:316-324 | applying the same batch of change-gated writes twice changes nothing the second time |
| Writes.ApplyWritesAppend | src/openf1/services/ingestor_livetiming/core/processing/collections/events.py:327-374 | applying two batches in a row is applying their concatenation |
| Writes.ApplyWritesUntouched | src/openf1/services/ingestor_livetiming/core/processing/collections/events.py:316-324 | a key no write in the batch names keeps its value |
| Writes.ApplyWritesPreserves | src/openf1/services/ingestor_livetiming/core/processing/collections/events.py:377-386 | a property of every old entry and of every write holds of every entry after the batch |
| Writes.InsertOrderIsOrder | src/openf1/services/ingestor_livetiming/core/processing/collections/events.py:547-554 | the recorded iteration order stays a duplicate-free listing of exactly the dictionary's keys; old keys keep their place and new keys go at the end |
| Writes.InsertOrderKnownKeys | src/openf1/services/ingestor_livetiming/core/processing/collections/events.py:547-554 | writes to keys already present leave the iteration order unchanged |
| Writes.InsertOrderContains | src/openf1/services/ingestor_livetiming/core/processing/collections/events.py:547-554 | after a batch, the order lists every old key and every written key |
| Writes.InsertOrderIdempotent | src/openf1/services/ingestor_livetiming/core/processing/collections/events.py:547-554 | recording the same batch twice leaves the order as it was after the first time |
| SessionState.InitialValid | src/openf1/services/ingestor_livetiming/core/processing/collections/events.py:226-249 | the freshly constructed state (all fields `None`, all records empty) satisfies the invariant |
| SessionState.EntryLocationWrites | src/openf1/services/ingestor_livetiming/core/processing/collections/events.py:327-374 | every location write of an entry is about the driver its key parses to |
| SessionState.LatestStintIndex | src/openf1/services/ingestor_livetiming/core/processing/collections/events.py:410 | `max(stints, key=int)` picks a stint with the largest number, the first such one when numbers repeat |
| SessionState.EntryStintWrites | src/openf1/services/ingestor_livetiming/core/processing/collections/events.py:389-433 | every stint write of an entry is about its own driver, and it stores a compound exactly under "compound" |
| SessionState.PersonalBestOf | src/openf1/services/ingestor_livetiming/core/processing/collections/events.py:446-474 | a personal best exists exactly when both lap times parse and the best is close to the last; it is the best lap time |
| SessionState.EntryPersonalBestWrites | src/openf1/services/ingestor_livetiming/core/processing/collections/events.py:446-474 | every personal-best write of an entry is about its own driver |
| SessionState.EntryPitWrites | src/openf1/services/ingestor_livetiming/core/processing/collections/events.py:489-544 | every pit write of an entry is about its own driver |
| SessionState.EntryPositionWrites | src/openf1/services/ingestor_livetiming/core/processing/collections/events.py:557-578 | every position write of an entry is about its own driver |
| StateFacts.PitTopicCutover | src/openf1/services/ingestor_livetiming/core/processing/collections/events.py:1621-1628 | the two pit topics are never both in use; a non-race always uses the legacy topic; a race with a known start uses exactly one, the newer from the cutoff on; a race with no known start uses neither |
| StateFacts.PitTopicUpdate | src/openf1/services/ingestor_livetiming/core/processing/collections/events.py:1621-1628 | a pit message changes only the pit records, and a message on the topic not in use changes nothing |
| StateFacts.DriverRecordsIdempotent | src/openf1/services/ingestor_livetiming/core/processing/collections/events.py:327-578 | each per-driver record, and the position order, is idempotent under the same message |
| StateFacts.UpdateStateIdempotent | src/openf1/services/ingestor_livetiming/core/processing/collections/events.py:1618-1643 | folding the same message into the state twice gives the state that folding it in once gives |
| StateFacts.BatchIsLocal | src/openf1/services/ingestor_livetiming/core/processing/collections/events.py:316-324 | a batch whose writes are all about named drivers leaves every key of another driver as it was |
| StateFacts.LocationWritesNamed | src/openf1/services/ingestor_livetiming/core/processing/collections/events.py:327-374 | every location write of a message is about a driver the message names |
| StateFacts.StintWritesFacts | src/openf1/services/ingestor_livetiming/core/processing/collections/events.py:389-433 | every stint write of a message is about a named driver, and it stores a compound exactly under "compound" |
| StateFacts.PersonalBestWritesNamed | src/openf1/services/ingestor_livetiming/core/processing/collections/events.py:446-474 | every personal-best write of a message is about a driver the message names |
| StateFacts.PitWritesNamed | src/openf1/services/ingestor_livetiming/core/processing/collections/events.py:489-544 | every pit write of a message is about a driver the message names |
| StateFacts.PositionWritesNamed | src/openf1/services/ingestor_livetiming/core/processing/collections/events.py:557-578 | every position write of a message is about a driver the message names |
| StateFacts.UpdateStateIsLocal | src/openf1/services/ingestor_livetiming/core/processing/collections/events.py:1618-1643 | a driver the message does not name keeps its location, stint, pit, personal-best and position records, and its presence in the order |
| StateFacts.InsertOrderStays | src/openf1/services/ingestor_livetiming/core/processing/collections/events.py:547-554 | recording positions of other drivers neither adds a driver to the order nor removes it |
| StateFacts.UpdateStatePreservesValid | src/openf1/services/ingestor_livetiming/core/processing/collections/events.py:291-313 | the update keeps the invariant: the status is one of the five recorded statuses, the stage is 1 to 3, stint values are typed by field, and the order lists the positions' keys once each |
| Rules.RuleTable | src/openf1/services/ingestor_livetiming/core/processing/collections/events.py:1334-1561 | the table has 37 rules, and rule `i` pairs the `i`-th cause in insertion order with that cause's predicate |
| Rules.CauseAtPosition | src/openf1/services/ingestor_livetiming/core/processing/collections/events.py:1334-1561 | every cause sits at its position in the table |
| Rules.PositionOfCauseAt | src/openf1/services/ingestor_livetiming/core/processing/collections/events.py:1334-1561 | every table position holds the cause whose position it is, so each cause has exactly one rule |
| Rules.FirstMatchFrom | src/openf1/services/ingestor_livetiming/core/processing/collections/events.py:1646-1651 | the search yields the first index at or after `from` whose rule holds, and `None` exactly when no such rule holds |
| Rules.RuleTableCausesDistinct | src/openf1/services/ingestor_livetiming/core/processing/collections/events.py:1334-1561 | no two rules of the table share a cause |
| Rules.SelectIsFirstMatch | src/openf1/services/ingestor_livetiming/core/processing/collections/events.py:1646-1651 | first match wins: rule `i`'s cause is selected exactly when rule `i` holds and no earlier rule does |
| Rules.SelectNone | src/openf1/services/ingestor_livetiming/core/processing/collections/events.py:1646-1655 | no cause is selected exactly when no rule holds |
| Rules.ShadowedRuleNeverSelected | src/openf1/services/ingestor_livetiming/core/processing/collections/events.py:1646-1651 | a rule that holds only when an earlier rule holds is never selected |
| Rules.SelectedRuleHolds | src/openf1/services/ingestor_livetiming/core/processing/collections/events.py:1646-1651 | the predicate of the selected cause holds |
| Rules.BlackFlagCoversVariants | src/openf1/services/ingestor_livetiming/core/processing/collections/events.py:1375-1390 | a message satisfying the black-and-orange or black-and-white rule satisfies the black-flag rule |
| Rules.BlackFlagVariantsUnreachable | src/openf1/services/ingestor_livetiming/core/processing/collections/events.py:1375-1390 | the black-and-orange and black-and-white causes are never selected, for any message and state |
| Rules.HoldsNeedsTopic | src/openf1/services/ingestor_livetiming/core/processing/collections/events.py:1334-1561 | every rule holds only for messages on its own topic |
| Rules.RaceControlMessageIsCatchAll | src/openf1/services/ingestor_livetiming/core/processing/collections/events.py:1556-1561 | every rule that reads the text implies the final race-control rule; that rule is selected exactly when it holds and no earlier rule does; a race-control message with a string text always gets a cause |
| Rules.OtherTopicsSelectNothing | src/openf1/services/ingestor_livetiming/core/processing/collections/events.py:1334-1561 | a message on a topic no rule reads gets no cause, whatever the state |
| Processors.AssignRoles | src/openf1/services/ingestor_livetiming/core/processing/collections/events.py:631-648 | no driver gives no roles; the roles name exactly the drivers listed; with two or more drivers and a marker, every later driver is a participant and a first driver listed once is the initiator; otherwise every driver is an initiator |
| Processors.IncidentEvents | src/openf1/services/ingestor_livetiming/core/processing/collections/events.py:581-666 | one event exactly when the text matches the incident pattern; it carries the capture's marker, reason and roles and the message date; its lap comes from the text, else the `Lap` field, else the tracked lap |
| Processors.OutEntryEvents | src/openf1/services/ingestor_livetiming/core/processing/collections/events.py:669-700 | an entry yields one out event exactly when its key is a driver number and its data has a truthy `IsOut`; the event has the tracked lap and the driver's location |
| Processors.OutEvents | src/openf1/services/ingestor_livetiming/core/processing/collections/events.py:669-700 | one out event per entry that reports its driver out, and none for any other entry: event `k` is that of the `k`-th such entry, in entry order |
| Processors.FirstOvertaking | src/openf1/services/ingestor_livetiming/core/processing/collections/events.py:705-715 | the overtaker is the first entry whose `OvertakeState` is 2; `None` exactly when there is none |
| Processors.OvertakenList | src/openf1/services/ingestor_livetiming/core/processing/collections/events.py:721-730 | if any candidate entry fails to convert, there are no overtaken drivers; otherwise pair `k` is the (driver, position) of the `k`-th non-overtaking entry with a position, in entry order, one per such entry |
| Processors.OvertakeEvent | src/openf1/services/ingestor_livetiming/core/processing/collections/events.py:736-769 | an overtake is dated `Position - 1` microseconds before the message and records position `Position - 1`; the overtaker is the initiator and the overtaken driver the participant; the marker is the overtaker's location |
| Processors.PersonalBestEntryEvents | src/openf1/services/ingestor_livetiming/core/processing/collections/events.py:772-841 | a timing entry yields one event exactly when its best and last lap agree; the event carries that lap and the tracked compound and tyre age, and a `position` field exactly when the entry's position converts (the other shape has no such field) |
| Processors.PersonalBestEvents | src/openf1/services/ingestor_livetiming/core/processing/collections/events.py:772-841 | one personal-best event per timing entry that sets one, and none for any other entry: event `k` is that of the `k`-th such entry, in entry order |
| Processors.PitEntryEvents | src/openf1/services/ingestor_livetiming/core/processing/collections/events.py:844-896 | an entry yields one pit event exactly when its latest stint passes the gate (a compound other than "UNKNOWN", and `TyresNotChanged` equal to "0"); the date and lap come from the pit record, else the message time and the tracked lap |
| Processors.PitEvents | src/openf1/services/ingestor_livetiming/core/processing/collections/events.py:844-896 | one pit event per timing-app entry that passes the gate, and none for any other entry: event `k` is that of the `k`-th such entry, in entry order |
| Processors.TrackLimitsEvents | src/openf1/services/ingestor_livetiming/core/processing/collections/events.py:899-964 | one event exactly when the text matches; it is dated by the local time in the text when that converts, else by the message date; its lap uses the same fallback chain as an incident; its driver is the captured one |
| Processors.VerdictEvents | src/openf1/services/ingestor_livetiming/core/processing/collections/events.py:967-1081 | one event exactly when the standard verdict pattern or the penalty pattern matches; the standard pattern takes precedence and yields verdict details with role assignment; otherwise penalty details |
| Processors.ClassificationEvent | src/openf1/services/ingestor_livetiming/core/processing/collections/events.py:1084-1108 | a driver's classification is dated `position` microseconds after the message; the lap, compound and tyre age are present only in practice or qualifying |
| Processors.StageEntryEvents | src/openf1/services/ingestor_livetiming/core/processing/collections/events.py:1114-1164 | a driver entry yields one classification for the previous stage, dated by its tracked position, and eliminated exactly when `KnockedOut` is truthy |
| Processors.StageClassificationEvents | src/openf1/services/ingestor_livetiming/core/processing/collections/events.py:1114-1164 | no events unless the part is 2 or 3; otherwise one classification per driver entry, and none for any other entry: event `k` is that of the `k`-th driver entry, in entry order |
| Processors.DriverFlagEvents | src/openf1/services/ingestor_livetiming/core/processing/collections/events.py:1167-1209 | one event exactly when the text is a string; the driver is `RacingNumber` when that converts, else the car in the text |
| Processors.SectorFlagEvents | src/openf1/services/ingestor_livetiming/core/processing/collections/events.py:1212-1248 | one event exactly when the text is a string; it carries the sector found in the text |
| Processors.MessageEvents | src/openf1/services/ingestor_livetiming/core/processing/collections/events.py:1251-1281 | one event exactly when the text is a string, under the given category and cause, carrying the text and the lap |
| Processors.SessionNotificationEvents | src/openf1/services/ingestor_livetiming/core/processing/collections/events.py:1284-1294 | exactly one event, at the message time, with no details |
| ProcessorFacts.OvertakeFanOut | src/openf1/services/ingestor_livetiming/core/processing/collections/events.py:703-769 | no overtaker gives no events; otherwise event `k` is the overtake of the `k`-th overtaken driver |
| ProcessorFacts.OvertakeDatesOrdered | src/openf1/services/ingestor_livetiming/core/processing/collections/events.py:756-759 | of two overtaken drivers, the one with the higher position number is dated strictly earlier |
| ProcessorFacts.ProvisionalPerDriver | src/openf1/services/ingestor_livetiming/core/processing/collections/events.py:1084-1108 | event `k` of a provisional classification is that of the `k`-th driver in the positions' insertion order |
| ProcessorFacts.ProvisionalClassifiesEachDriverOnce | src/openf1/services/ingestor_livetiming/core/processing/collections/events.py:1084-1108 | over a valid state, two classification events name different drivers, and a better position is dated earlier |
| ProcessorFacts.StageRuleSelectsAStage | src/openf1/services/ingestor_livetiming/core/processing/collections/events.py:1408-1414 | whenever the rule holds, `int(SessionPart)` is 2 or 3, so a selected stage classification never returns early at its own part check (lines 1117-1122); the processor's check is looser than the rule's, since it also accepts a text such as "2" |
| Dispatch.DriverActionsFit | src/openf1/services/ingestor_livetiming/core/processing/collections/events.py:1568-1573 | every incident, out, overtake, personal-best or track-limits event carries its cause, the driver-action category, its details shape and the collection's stamp |
| Dispatch.PitsFit | src/openf1/services/ingestor_livetiming/core/processing/collections/events.py:1572 | every pit event carries its cause, category, details shape and stamp |
| Dispatch.ClassificationsFit | src/openf1/services/ingestor_livetiming/core/processing/collections/events.py:1580-1581 | every classification event carries its cause, the driver-notification category, its details shape and stamp |
| Dispatch.NotificationsFit | src/openf1/services/ingestor_livetiming/core/processing/collections/events.py:1575-1612 | every flag, verdict, track, session and race-control event carries its cause, its category, its details shape and stamp |
| Dispatch.EmitFits | src/openf1/services/ingestor_livetiming/core/processing/collections/events.py:1566-1614 | every event of the processor mapped to a cause carries that cause, a category and details shape of that cause, and the collection's stamp |
| Dispatch.NoCauseNoEvents | src/openf1/services/ingestor_livetiming/core/processing/collections/events.py:1653-1655 | when no rule holds, the message yields no events, but the topic's update has been applied |
| Dispatch.StepEventsFit | src/openf1/services/ingestor_livetiming/core/processing/collections/events.py:1617-1657 | every event of a message has the cause of the first rule that holds over the updated state; that rule holds; the event fits that cause |
| Dispatch.StepStatus | src/openf1/services/ingestor_livetiming/core/processing/collections/events.py:1617-1657 | a message changes only what the update changes, plus the session status; the status changes only under a session-notification or provisional-classification cause, and only to the message's status, which is one of the five recorded ones |
| Dispatch.StepPreservesValid | src/openf1/services/ingestor_livetiming/core/processing/collections/events.py:1617-1657 | a message keeps the state invariant |
| Dispatch.RespondPreservesValid | src/openf1/services/ingestor_livetiming/core/processing/collections/events.py:1645-1657 | recording the session status after the events keeps a valid state valid |
| Dispatch.ValidStateOrdersPositions | src/openf1/services/ingestor_livetiming/core/processing/collections/events.py:1084-1088 | over a valid state the recorded order lists only drivers with a tracked position, which the model's classification needs (the model splits the dictionary into positions and their order) |
| Collection.EventsCollection.constructor | src/openf1/services/ingestor_livetiming/core/processing/collections/events.py:226-249 | a new collection has the given meeting and session keys, every field unset and every record empty, and is valid |
| Collection.EventsCollection.UpdateLapNumber | src/openf1/services/ingestor_livetiming/core/processing/collections/events.py:252-259 | the lap becomes `CurrentLap` when that converts to an integer, and stays otherwise; nothing else changes |
| Collection.EventsCollection.UpdateSessionStreamStart | src/openf1/services/ingestor_livetiming/core/processing/collections/events.py:262-266 | the stream start becomes the message time exactly when the session-start rule holds |
| Collection.EventsCollection.UpdateSessionInfo | src/openf1/services/ingestor_livetiming/core/processing/collections/events.py:269-288 | the start, offset and type change together, and only when the offset and type are present and the start parses |
| Collection.EventsCollection.UpdateSessionStatus | src/openf1/services/ingestor_livetiming/core/processing/collections/events.py:291-301 | the status becomes the message's status only when that is one of the five recorded ones |
| Collection.EventsCollection.UpdateQualifyingStageNumber | src/openf1/services/ingestor_livetiming/core/processing/collections/events.py:304-313 | the stage becomes `QualifyingPart` only when that converts to 1, 2 or 3 |
| Collection.EventsCollection.PutLocation | src/openf1/services/ingestor_livetiming/core/processing/collections/events.py:316-324 | a change-gated write into the locations; nothing else changes |
| Collection.EventsCollection.UpdateDriverLocations | src/openf1/services/ingestor_livetiming/core/processing/collections/events.py:327-374 | the loop over the entries leaves the locations as `NewDriverLocations`: the x, y and z of each driver in the latest `Position` sample; nothing else changes |
| Collection.EventsCollection.PutStint | src/openf1/services/ingestor_livetiming/core/processing/collections/events.py:377-386 | a change-gated write into the stints |
| Collection.EventsCollection.UpdateDriverStints | src/openf1/services/ingestor_livetiming/core/processing/collections/events.py:389-433 | the loop leaves the stints as `NewDriverStints`: the compound and tyre age of each driver's latest stint |
| Collection.EventsCollection.PutPersonalBestLap | src/openf1/services/ingestor_livetiming/core/processing/collections/events.py:436-443 | a change-gated write into the personal bests |
| Collection.EventsCollection.UpdateDriverPersonalBestLaps | src/openf1/services/ingestor_livetiming/core/processing/collections/events.py:446-474 | the loop leaves the personal bests as `NewDriverPersonalBestLaps` |
| Collection.EventsCollection.PutPit | src/openf1/services/ingestor_livetiming/core/processing/collections/events.py:477-486 | a change-gated write into the pit records |
| Collection.EventsCollection.UpdateDriverPits | src/openf1/services/ingestor_livetiming/core/processing/collections/events.py:489-544 | the loop leaves the pit records as `NewDriverPits` |
| Collection.EventsCollection.PutPosition | src/openf1/services/ingestor_livetiming/core/processing/collections/events.py:547-554 | a change-gated write into the positions; a driver new to the dictionary goes at the end of its iteration order |
| Collection.EventsCollection.UpdateDriverPositions | src/openf1/services/ingestor_livetiming/core/processing/collections/events.py:557-578 | the loop leaves the positions and their order as `NewDriverPositions` and `NewPositionOrder` |
| Collection.EventsCollection.UpdateSessionFields | src/openf1/services/ingestor_livetiming/core/processing/collections/events.py:1619-1620 | a lap-count or session-info message moves the fields as `UpdateState` says |
| Collection.EventsCollection.UpdateFromSessionData | src/openf1/services/ingestor_livetiming/core/processing/collections/events.py:1631-1634 | session data moves the stream start and, in qualifying, the stage, as `UpdateState` says |
| Collection.EventsCollection.UpdatePitFields | src/openf1/services/ingestor_livetiming/core/processing/collections/events.py:1621-1628 | a pit message updates the pit records only from the topic in use, as `UpdateState` says |
| Collection.EventsCollection.UpdateFromPositionZ | src/openf1/services/ingestor_livetiming/core/processing/collections/events.py:1629-1630 | a location message moves the fields as `UpdateState` says |
| Collection.EventsCollection.UpdateFromTimingAppData | src/openf1/services/ingestor_livetiming/core/processing/collections/events.py:1637-1638 | a timing-app message moves the fields as `UpdateState` says |
| Collection.EventsCollection.UpdateFromTimingData | src/openf1/services/ingestor_livetiming/core/processing/collections/events.py:1639-1641 | a timing message updates personal bests and then positions, as `UpdateState` says |
| Collection.EventsCollection.Update | src/openf1/services/ingestor_livetiming/core/processing/collections/events.py:1618-1643 | the topic-keyed update leaves the fields as `UpdateState` says |
| Collection.EventsCollection.ProcessOuts | src/openf1/services/ingestor_livetiming/core/processing/collections/events.py:669-700 | the loop yields exactly `OutEvents` |
| Collection.EventsCollection.ProcessOvertakes | src/openf1/services/ingestor_livetiming/core/processing/collections/events.py:703-769 | the loop yields exactly `OvertakeEvents` |
| Collection.EventsCollection.ProcessPersonalBestLaps | src/openf1/services/ingestor_livetiming/core/processing/collections/events.py:772-841 | the loop yields exactly `PersonalBestEvents` |
| Collection.EventsCollection.ProcessPits | src/openf1/services/ingestor_livetiming/core/processing/collections/events.py:844-896 | the loop yields exactly `PitEvents` |
| Collection.EventsCollection.ClassifyProvisionally | src/openf1/services/ingestor_livetiming/core/processing/collections/events.py:1087-1108 | the loop over the positions in insertion order yields exactly `ProvisionalEvents` |
| Collection.EventsCollection.ProcessProvisionalClassification | src/openf1/services/ingestor_livetiming/core/processing/collections/events.py:1084-1111 | yields the classification of the state before the call, and then records the message's session status |
| Collection.EventsCollection.ClassifyStage | src/openf1/services/ingestor_livetiming/core/processing/collections/events.py:1129-1164 | the loop over the driver entries yields the gathered stage classifications in entry order |
| Collection.EventsCollection.ProcessQualifyingStageClassifications | src/openf1/services/ingestor_livetiming/core/processing/collections/events.py:1114-1164 | yields exactly `StageClassificationEvents` |
| Collection.EventsCollection.ProcessSessionNotification | src/openf1/services/ingestor_livetiming/core/processing/collections/events.py:1284-1296 | yields the notification of the state before the call, and then records the message's session status |
| Collection.EventsCollection.FirstCause | src/openf1/services/ingestor_livetiming/core/processing/collections/events.py:1646-1651 | the loop over the rules in order returns the cause `Select` gives: the first rule that holds |
| Collection.EventsCollection.RunEntryProcessor | src/openf1/services/ingestor_livetiming/core/processing/collections/events.py:1569-1572 | runs the out, overtake, personal-best or pit processor, yielding `Emit` |
| Collection.EventsCollection.RunDriverMessage | src/openf1/services/ingestor_livetiming/core/processing/collections/events.py:1568-1579 | runs the incident, track-limits, verdict or driver-flag processor, yielding `Emit` |
| Collection.EventsCollection.RunSectorFlag | src/openf1/services/ingestor_livetiming/core/processing/collections/events.py:1583-1589 | a green flag scoped to a sector is a sector flag, otherwise a track flag; yellow flags are sector flags; yields `Emit` |
| Collection.EventsCollection.RunTrackMessage | src/openf1/services/ingestor_livetiming/core/processing/collections/events.py:1591-1596 | the chequered and red flags and the safety-car messages are track flags; yields `Emit` |
| Collection.EventsCollection.RunStatelessProcessor | src/openf1/services/ingestor_livetiming/core/processing/collections/events.py:1566-1614 | every processor that leaves the status alone yields `Emit` |
| Collection.EventsCollection.RunStatusProcessor | src/openf1/services/ingestor_livetiming/core/processing/collections/events.py:1580 | a session notification or provisional classification yields `Emit` over the state before the call, then records the status |
| Collection.EventsCollection.RunProcessor | src/openf1/services/ingestor_livetiming/core/processing/collections/events.py:1566-1614 | the mapped processor yields `Emit`; the status changes only under a cause that records it |
| Collection.EventsCollection.Respond | src/openf1/services/ingestor_livetiming/core/processing/collections/events.py:1645-1657 | after the update, the selection and the processor move the object as `Dispatch.Respond` says |
| Collection.EventsCollection.ProcessMessage | src/openf1/services/ingestor_livetiming/core/processing/collections/events.py:1617-1657 | the object and the events are exactly `Dispatch.Step` of the old state, and a valid collection stays valid |

## Left out

- Message I/O and the `Collection` and `Document` base classes are not part
  of this model. A message is a topic, a JSON object and a timepoint.
- `deep_get`, `to_datetime`, `to_timedelta` and `add_timezone_info` are
  fields of `Externals`, with no definitions. Their internals are not
  modelled.
- The regular expressions are abstract extractors in `Externals`. These are
  the incident, verdict, penalty, track-limits, "CAR n" and "SECTOR n"
  patterns, and `re.findall` of driver numbers. Their matching is not
  modelled; the code that consumes their captures is.
- Floating point:
  - lap times and pit durations are opaque integers from `Externals`;
  - `math.isclose(rel_tol=1e-3)` is an external predicate.
- Timezone arithmetic (pytz, `datetime.combine` with the session offset) is
  the external `localTimeOnDate`. Instants are integer microseconds.
- `EventModel.ElapsedTime`: the HH:MM:SS text that `str(timedelta)` gives,
  with its zero-padding regex, is not modelled. The result is a sign and a
  magnitude in microseconds.
- Event deduplication: `_hash_obj` (SHA3-512 of `json.dumps`) is the
  external `hashDetails`. `EventModel.UniqueKey` only pairs it with the date
  and cause.
- Generator laziness: `process_message` is itself a generator, so in the
  source none of its work runs before the caller first asks for an event:
  not the topic's state update, not the rule selection, not the processor.
  The processors are generators too, so the session-status update at the
  end of the provisional-classification and session-notification processors
  runs only once their iterator is exhausted. The model is eager throughout:
  `Dispatch.Step` and `Collection.EventsCollection.ProcessMessage` apply the
  update, select the rule, run the processor and record the status in one
  call. This is the behaviour of a caller that consumes every message's
  iterator in full; a caller that drops an iterator early is not modelled.
- Python `int()` of text: the model accepts an optional sign and ASCII
  digits. Python also accepts surrounding whitespace, underscores and other
  Unicode digits.
- JSON objects are lists of fields that are assumed to have distinct keys,
  as a parsed dictionary does. A lookup takes the first field; a duplicate
  key is not modelled.
- Topic names are an enumeration. A message whose topic is not one of the
  ten subscribed topics is read as `OtherTopic`.
- Crash paths that the source does not guard are preconditions, so the model
  does not claim these cases are total. The same holds for exceptions the
  source would raise:
  - `Dispatch.ProcessorSafe`. `match.group` on a failed "CAR n" or
    "SECTOR n" match in the driver and sector flag processors.
  - `Processors.StageEntryRanked`. `timedelta(microseconds=None)` for a
    qualifying-stage driver with no tracked position.
  - `SessionState.StintsSafe`. An unguarded `int()` of a stint number or of
    `TotalLaps`.
  - `SessionState.LocationsSafe`. Indexing an empty `Position` list.
- The processors of single race-control messages are the `Processors`
  functions themselves, called from the `Collection` methods. They have no
  loop and no state change: incidents, track limits, verdicts, driver,
  sector and track flags, and plain race-control messages.
- `Collection.EventsCollection.PutPosition` records the driver in the
  insertion order whether or not the value changed. A dictionary keeps an
  existing key in place, so this is the same order as the source's.
- Overtake dates follow the code: the date is the message time less
  `Position - 1` microseconds, so a higher position number is dated earlier.
  The comment at the overtake processor, which puts overtakes "for lower
  positions" first, agrees if a lower position means one further down the
  order.
- In the driver-flag processor, `FlaggedDriver` falls back to car number 0,
  and that fallback can never be reached. The precondition requires the
  "CAR n" match to succeed whenever `RacingNumber` does not convert.

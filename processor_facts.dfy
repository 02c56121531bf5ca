/**
 * What the bulk processors promise as a whole: overtakes fan out one event
 * per overtaken driver with distinct, position-ordered dates, and each
 * classification lists every driver once, its date offset by its position.
 */
module ProcessorFacts {
  import opened Wrappers
  import opened JsonValues
  import opened Writes
  import opened EventModel
  import opened SessionState
  import opened Folds
  import opened Rules
  import opened Processors

  /** Event `k` of an overtake message is overtaken driver `k` passed by the overtaker; no overtaker, no events. */
  lemma OvertakeFanOut(env: Env, s: State, m: Message)
    ensures Overtaker(m.content).None? ==> OvertakeEvents(env, s, m) == []
    ensures Overtaker(m.content).Some? ==>
      var list := OvertakenList(m.content);
      && |OvertakeEvents(env, s, m)| == |list|
      && forall k :: 0 <= k < |list| ==>
           OvertakeEvents(env, s, m)[k] == OvertakeEvent(env, s, m.timepoint, Overtaker(m.content).value, list[k])
  {
    if Overtaker(m.content).Some? {
      var f := OvertakeStep(env, s, m.timepoint, Overtaker(m.content).value);
      assert forall p :: f(p) == [OvertakeEvent(env, s, m.timepoint, Overtaker(m.content).value, p)];
      GatherSingletons(OvertakenList(m.content), f);
    }
  }

  /**
   * Distinct positions get distinct overtake dates: the date is the message
   * time less the overtake position, so a lower position sorts later.
   */
  lemma OvertakeDatesOrdered(env: Env, s: State, m: Message, a: nat, b: nat)
    requires Overtaker(m.content).Some?
    requires a < |OvertakenList(m.content)| && b < |OvertakenList(m.content)|
    requires OvertakenList(m.content)[a].1 < OvertakenList(m.content)[b].1
    ensures |OvertakeEvents(env, s, m)| == |OvertakenList(m.content)|
    ensures OvertakeEvents(env, s, m)[b].date < OvertakeEvents(env, s, m)[a].date
  {
    OvertakeFanOut(env, s, m);
  }

  /** Event `k` of a provisional classification is that of the `k`-th driver in position order. */
  lemma ProvisionalPerDriver(env: Env, s: State, m: Message)
    requires OrderedPositions(s)
    ensures |ProvisionalEvents(env, s, m)| == |s.positionOrder|
    ensures forall k :: 0 <= k < |s.positionOrder| ==>
      ProvisionalEvents(env, s, m)[k] == ClassificationEvent(env, s, m.timepoint, s.positionOrder[k])
  {
    var f := ClassificationStep(env, s, m.timepoint);
    assert forall k :: 0 <= k < |s.positionOrder| ==>
      f(s.positionOrder[k]) == [ClassificationEvent(env, s, m.timepoint, s.positionOrder[k])];
    GatherSingletons(s.positionOrder, f);
  }

  /**
   * Over a valid state, a provisional classification names each tracked
   * driver exactly once, and a better position is dated earlier.
   */
  lemma ProvisionalClassifiesEachDriverOnce(env: Env, s: State, m: Message, a: nat, b: nat)
    requires Valid(s)
    requires a < b < |s.positionOrder|
    ensures OrderedPositions(s)
    ensures |ProvisionalEvents(env, s, m)| == |s.positionOrder|
    ensures ProvisionalEvents(env, s, m)[a].details.ClassificationDetails?
    ensures ProvisionalEvents(env, s, m)[b].details.ClassificationDetails?
    ensures ProvisionalEvents(env, s, m)[a].details.driverRoles != ProvisionalEvents(env, s, m)[b].details.driverRoles
    ensures s.driverPositions[s.positionOrder[a]] < s.driverPositions[s.positionOrder[b]] ==>
      ProvisionalEvents(env, s, m)[a].date < ProvisionalEvents(env, s, m)[b].date
  {
    ProvisionalPerDriver(env, s, m);
    var da, db := s.positionOrder[a], s.positionOrder[b];
    assert da in Sole(da) && da !in Sole(db);
  }

  /**
   * Whenever the rule holds, `int(SessionPart)` is 2 or 3, so a selected
   * stage classification never returns early on the processor's own part
   * check. The converse does not hold: the processor's check is looser than
   * the rule's, accepting for example the text "2", which the rule rejects.
   */
  lemma StageRuleSelectsAStage(lib: Externals, m: Message, s: State)
    requires QualifyingStageClassificationRule(lib, m, s)
    ensures StagePart(lib, m) == Some(2) || StagePart(lib, m) == Some(3)
  {
    var part := Field(lib, m, "SessionPart");
    if part.JReal? {
      IntegralPartIsFloor(part.r);
    }
  }
}

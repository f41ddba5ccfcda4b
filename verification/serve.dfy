/**
 The socket event handlers of the study server that work on one
 participant's record: session start, session id rebinding, the case
 payload, case rating and stepping through the cases.
 */
module Serve {
  import opened Wrappers
  import opened Records
  import Participate

  /**
   The record created at session start. `draw` stands for the random case
   indexes: one per case of the dataset, each an index of the dataset,
   drawn with replacement. It is ignored when no dataset is loaded.
   */
  function Start(d: Deployment, draw: seq<nat>): (r: SessionRecord)
    requires d.cases.Some? ==>
               && |draw| == d.cases.value.numCases
               && forall i :: 0 <= i < |draw| ==> draw[i] < d.cases.value.numCases
    ensures r.stage == d.initial
    ensures r.sessionId.None?
    ensures r.history == []
    ensures r.assessments.Keys == {StageAssessWithoutBot, StageAssessWithBot}
    ensures forall s :: s in r.assessments ==> r.assessments[s] == map[]
    ensures r.cursor.Some? <==> d.cases.Some?
    ensures r.cursor.Some? ==> r.cursor.value.count == 0 && r.cursor.value.shuffled == draw
  {
    SessionRecord(
      d.initial,
      None,
      [],
      map[StageAssessWithoutBot := map[], StageAssessWithBot := map[]],
      if d.cases.Some? then Some(CaseCursor(draw, 0)) else None)
  }

  /** A freshly started record has the shape every handler relies on. */
  lemma StartIsWf(d: Deployment, draw: seq<nat>)
    requires ValidSetup(d)
    requires d.cases.Some? ==>
               && |draw| == d.cases.value.numCases
               && forall i :: 0 <= i < |draw| ==> draw[i] < d.cases.value.numCases
    ensures Wf(Start(d, draw), d)
  {
  }

  /** Bind the record to the session id the event arrived on (the update_session handler). */
  function Rebind(rec: SessionRecord, sender: SessionId): (r: SessionRecord)
    ensures r.sessionId == Some(sender)
    ensures r.(sessionId := rec.sessionId) == rec
  {
    rec.(sessionId := Some(sender))
  }

  /** Rebinding is last-writer-wins: only the latest sender's id survives. */
  lemma RebindLastWriterWins(rec: SessionRecord, first: SessionId, second: SessionId)
    ensures Rebind(Rebind(rec, first), second) == Rebind(rec, second)
  {
  }

  /** The proceed handler: rebind the session id, then advance the stage. */
  function HandleProceed(rec: SessionRecord, d: Deployment, participant: ParticipantId, sender: SessionId): (r: Reaction)
    requires d.cases.Some? && d.next(rec.stage) == StageSelectCase ==> CursorReady(rec)
    ensures r.fault.None?
    ensures r.rec == rec.(sessionId := Some(sender), stage := Participate.NextStage(d, rec.stage))
    ensures r.out == [Outbound(sender, Participate.SendUpdateToClient(participant, r.rec.stage))]
  {
    Participate.Proceed(Rebind(rec, sender), d, participant, sender)
  }

  /** The request_content handler: rebind the session id, then re-announce the stage. */
  function HandleRequestContent(rec: SessionRecord, participant: ParticipantId, sender: SessionId): (r: Reaction)
    ensures r.fault.None?
    ensures r.rec == rec.(sessionId := Some(sender))
    ensures r.out == [Outbound(sender, Participate.SendUpdateToClient(participant, rec.stage))]
  {
    var rebound := Rebind(rec, sender);
    Reaction(rebound, [Participate.HandleRequestForContent(rebound, participant, sender)], None)
  }

  /**
   `out` is exactly one `case` message to `sender` describing the case under
   the cursor: the stored stage, the 1-based position, the case index, its
   features and the label stored for it under the stage, if any.
   */
  predicate CaseMessage(out: seq<Outbound>, rec: SessionRecord, d: Deployment, sender: SessionId)
    requires CursorReady(rec) && d.cases.Some?
  {
    && |out| == 1
    && out[0].to == sender
    && out[0].msg.Case?
    && out[0].msg.payload.stage == rec.stage
    && out[0].msg.payload.count == rec.cursor.value.count + 1
    && out[0].msg.payload.index == CurrentIndex(rec)
    && out[0].msg.payload.features == d.cases.value.features(CurrentIndex(rec))
    && out[0].msg.payload.assessment == LabelFor(rec, rec.stage, CurrentIndex(rec))
  }

  /**
   The case payload for the current case, sent only while the stored stage
   names an assessment map; reading the cursor of a record without one is a
   KeyError.
   */
  function SendCase(rec: SessionRecord, d: Deployment, sender: SessionId): (r: Result<seq<Outbound>, Fault>)
    requires CursorInRange(rec)
    requires rec.cursor.Some? ==> d.cases.Some?
    ensures rec.stage !in rec.assessments ==> r == Ok([])
    ensures rec.stage in rec.assessments && rec.cursor.None? ==> r == Err(MissingKey("case_count"))
    ensures rec.stage in rec.assessments && rec.cursor.Some? ==> r.Ok? && CaseMessage(r.value, rec, d, sender)
  {
    if rec.stage !in rec.assessments then Ok([])
    else if rec.cursor.None? then Err(MissingKey("case_count"))
    else
      var index: nat := CurrentIndex(rec);
      var ratings := rec.assessments[rec.stage];
      var assessment := if index in ratings then Some(ratings[index]) else None;
      var payload := CasePayload(rec.stage, rec.cursor.value.count + 1, index, d.cases.value.features(index), assessment);
      Ok([Outbound(sender, Case(payload))])
  }

  /**
   Rate the current case under the assessment map named by the event (not
   necessarily the stored stage), then re-send the case.
   */
  function UpdateAssessment(rec: SessionRecord, d: Deployment, state: Stage, rating: Label, sender: SessionId): (r: Reaction)
    requires CursorInRange(rec)
    requires rec.cursor.Some? ==> d.cases.Some?
    ensures rec.cursor.None? ==> r == Reaction(rec, [], Some(MissingKey("shuffled_case_indexes")))
    ensures rec.cursor.Some? && state !in rec.assessments ==> r == Reaction(rec, [], Some(MissingKey(state)))
    ensures rec.cursor.Some? && state in rec.assessments ==>
              && r.fault.None?
              && r.rec == rec.(assessments := r.rec.assessments)
              && r.rec.assessments.Keys == rec.assessments.Keys
              && LabelFor(r.rec, state, CurrentIndex(rec)) == Some(rating)
              && (forall s, i :: (s != state || i != CurrentIndex(rec)) ==> LabelFor(r.rec, s, i) == LabelFor(rec, s, i))
              && (rec.stage in rec.assessments ==> CaseMessage(r.out, r.rec, d, sender))
              && (rec.stage !in rec.assessments ==> r.out == [])
  {
    if rec.cursor.None? then Reaction(rec, [], Some(MissingKey("shuffled_case_indexes")))
    else if state !in rec.assessments then Reaction(rec, [], Some(MissingKey(state)))
    else
      var index: nat := CurrentIndex(rec);
      var ratings: map<nat, Label> := rec.assessments[state][index := rating];
      var rated := rec.(assessments := rec.assessments[state := ratings]);
      Reaction(rated, SendCase(rated, d, sender).value, None)
  }

  /** Rating the same case twice under the same map keeps only the second label. */
  lemma RerateOverwrites(rec: SessionRecord, d: Deployment, state: Stage, first: Label, second: Label, sender: SessionId)
    requires CursorReady(rec) && d.cases.Some?
    requires state in rec.assessments
    ensures UpdateAssessment(UpdateAssessment(rec, d, state, first, sender).rec, d, state, second, sender).rec
            == UpdateAssessment(rec, d, state, second, sender).rec
  {
    var index := CurrentIndex(rec);
    var once := UpdateAssessment(rec, d, state, first, sender).rec;
    assert once.cursor == rec.cursor;
    assert once.assessments == rec.assessments[state := rec.assessments[state][index := first]];
    assert rec.assessments[state][index := first][index := second] == rec.assessments[state][index := second];
  }

  /** Rating under the stored stage sends back the current case carrying the new label. */
  lemma RatingShownInCase(rec: SessionRecord, d: Deployment, rating: Label, sender: SessionId)
    requires CursorReady(rec) && d.cases.Some?
    requires rec.stage in rec.assessments
    ensures var r := UpdateAssessment(rec, d, rec.stage, rating, sender);
            r.out[0].msg.payload.assessment == Some(rating)
  {
  }

  /**
   Apply a signed step to the case cursor. A result at or past the case
   limit advances the stage instead and leaves the cursor alone; otherwise
   the cursor moves, clamped at 0, and the new case is sent.
   */
  function ProceedWithinCases(rec: SessionRecord, d: Deployment, participant: ParticipantId, step: int, sender: SessionId): (r: Reaction)
    requires CursorInRange(rec)
    requires rec.cursor.Some? ==> d.cases.Some? && d.cases.value.caseLimit <= |rec.cursor.value.shuffled|
    ensures rec.cursor.None? ==> r == Reaction(rec, [], Some(MissingKey("case_count")))
    ensures rec.cursor.Some? && rec.cursor.value.count + step >= d.cases.value.caseLimit ==>
              && r == Participate.Proceed(rec, d, participant, sender)
              && r.rec.cursor == rec.cursor
    ensures rec.cursor.Some? && rec.cursor.value.count + step < d.cases.value.caseLimit ==>
              && r.fault.None?
              && r.rec == rec.(cursor := r.rec.cursor)
              && r.rec.cursor.Some?
              && r.rec.cursor.value.shuffled == rec.cursor.value.shuffled
              && r.rec.cursor.value.count as int == (if rec.cursor.value.count + step < 0 then 0 else rec.cursor.value.count + step)
              && CursorReady(r.rec)
              && (1 <= d.cases.value.caseLimit ==> r.rec.cursor.value.count < d.cases.value.caseLimit)
              && (rec.stage in rec.assessments ==> CaseMessage(r.out, r.rec, d, sender))
              && (rec.stage !in rec.assessments ==> r.out == [])
  {
    if rec.cursor.None? then Reaction(rec, [], Some(MissingKey("case_count")))
    else
      var stepped := rec.cursor.value.count + step;
      if stepped >= d.cases.value.caseLimit then Participate.Proceed(rec, d, participant, sender)
      else
        var moved := rec.(cursor := Some(rec.cursor.value.(count := if stepped < 0 then 0 else stepped)));
        Reaction(moved, SendCase(moved, d, sender).value, None)
  }

  /** The record after `k` forward steps of one case each, none of which reaches the limit. */
  function Forward(rec: SessionRecord, d: Deployment, participant: ParticipantId, sender: SessionId, k: nat): (r: SessionRecord)
    requires CursorReady(rec) && d.cases.Some? && d.cases.value.caseLimit <= |rec.cursor.value.shuffled|
    requires rec.cursor.value.count + k < d.cases.value.caseLimit
    ensures CursorReady(r)
    ensures r == rec.(cursor := Some(rec.cursor.value.(count := rec.cursor.value.count + k)))
    decreases k
  {
    if k == 0 then rec
    else ProceedWithinCases(Forward(rec, d, participant, sender, k - 1), d, participant, 1, sender).rec
  }

  /**
   From the first case, `n - 1` single forward steps visit the cases one by
   one without a stage change, and the `n`-th step advances the stage
   without moving the cursor.
   */
  lemma ExhaustsAtLimit(rec: SessionRecord, d: Deployment, participant: ParticipantId, sender: SessionId)
    requires CursorReady(rec) && d.cases.Some? && d.cases.value.caseLimit <= |rec.cursor.value.shuffled|
    requires rec.cursor.value.count == 0 && 1 <= d.cases.value.caseLimit
    ensures var last := Forward(rec, d, participant, sender, d.cases.value.caseLimit - 1);
            && last.stage == rec.stage
            && last.cursor.value.count == d.cases.value.caseLimit - 1
            && ProceedWithinCases(last, d, participant, 1, sender) == Participate.Proceed(last, d, participant, sender)
            && ProceedWithinCases(last, d, participant, 1, sender).rec.cursor == last.cursor
  {
  }

  /**
   Since indexes are drawn with replacement, two positions may show the same
   case; a label given at one position then shows at the other.
   */
  lemma DuplicateDrawSharesLabel(rec: SessionRecord, d: Deployment, participant: ParticipantId, rating: Label, j: nat, sender: SessionId)
    requires CursorReady(rec) && d.cases.Some? && d.cases.value.caseLimit <= |rec.cursor.value.shuffled|
    requires rec.stage in rec.assessments
    requires j < d.cases.value.caseLimit
    requires rec.cursor.value.shuffled[j] == CurrentIndex(rec)
    ensures var rated := UpdateAssessment(rec, d, rec.stage, rating, sender).rec;
            var moved := ProceedWithinCases(rated, d, participant, j - rec.cursor.value.count, sender);
            moved.out[0].msg.payload.count == j + 1 && moved.out[0].msg.payload.assessment == Some(rating)
  {
  }
}

/**
 The per-participant session record of the study server, the messages the
 server sends to a participant's socket session, and the deployment
 parameters the handlers depend on.
 */
module Records {
  import opened Wrappers

  /** Stage names of the participation state machine. */
  type Stage = string
  /** A socket session id (the id of the connection a message arrives on or goes to). */
  type SessionId = string
  /** The opaque participant token handed out at session start. */
  type ParticipantId = string
  /** A rating a participant gives to a case; opaque to the server. */
  type Label = string
  /** The feature columns of one case of the case dataset. */
  type Features = map<string, string>

  /** The stage whose successor is rewritten when the stage is advanced. */
  const StageSelectCase: Stage := "select_case"
  /** The stage a case dataset leads to in place of `select_case`. */
  const StagePreChatAssess: Stage := "pre_chat_assess"
  /** The conversation stage. */
  const StageChat: Stage := "chat"
  /** The two stages under which case ratings are stored. */
  const StageAssessWithoutBot: Stage := "assess_without_bot"
  const StageAssessWithBot: Stage := "assess_with_bot"

  datatype Role = User | Assistant

  /** One entry of the dialog transcript. */
  datatype Entry = Entry(role: Role, content: string)

  /**
   The case-rating cursor: the case indexes drawn at session start and the
   0-based position in that sequence.
   */
  datatype CaseCursor = CaseCursor(shuffled: seq<nat>, count: nat)

  /**
   The record kept for one participant. `sessionId` is absent until the
   participant's first proceed, request_content or update_session event;
   `cursor` is present exactly when a case dataset is loaded.
   `assessments` maps a stage name to the labels given per case index.
   */
  datatype SessionRecord = SessionRecord(
    stage: Stage,
    sessionId: Option<SessionId>,
    history: seq<Entry>,
    assessments: map<Stage, map<nat, Label>>,
    cursor: Option<CaseCursor>)

  /** What a `case` message carries. `count` is 1-based. */
  datatype CasePayload = CasePayload(
    stage: Stage,
    count: int,
    index: nat,
    features: Features,
    assessment: Option<Label>)

  /** Messages sent to a socket session; `Content` stands for the rendered content page of a stage. */
  datatype Message =
    | Redirect(href: string)
    | Content(stage: Stage)
    | Utterance(entry: Entry)
    | Case(payload: CasePayload)
    | State(stage: Stage)

  /** A message addressed to one socket session. */
  datatype Outbound = Outbound(to: SessionId, msg: Message)

  /** A dict lookup that raised KeyError, naming the missing key. */
  datatype Fault = MissingKey(key: string)

  /**
   The effect of one handler: the record afterwards, the messages sent
   before it returned, and the fault that ended it early, if any.
   */
  datatype Reaction = Reaction(rec: SessionRecord, out: seq<Outbound>, fault: Option<Fault>)

  /**
   The loaded case dataset: its size, the configured number of cases to
   rate (`caseLimit`), and each case's features.
   */
  datatype CaseSetup = CaseSetup(numCases: nat, caseLimit: int, features: nat -> Features)

  /**
   The deployment: the state machine's initial stage and successor
   function, and the case dataset if one is configured.
   */
  datatype Deployment = Deployment(initial: Stage, next: Stage -> Stage, cases: Option<CaseSetup>)

  /** The cursor exists and points into the drawn sequence. */
  predicate CursorReady(rec: SessionRecord)
  {
    rec.cursor.Some? && rec.cursor.value.count < |rec.cursor.value.shuffled|
  }

  /** If there is a cursor, it points into the drawn sequence. */
  predicate CursorInRange(rec: SessionRecord)
  {
    rec.cursor.Some? ==> CursorReady(rec)
  }

  /** The case index under the cursor. */
  function CurrentIndex(rec: SessionRecord): nat
    requires CursorReady(rec)
  {
    rec.cursor.value.shuffled[rec.cursor.value.count]
  }

  /** The label stored for `index` under the assessment map `stage`, if any. */
  function LabelFor(rec: SessionRecord, stage: Stage, index: nat): Option<Label>
  {
    if stage in rec.assessments && index in rec.assessments[stage]
    then Some(rec.assessments[stage][index])
    else None
  }

  /** A configuration the handlers can run under without an index error. */
  predicate ValidSetup(d: Deployment)
  {
    d.cases.Some? ==> 1 <= d.cases.value.numCases && d.cases.value.caseLimit <= d.cases.value.numCases
  }

  /**
   The shape a record has from session start on: exactly the two
   assessment maps; a cursor exactly when cases are loaded, drawn from the
   dataset's indexes and pointing into the draw; every rated index a case
   of the dataset; and no rating at all without a dataset.
   */
  predicate Wf(rec: SessionRecord, d: Deployment)
  {
    && rec.assessments.Keys == {StageAssessWithoutBot, StageAssessWithBot}
    && (rec.cursor.Some? <==> d.cases.Some?)
    && CursorInRange(rec)
    && (rec.cursor.Some? ==>
          && |rec.cursor.value.shuffled| == d.cases.value.numCases
          && (forall i :: 0 <= i < |rec.cursor.value.shuffled| ==> rec.cursor.value.shuffled[i] < d.cases.value.numCases)
          && (forall s, x :: s in rec.assessments && x in rec.assessments[s] ==> x < d.cases.value.numCases))
    && (rec.cursor.None? ==> forall s :: s in rec.assessments ==> rec.assessments[s] == map[])
  }
}

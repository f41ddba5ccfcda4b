/**
 Stage advance, the message that announces a stage, and the page routing of
 the participation entry point.
 */
module Participate {
  import opened Wrappers
  import opened Records

  /** The HTML page the entry route renders. */
  datatype Page =
    | ChatPage(participant: ParticipantId, casesEnabled: bool)
    | GeneralPage(query: Option<string>)

  /**
   The message announcing `stage` to the client: a redirect to the
   participant's chat page for the two interactive stages, the stage's
   content page otherwise.
   */
  function SendUpdateToClient(participant: ParticipantId, stage: Stage): (m: Message)
    ensures m.Redirect? <==> stage == StagePreChatAssess || stage == StageChat
    ensures m.Redirect? ==> m.href == "?participant=" + participant
    ensures !m.Redirect? ==> m == Content(stage)
  {
    if stage == StagePreChatAssess || stage == StageChat then
      Redirect("?participant=" + participant)
    else
      Content(stage)
  }

  /**
   The stage stored after advancing from `current`: the state machine's
   successor, except that `select_case` is replaced by `chat` without a case
   dataset and by `pre_chat_assess` with one.
   */
  function NextStage(d: Deployment, current: Stage): (s: Stage)
    ensures s != StageSelectCase
    ensures d.next(current) != StageSelectCase ==> s == d.next(current)
    ensures d.next(current) == StageSelectCase && d.cases.None? ==> s == StageChat
    ensures d.next(current) == StageSelectCase && d.cases.Some? ==> s == StagePreChatAssess
  {
    var successor := d.next(current);
    if successor != StageSelectCase then successor
    else if d.cases.None? then StageChat
    else StagePreChatAssess
  }

  /**
   Advance the participant's stage and announce the new stage to the
   sender. With a case dataset, landing on `select_case` reads the current
   case (only to log it), which is why the cursor must point into the draw.
   */
  function Proceed(rec: SessionRecord, d: Deployment, participant: ParticipantId, sender: SessionId): (r: Reaction)
    requires d.cases.Some? && d.next(rec.stage) == StageSelectCase ==> CursorReady(rec)
    ensures r.fault == None
    ensures r.rec == rec.(stage := r.rec.stage)
    ensures r.rec.stage == NextStage(d, rec.stage)
    ensures r.rec.stage != StageSelectCase
    ensures d.next(rec.stage) != StageSelectCase ==> r.rec.stage == d.next(rec.stage)
    ensures r.out == [Outbound(sender, SendUpdateToClient(participant, r.rec.stage))]
  {
    var stage := NextStage(d, rec.stage);
    Reaction(rec.(stage := stage), [Outbound(sender, SendUpdateToClient(participant, stage))], None)
  }

  /** Re-announce the stored stage to the sender, without changing the record. */
  function HandleRequestForContent(rec: SessionRecord, participant: ParticipantId, sender: SessionId): (o: Outbound)
    ensures o.to == sender
    ensures o.msg.Redirect? <==> rec.stage == StagePreChatAssess || rec.stage == StageChat
    ensures o.msg == SendUpdateToClient(participant, rec.stage)
  {
    Outbound(sender, SendUpdateToClient(participant, rec.stage))
  }

  /** Asking for content right after a proceed repeats exactly what the proceed sent. */
  lemma ContentRepeatsProceed(rec: SessionRecord, d: Deployment, participant: ParticipantId, sender: SessionId)
    requires d.cases.Some? && d.next(rec.stage) == StageSelectCase ==> CursorReady(rec)
    ensures var r := Proceed(rec, d, participant, sender);
            r.out == [HandleRequestForContent(r.rec, participant, sender)]
  {
  }

  /**
   The entry route: the chat page when a (non-empty) participant id is
   given whose stage is `pre_chat_assess` or `chat`, the general page
   otherwise. A given id must belong to a known participant.
   */
  function Participate(query: Option<string>, registry: map<ParticipantId, SessionRecord>, casesEnabled: bool): (p: Page)
    requires query.Some? && query.value != "" ==> query.value in registry
    ensures p.ChatPage? <==>
              && query.Some? && query.value != ""
              && (registry[query.value].stage == StagePreChatAssess || registry[query.value].stage == StageChat)
    ensures p.ChatPage? ==> p == ChatPage(query.value, casesEnabled)
    ensures p.GeneralPage? ==> p.query == query
  {
    if query.Some? && query.value != "" then
      var stage := registry[query.value].stage;
      if stage == StagePreChatAssess || stage == StageChat then ChatPage(query.value, casesEnabled)
      else GeneralPage(query)
    else
      GeneralPage(query)
  }

  /**
   After a proceed, loading the entry page with the participant's id
   renders the chat page exactly when the proceed answered with a redirect.
   */
  lemma ChatPageExactlyAfterRedirect(rec: SessionRecord, d: Deployment, participant: ParticipantId, sender: SessionId,
                                     registry: map<ParticipantId, SessionRecord>, casesEnabled: bool)
    requires d.cases.Some? && d.next(rec.stage) == StageSelectCase ==> CursorReady(rec)
    requires participant != ""
    ensures var r := Proceed(rec, d, participant, sender);
            Participate(Some(participant), registry[participant := r.rec], casesEnabled).ChatPage?
            <==> r.out[0].msg.Redirect?
  {
  }
}

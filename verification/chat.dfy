/**
 The dialog transcript: appending the participant's utterance, appending the
 bot's reply in a later step, and replaying the transcript.
 */
module Chat {
  import opened Wrappers
  import opened Records

  /** A bot reply still to come, addressed to the session id captured when it was requested. */
  datatype PendingReply = PendingReply(target: SessionId)

  /** The handler's reaction and the background reply it scheduled, if it got that far. */
  datatype Spawned = Spawned(reaction: Reaction, task: Option<PendingReply>)

  /** The conversational agent: a reply for a transcript. */
  type Bot = seq<Entry> -> string

  /** One `utterance` message per transcript entry, in transcript order, all to `sender`. */
  function SendHistory(history: seq<Entry>, sender: SessionId): (out: seq<Outbound>)
    ensures |out| == |history|
    ensures forall i :: 0 <= i < |history| ==> out[i] == Outbound(sender, Utterance(history[i]))
  {
    if |history| == 0 then []
    else SendHistory(history[..|history| - 1], sender) + [Outbound(sender, Utterance(history[|history| - 1]))]
  }

  /**
   Append the participant's utterance, echo it to the stored session id and
   schedule the bot reply for that session id. The entry is appended before
   the session id is looked up, so a participant with no session id bound
   keeps the entry but gets neither echo nor reply.
   */
  function HandleUtterance(rec: SessionRecord, utterance: string): (r: Spawned)
    ensures r.reaction.rec == rec.(history := r.reaction.rec.history)
    ensures |r.reaction.rec.history| == |rec.history| + 1
    ensures r.reaction.rec.history[..|rec.history|] == rec.history
    ensures r.reaction.rec.history[|rec.history|] == Entry(User, utterance)
    ensures rec.sessionId.None? ==>
              r.reaction.out == [] && r.task.None? && r.reaction.fault == Some(MissingKey("session_id"))
    ensures rec.sessionId.Some? ==>
              && r.reaction.fault.None?
              && r.reaction.out == [Outbound(rec.sessionId.value, Utterance(Entry(User, utterance)))]
              && r.task == Some(PendingReply(rec.sessionId.value))
  {
    var entry := Entry(User, utterance);
    var appended := rec.(history := rec.history + [entry]);
    match rec.sessionId
    case None => Spawned(Reaction(appended, [], Some(MissingKey("session_id"))), None)
    case Some(sid) => Spawned(Reaction(appended, [Outbound(sid, Utterance(entry))], None), Some(PendingReply(sid)))
  }

  /**
   The background reply: ask the bot about the transcript as it stands now,
   append its answer and send it to the session id captured by the task.
   */
  function DeliverReply(rec: SessionRecord, task: PendingReply, bot: Bot): (r: Reaction)
    ensures r.fault == None
    ensures r.rec == rec.(history := r.rec.history)
    ensures |r.rec.history| == |rec.history| + 1
    ensures r.rec.history[..|rec.history|] == rec.history
    ensures r.rec.history[|rec.history|] == Entry(Assistant, bot(rec.history))
    ensures r.out == [Outbound(task.target, Utterance(Entry(Assistant, bot(rec.history))))]
  {
    var entry := Entry(Assistant, bot(rec.history));
    Reaction(rec.(history := rec.history + [entry]), [Outbound(task.target, Utterance(entry))], None)
  }

  /** Replaying the transcript after an utterance is the earlier replay followed by the new entry. */
  lemma ReplayAfterUtterance(rec: SessionRecord, utterance: string, sender: SessionId)
    ensures SendHistory(HandleUtterance(rec, utterance).reaction.rec.history, sender)
            == SendHistory(rec.history, sender) + [Outbound(sender, Utterance(Entry(User, utterance)))]
  {
    var h := HandleUtterance(rec, utterance).reaction.rec.history;
    assert h == rec.history + [Entry(User, utterance)];
  }

  /**
   The reply goes to the session id stored when the utterance was handled,
   whatever session id the record is bound to when the reply arrives.
   */
  lemma ReplyGoesToCapturedSession(rec: SessionRecord, utterance: string, rebound: SessionId, bot: Bot)
    requires rec.sessionId.Some?
    ensures var s := HandleUtterance(rec, utterance);
            var later := s.reaction.rec.(sessionId := Some(rebound));
            DeliverReply(later, s.task.value, bot).out[0].to == rec.sessionId.value
  {
  }
}

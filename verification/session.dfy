/**
 One participant's session as a state machine over socket events: the
 record together with the bot replies scheduled but not yet delivered.
 Replies may arrive in any order relative to each other and to later events.
 */
module Session {
  import opened Wrappers
  import opened Records
  import Chat
  import Serve

  datatype World = World(rec: SessionRecord, pending: seq<Chat.PendingReply>)

  /** The socket events that name this participant; `sender` is the session id it arrives on. */
  datatype Event =
    | OnProceed(sender: SessionId)
    | OnRequestContent(sender: SessionId)
    | OnUpdateSession(sender: SessionId)
    | OnRequestChatHistory(sender: SessionId)
    | OnUtter(utterance: string)
    | OnGetState(sender: SessionId)
    | OnGetCase(sender: SessionId)
    | OnUpdateAssessment(state: Stage, rating: Label, sender: SessionId)
    | OnProceedWithinCases(step: int, sender: SessionId)
    | OnBotReply(task: nat)

  /** The world after one event and the messages the event sent. */
  datatype Transition = Transition(world: World, out: seq<Outbound>)

  /** The world right after session start, with no reply pending. */
  function Begin(d: Deployment, draw: seq<nat>): (w: World)
    requires ValidSetup(d)
    requires d.cases.Some? ==>
               && |draw| == d.cases.value.numCases
               && forall i :: 0 <= i < |draw| ==> draw[i] < d.cases.value.numCases
    ensures Wf(w.rec, d) && w.pending == [] && w.rec.history == []
  {
    Serve.StartIsWf(d, draw);
    World(Serve.Start(d, draw), [])
  }

  /** Keep the record a handler left behind, including one it changed before raising a KeyError. */
  function Apply(w: World, r: Reaction): World
  {
    World(r.rec, w.pending)
  }

  /**
   Handle one event. A handler that raised keeps whatever it changed before
   raising; a bot reply for a task that does not exist changes nothing.
   */
  function Step(w: World, ev: Event, participant: ParticipantId, d: Deployment, bot: Chat.Bot): (t: Transition)
    requires ValidSetup(d) && Wf(w.rec, d)
    ensures Wf(t.world.rec, d)
    ensures w.rec.history <= t.world.rec.history
    ensures |t.world.rec.history| <= |w.rec.history| + 1
    ensures t.world.rec.stage == w.rec.stage || t.world.rec.stage != StageSelectCase
    ensures t.world.rec.cursor.Some? ==> t.world.rec.cursor.value.shuffled == w.rec.cursor.value.shuffled
    ensures ev.OnUtter? ==> t.world.rec.history == w.rec.history + [Entry(User, ev.utterance)]
    ensures ev.OnBotReply? && ev.task < |w.pending| ==>
              && t.world.rec.history == w.rec.history + [Entry(Assistant, bot(w.rec.history))]
              && t.out == [Outbound(w.pending[ev.task].target, Utterance(Entry(Assistant, bot(w.rec.history))))]
    ensures ev.OnUtter? ==>
              t.world.pending == w.pending + (if w.rec.sessionId.Some? then [Chat.PendingReply(w.rec.sessionId.value)] else [])
    ensures !ev.OnUtter? && !(ev.OnBotReply? && ev.task < |w.pending|) ==> t.world.rec.history == w.rec.history
  {
    match ev
    case OnProceed(sender) =>
      var r := Serve.HandleProceed(w.rec, d, participant, sender);
      Transition(Apply(w, r), r.out)
    case OnRequestContent(sender) =>
      var r := Serve.HandleRequestContent(w.rec, participant, sender);
      Transition(Apply(w, r), r.out)
    case OnUpdateSession(sender) =>
      Transition(World(Serve.Rebind(w.rec, sender), w.pending), [])
    case OnRequestChatHistory(sender) =>
      Transition(w, Chat.SendHistory(w.rec.history, sender))
    case OnUtter(utterance) =>
      var s := Chat.HandleUtterance(w.rec, utterance);
      var pending := if s.task.Some? then w.pending + [s.task.value] else w.pending;
      Transition(World(s.reaction.rec, pending), s.reaction.out)
    case OnGetState(sender) =>
      Transition(w, [Outbound(sender, State(w.rec.stage))])
    case OnGetCase(sender) =>
      var sent := Serve.SendCase(w.rec, d, sender);
      Transition(w, if sent.Ok? then sent.value else [])
    case OnUpdateAssessment(state, rating, sender) =>
      var r := Serve.UpdateAssessment(w.rec, d, state, rating, sender);
      assert Wf(r.rec, d) by { UpdateAssessmentKeepsWf(w.rec, d, state, rating, sender); }
      Transition(Apply(w, r), r.out)
    case OnProceedWithinCases(step, sender) =>
      var r := Serve.ProceedWithinCases(w.rec, d, participant, step, sender);
      Transition(Apply(w, r), r.out)
    case OnBotReply(i) =>
      if i < |w.pending| then
        var r := Chat.DeliverReply(w.rec, w.pending[i], bot);
        Transition(World(r.rec, w.pending[..i] + w.pending[i + 1..]), r.out)
      else
        Transition(w, [])
  }

  /** Rating keeps the record's shape: the new key is a case index of the dataset. */
  lemma UpdateAssessmentKeepsWf(rec: SessionRecord, d: Deployment, state: Stage, rating: Label, sender: SessionId)
    requires ValidSetup(d) && Wf(rec, d)
    ensures Wf(Serve.UpdateAssessment(rec, d, state, rating, sender).rec, d)
  {
    var r := Serve.UpdateAssessment(rec, d, state, rating, sender);
    if rec.cursor.Some? && state in rec.assessments {
      var n := d.cases.value.numCases;
      assert CurrentIndex(rec) < n;
      forall s, x | s in r.rec.assessments && x in r.rec.assessments[s]
        ensures x < n
      {
        assert LabelFor(r.rec, s, x).Some?;
        if s != state || x != CurrentIndex(rec) {
          assert LabelFor(rec, s, x).Some?;
        }
      }
    }
  }

  /** The world and messages after a sequence of events, in order. */
  function Run(w: World, evs: seq<Event>, participant: ParticipantId, d: Deployment, bot: Chat.Bot): (t: Transition)
    requires ValidSetup(d) && Wf(w.rec, d)
    ensures Wf(t.world.rec, d)
    ensures w.rec.history <= t.world.rec.history
    ensures |t.world.rec.history| <= |w.rec.history| + |evs|
    ensures w.rec.stage != StageSelectCase ==> t.world.rec.stage != StageSelectCase
    ensures t.world.rec.cursor.Some? ==> t.world.rec.cursor.value.shuffled == w.rec.cursor.value.shuffled
    decreases |evs|
  {
    if |evs| == 0 then Transition(w, [])
    else
      var first := Run(w, evs[..|evs| - 1], participant, d, bot);
      var last := Step(first.world, evs[|evs| - 1], participant, d, bot);
      Transition(last.world, first.out + last.out)
  }

  /**
   Whatever the events, the transcript only grows at its end: every entry
   present before a run is still there, unchanged, at the same position.
   */
  lemma TranscriptIsAppendOnly(w: World, evs: seq<Event>, participant: ParticipantId, d: Deployment, bot: Chat.Bot, i: nat)
    requires ValidSetup(d) && Wf(w.rec, d)
    requires i < |w.rec.history|
    ensures i < |Run(w, evs, participant, d, bot).world.rec.history|
    ensures Run(w, evs, participant, d, bot).world.rec.history[i] == w.rec.history[i]
  {
    var h := Run(w, evs, participant, d, bot).world.rec.history;
    assert w.rec.history <= h;
  }

  /** Starting at a stage other than `select_case`, no run of events ever stores `select_case`. */
  lemma NeverStoresSelectCase(d: Deployment, draw: seq<nat>, evs: seq<Event>, participant: ParticipantId, bot: Chat.Bot)
    requires ValidSetup(d) && d.initial != StageSelectCase
    requires d.cases.Some? ==>
               && |draw| == d.cases.value.numCases
               && forall i :: 0 <= i < |draw| ==> draw[i] < d.cases.value.numCases
    ensures Run(Begin(d, draw), evs, participant, d, bot).world.rec.stage != StageSelectCase
  {
  }

  /**
   A reply scheduled by an utterance is delivered to the session id bound at
   the time of the utterance, even after the record has been rebound.
   */
  lemma ReplyIgnoresLaterRebind(w: World, utterance: string, rebound: SessionId, participant: ParticipantId, d: Deployment, bot: Chat.Bot)
    requires ValidSetup(d) && Wf(w.rec, d) && w.rec.sessionId.Some?
    ensures var t1 := Step(w, OnUtter(utterance), participant, d, bot);
            var t2 := Step(t1.world, OnUpdateSession(rebound), participant, d, bot);
            var t3 := Step(t2.world, OnBotReply(|w.pending|), participant, d, bot);
            t3.out == [Outbound(w.rec.sessionId.value, Utterance(Entry(Assistant, bot(t2.world.rec.history))))]
  {
  }
}

# goja participant session model

A Dafny model of the participant-session core of goja, a web server for a
research study. Each participant has one session record. It holds the
current stage of the participation state machine, the socket session id
that messages go to, the dialog transcript with the conversational bot,
the case-rating cursor (a drawn sequence of case indexes and a position),
and the labels given to cases under two assessment maps.

The socket event handlers become pure functions of the record. Most
handlers return a `Reaction`: the new record, the messages sent
(`Outbound(to, msg)`), and the KeyError that stopped the handler, if one
did. The exceptions: `Chat.HandleUtterance` also returns the reply it
scheduled (`Spawned`), `Chat.SendHistory` returns only messages,
`Serve.SendCase` returns the messages or a KeyError (`Result`), and
`Serve.Rebind` returns the rebound record. A handler that raises keeps whatever it changed
before raising: an utterance is appended before the session id is looked
up. A message emitted without an explicit target goes to the event's
sender, as Flask-SocketIO's `emit` does inside a handler.

Modules:
- `Records`: the record, the messages, the deployment, and the
  well-formedness predicate `Wf` that every handler keeps.
- `Participate` (web/participation/participate.py): stage advance, the
  stage announcement, and page routing.
- `Chat` (web/dialog/chat.py): appending utterances, the bot reply step,
  and replaying the transcript.
- `Serve` (web/serve.py): session start, session id rebinding, the case
  payload, case rating and case stepping.
- `Session`: all events of one participant as a state machine. The state
  is the record plus the bot replies scheduled but not yet delivered.
  Replies can arrive in any order. Run-level invariants are proved here.

Parameters that stand in for collaborators:
- the state machine's initial stage and successor function (`Deployment.initial`, `Deployment.next`);
- the case dataset's size, the configured case limit `n` (`caseLimit`), and each case's features (`CaseSetup`);
- the random draw of case indexes (`draw`);
- the bot (`Chat.Bot`, a function of the transcript);
- the sender's session id of each event.

On these points the model follows the code where a reader might expect otherwise:
- The bot's reply goes to the session id captured when the utterance was handled (web/dialog/chat.py:25-40). It does not go to the session bound when the reply arrives. `Session.ReplyIgnoresLaterRebind` states this.
- Case indexes are drawn with replacement (web/serve.py:103), so the draw need not be a permutation. `Serve.DuplicateDrawSharesLabel` shows one consequence: two positions that draw the same case share its label.
- Exhaustion compares the stepped position with the configured `n`, not with the length of the draw (web/serve.py:203). The model therefore requires `n <= |draw|`.
- The stage machine's order is external, so the model does not claim that stages only move forward. It only shows that the rewritten `select_case` stage is never stored.

## Model

| member | source | states |
|---|---|---|
| Serve.Start | web/serve.py:88-105 | The new record has the initial stage, no session id, and an empty transcript. Its assessments are exactly `assess_without_bot` and `assess_with_bot`, both empty. It has a cursor exactly when cases are loaded, and that cursor is at position 0 over the draw. |
| Serve.StartIsWf | web/serve.py:93-104 | Under a valid setup, a started record is well formed. With cases loaded, the draw has one index per case and every index is in `[0, num_cases)`. |
| Serve.Rebind | web/serve.py:124-128 | The update_session handler sets the session id to the sender's id. Every other field is unchanged. |
| Serve.RebindLastWriterWins | web/serve.py:112 | Of two rebinds, only the later sender's id survives. |
| Serve.HandleProceed | web/serve.py:108-113 | The proceed handler rebinds the session id to the sender and stores the advanced stage. Nothing else changes. It sends the stage announcement to the sender. |
| Serve.HandleRequestContent | web/serve.py:116-121 | The request_content handler rebinds only the session id. It sends the announcement of the unchanged stored stage to the sender. |
| Serve.SendCase | web/serve.py:160-181 | It sends nothing unless the stored stage is an assessment key. With no cursor, it fails with KeyError `case_count`. Otherwise it sends one `case` message to the sender. The message has count = position + 1, index = `shuffled[position]`, that case's features, and the label stored for that index under the stage, or none. |
| Serve.UpdateAssessment | web/serve.py:184-194 | With no cursor, it fails with KeyError `shuffled_case_indexes`. For a state that is not an assessment key, it fails with KeyError. In both failures the record is unchanged. Otherwise the current case's label under `state` becomes the new label. All other labels, the keys, the stage and the cursor are unchanged, and the case is re-sent. |
| Serve.RerateOverwrites | web/serve.py:190-193 | Rating the same case twice under the same map leaves the same record as rating it once with the second label. |
| Serve.RatingShownInCase | web/serve.py:193-194 | Rating under the stored stage re-sends the current case carrying the new label. |
| Serve.ProceedWithinCases | web/serve.py:197-209 | With no cursor, it fails with KeyError `case_count`. A step reaching `n` or beyond behaves exactly as a stage advance and leaves the cursor unchanged. Otherwise the position becomes `max(0, position + step)`. That position lies in the draw, and below `n` when `n >= 1`. Only the cursor changes, and the new case is sent. |
| Serve.Forward | web/serve.py:201-208 | k forward single steps that stay below `n` move the position by exactly k. Nothing else changes. |
| Serve.ExhaustsAtLimit | web/serve.py:201-204 | From position 0, `n - 1` single steps reach position `n - 1` without a stage change. The next single step is a stage advance and leaves the cursor where it was. |
| Serve.DuplicateDrawSharesLabel | web/serve.py:103-193 | If positions i and j drew the same case index, a label given at position i is shown when the cursor moves to position j. |
| Participate.SendUpdateToClient | web/participation/participate.py:50-56 | It gives a redirect with href `?participant=` + id exactly when the stage is `pre_chat_assess` or `chat`, and the stage's content page otherwise. |
| Participate.NextStage | web/participation/participate.py:33-44 | The stored stage is never `select_case`. A `select_case` successor becomes `chat` without cases and `pre_chat_assess` with cases. Any other successor is kept. |
| Participate.Proceed | web/participation/participate.py:30-47 | Only the stage changes: the cursor, transcript, assessments and session id are unchanged. The stored stage is the successor with `select_case` rewritten: `chat` without cases, `pre_chat_assess` with cases, and any other successor kept as is. So it is never `select_case`. The one message sent is the new stage's announcement, to the sender. |
| Participate.HandleRequestForContent | web/participation/participate.py:59-62 | It sends the sender a redirect exactly for `pre_chat_assess` and `chat`. In every case the message is the announcement of the stored stage. |
| Participate.ContentRepeatsProceed | web/participation/participate.py:46-62 | A content request right after a proceed sends exactly the message the proceed sent. |
| Participate.ChatPageExactlyAfterRedirect | web/participation/participate.py:19-56 | After a proceed, the entry page for that participant is the chat page exactly when the proceed answered with a redirect. |
| Participate.Participate | web/participation/participate.py:19-27 | It renders the chat page exactly when a non-empty participant id is given and that participant's stage is `pre_chat_assess` or `chat`. Otherwise it renders the general page with the given query. |
| Chat.SendHistory | web/dialog/chat.py:13-15 | It sends one `utterance` message per transcript entry, in transcript order, to the sender. |
| Chat.HandleUtterance | web/dialog/chat.py:18-28 | It appends exactly one user entry, always, and changes nothing else. With a session id bound, it echoes the entry to that id and schedules a reply for that id. Without one, it fails with KeyError `session_id` after appending, and sends nothing. |
| Chat.DeliverReply | web/dialog/chat.py:31-40 | It appends exactly one assistant entry holding the bot's answer to the current transcript. Earlier entries are unchanged. It sends that entry to the task's captured session id. |
| Chat.ReplayAfterUtterance | web/dialog/chat.py:13-24 | Replaying after an utterance gives the earlier replay followed by the new user entry. |
| Chat.ReplyGoesToCapturedSession | web/dialog/chat.py:25-40 | A rebind after the utterance does not change where the reply goes. |
| Session.Begin | web/serve.py:88-105 | A session starts well formed, with an empty transcript and no pending reply. |
| Session.Step | web/serve.py:108-209 | Every event keeps the record well formed and keeps the draw fixed. Every event appends at most one transcript entry and never edits earlier entries. Only an utterance or a delivered reply appends: a user entry or an assistant entry. No event stores `select_case`. An utterance queues a reply for the session id bound at that moment. |
| Session.UpdateAssessmentKeepsWf | web/serve.py:190-193 | A rating keeps the record well formed. The rated index is a case of the dataset, and the map keys stay the two assessment names. |
| Session.Run | web/serve.py:88-209 | Any sequence of events keeps the record well formed and keeps the draw fixed. The transcript before a run is a prefix of the transcript after it. A run never stores `select_case` if the stage before it was not `select_case`. |
| Session.TranscriptIsAppendOnly | web/dialog/chat.py:19-39 | After any run of events, every earlier transcript entry is still at its position, unchanged. |
| Session.NeverStoresSelectCase | web/participation/participate.py:36-46 | From a start stage other than `select_case`, no run of events stores `select_case`. |
| Session.ReplyIgnoresLaterRebind | web/dialog/chat.py:25-40 | Utter, rebind, then deliver: the reply goes to the session id bound at utterance time. It carries the bot's answer to the transcript as it stands when the reply is made. |

## Left out

- Flask routes, SocketIO wiring and `emit` mechanics: outbound messages are returned as values (web/serve.py:74-86).
- Environment and settings loading, YAML, pandas CSV reading, and logging setup (web/serve.py:18-71): they become the `Deployment` parameter.
- Jinja2 templates: a content page is `Content(stage)`, and the pages of the entry route are `ChatPage`/`GeneralPage` tags.
- The logging of the current case in `proceed` (web/participation/participate.py:40-43) is left out. The read it performs is kept as the requires of `Participate.Proceed`: with cases loaded and a `select_case` successor, the cursor must point into the draw.
- Participant id generation (uuid) and the global participants dict: the model works on one record. An unknown participant is a KeyError in the source; the model excludes it by taking the record as given.
- The participation state machine's stage order (participation/states.py is not part of this model): the initial stage and the successor function are parameters.
- The bot (dialog/bot.py is not part of this model): it is a function of the transcript. Its failures and latency are not modelled.
- Background tasks run as a later, separate event. Locking, races, and a bot call that sees a transcript growing during the call are not modelled.
- The get_state handler (web/serve.py:146-150) is handled inline in `Session.Step`. It sends the stored stage to the sender.
- The entry route calls `participate(request)` with one argument where two are needed (web/serve.py:85), and the main block uses an undefined `args` (web/serve.py:213). The model uses the two-argument definition and leaves process start-up out.
- A case index out of range (a position at or past the draw's length, when `n` exceeds the number of cases) is a precondition, not a modelled crash.
- Serve.ProceedWithinCases: requires `n <= |draw|`. The source does not check this, and stepping onto a position past the draw would raise IndexError.
- Role is a two-valued datatype, so "every entry has role user or assistant" holds by typing.

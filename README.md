# Turn-taking chatbot core, modelled in Dafny

This project models the core of a terminal chatbot written in Rust. Two
actors run side by side and talk over event queues:

- The **frontend** reads key presses, sends the user's message to the
  backend, and mirrors the conversation and status the backend sends back.
  From the mirrored conversation it works out whose turn it is, and it
  redraws the screen.
- The **backend** owns the conversation. It drains the frontend's events.
  It drives one completion request at a time through a small state machine:
  dispatch, wait, then wait too long.
- An **orchestrator** ticks both actors. It stops on the first error, and it
  shuts both down, frontend first, when a quit request reaches its own queue.

The backend exists in two snapshots:

- **The older one** keeps whose turn it is inside its state machine:
  `BotsTurn`, `LoadingBotResponse`, `TakingAWhileToLoadBotResponse` and
  `UsersTurn`.
- **The newer one** re-arms a `SendRequest` state after each reply and keeps
  the turn in a separate field. It comes in a text mode and a call mode.

Besides the actors, the project models:

- message equality and ordering;
- the sliding-window prompt builder;
- the SQLite conversation store: its two tables as sequences of rows, the open connection and the database file;
- an older single-threaded `State`, with its own prompt serialiser;
- the completion request builder and the extraction of the reply text.

Each actor whose fields the source updates in place is a class:

- `Backend.BackendState`
- `BotMachine.State`
- `Frontend.FrontendState`
- `LegacyState.State`

Each class's methods are proved equal to a pure step function on a view of
the fields (`ensures View() == AfterTick(env, now, old(View()), old(rx))`).
The properties of the source are proved as lemmas about those functions.

Queues are sequences: what an actor sends is appended to a sequence field,
and what it receives is drained from the front of one. A spawned request
task is a single reply slot, `Handle(requestId, reply)`. An environment
method (`Respond`) fills that slot. Time is an integer number of
milliseconds, passed in as `now`.

In these places the code's behaviour is easy to misread; the model
follows the code:

- **Initial turn.** An empty conversation starts on the user's turn, not the
  bot's (src/app/backend.rs:54-61 and src/app/backend/state.rs:41-48).
- **Escalation.** Moving to the slow state sends no status; the status
  comes on the next tick (src/app/backend.rs:167-175).
- **Failed load.** A failed load returns a fresh, empty conversation and
  sends no warning status (src/app/backend/db.rs:29-35).

## Model

| member | source | states |
|---|---|---|
| Messages.PartialCmp | src/message.rs:20-25 | Always answers; Less, Equal or Greater exactly as the timestamps compare |
| Messages.SameMessage | src/message.rs:12-18 | Defines `PartialEq::eq`: two messages are the same when their ids agree. The SameMessage lemmas and EqualMessagesMayCompareUnequal below are about it |
| Messages.SameMessageIgnoresPayload | src/message.rs:12-18 | Equality is id equality; sender, content and timestamp play no part |
| Messages.SameMessageIsEquivalence | src/message.rs:12-18 | Equality is reflexive, symmetric and transitive |
| Messages.PartialCmpIsAntisymmetric | src/message.rs:20-25 | Swapping the arguments turns Less into Greater and keeps Equal |
| Messages.EqualMessagesMayCompareUnequal | src/message.rs:12-25 | Equality and ordering disagree: two equal messages can compare Less or Greater |
| Events.CheckForBotResponse | src/app/backend.rs:292-316 | A waiting reply is returned and the slot emptied; an empty slot returns None and is left as it was |
| Events.Elapsed | src/app/backend.rs:167 | Elapsed time since a start instant, saturating at zero for a start in the future |
| Events.WholeSeconds | src/app/backend.rs:214 | The whole seconds of a duration: the largest s with s*1000 <= ms |
| Events.Render | src/app/backend.rs:181-235 | Defines the status strings: "loading the chatbot..." (frontend/state.rs:50), the ready greeting (backend/state.rs:54-56), "Waiting for bot's response", the taking-a-while line with whole seconds, and the two responded lines with milliseconds |
| Prompt.Skip | src/app/backend.rs:270-273 | Defines the skip loop (also backend/state.rs:77-81): the first message is dropped while more than `prompt_context_length` remain. SkipKeepsLastMessages states what is left. `Prompt.Prefix` (the starting prompt and a blank line, state.rs:88-91) and `Prompt.Entry` (one "sender:\ncontent\n\n", backend.rs:286) are its formatting pieces |
| Prompt.WindowedPrompt | src/app/backend.rs:264-290 | Defines the prompt: the starting prompt's prefix, then the entries of the last `prompt_context_length` messages. Its properties are the Prompt lemmas below |
| Prompt.SkipKeepsLastMessages | src/app/backend.rs:270-280 | Skipping leaves exactly the last min(n, k) messages, in their original order |
| Prompt.EntriesAppend | src/app/backend.rs:282-289 | The entries of a concatenation are the concatenation of the entries |
| Prompt.EntriesExtend | src/app/backend.rs:282-289 | Rendering one more message appends exactly that message's entry |
| Prompt.EntriesAt | src/app/backend.rs:282-289 | Every message of the window is rendered, in order, as "sender:\ncontent\n\n" |
| Prompt.WindowedPromptShape | src/app/backend.rs:264-290 | An empty starting prompt adds nothing; a non-empty one comes first, followed by exactly one blank line |
| Prompt.ZeroWindowKeepsOnlyPrefix | src/app/backend/state.rs:77-81 | With a window of 0 only the starting prompt's prefix remains |
| Prompt.OlderMessagesAreForgotten | src/app/backend/state.rs:77-95 | Messages older than the window have no effect on the prompt |
| Prompt.StartPrompt | src/app/backend/state.rs:88-91 | Before any message the prompt is the starting prompt and a blank line, or empty when the starting prompt is empty |
| Prompt.CreatePromptFromMessages | src/app/backend/state.rs:72-98 | The while/for loops build exactly the windowed prompt |
| Persistence.Latest | src/app/backend/db.rs:16-22 | The conversation picked was created no earlier than any other. Among equals it is the last row |
| Persistence.MessagesOf | src/app/backend/db.rs:38-66 | Loads at most one message per row. What it loads is stated by the three lemmas that follow |
| Persistence.MessagesOfReadsItsRows | src/app/backend/db.rs:38-66 | Every loaded message is a row of that conversation, read back with the row's id as its id, in increasing id order |
| Persistence.MessagesOfNone | src/app/backend/db.rs:38-66 | A conversation with no message rows loads as an empty one |
| Persistence.LoadPrevious | src/app/backend/db.rs:8-36 | With a stored conversation the connection is the file itself and the messages are the newest conversation's. With none, a fresh in-memory database and an empty conversation. The file is not changed |
| Persistence.BeginNew | src/app/backend/state.rs:35-39 | Beginning a new conversation yields an empty one, over the store opened as for loading |
| Persistence.Commit | src/app/backend/db.rs:99-139 | An empty conversation changes nothing. Otherwise it adds one conversation row, stamped with the first message's time and the prompt, then one row per message in order, each pointing at it. Through a file connection the file changes at once. Every message keeps pointing at a stored conversation |
| Persistence.SaveToFile | src/app/backend/db.rs:141-145 | The file becomes what the connection sees |
| Persistence.MessagesOfAppend | src/app/backend/db.rs:38-66 | Rows added under one conversation are read back after its earlier rows, with their row ids |
| Persistence.CommittedIsLatest | src/app/backend/db.rs:16-22 | A conversation committed no earlier than every stored one is the one loading picks |
| Persistence.NewestRowsAreLoaded | src/app/backend/db.rs:8-66 | In a consistent database, the rows of such a newest conversation are exactly what loading reads back |
| Persistence.SavedConversationIsResumed | src/app/backend.rs:251-261 | A conversation committed and saved at quit, starting no earlier than every stored one, is what the next resumed session loads: the same senders, contents and times in the same order. Its ids are renumbered after the messages already stored |
| Persistence.FreshDatabaseKeepsIds | src/app/backend/db.rs:211-229 | Into a fresh database, a conversation numbered 1, 2, ... comes back equal, ids included |
| Persistence.ResumedIdsAreRenumbered | src/app/backend.rs:98 | Because the backend numbers messages from 0, the first message of a saved conversation never comes back as the same message |
| Backend.InitialInner | src/app/backend.rs:54-61 | The initial state is UsersTurn iff the conversation is empty or the bot spoke last, and BotsTurn otherwise |
| Backend.Greeting | src/app/backend.rs:63-71 | The constructor sends the loaded conversation, then a single ready-to-chat status |
| Backend.Receive | src/app/backend.rs:88-121 | One event from the queue. It never dispatches, adds at most one message, only appends to what was sent, and ignores everything but a UserMessage |
| Backend.ReceiveAll | src/app/backend.rs:87-131 | Draining the queue in order. It never dispatches; what it appends is stated by ReceiveAllAppendsUserMessages |
| Backend.RequestFor | src/app/backend.rs:135-150 | The request a bot's turn dispatches: a text completion whose id is the conversation's length, over the windowed prompt |
| Backend.Advance | src/app/backend.rs:133-248 | One step of the state machine. It only appends to the conversation, to what was sent and to the requests, at most one message and one request at a time |
| Backend.AfterTick | src/app/backend.rs:85-249 | A whole tick, drain then one step. It dispatches at most one request and never drops one |
| Backend.ReceiveAllAppendsUserMessages | src/app/backend.rs:87-131 | Draining appends one user message per UserMessage, numbered by position. Each append is announced right away, nothing is dispatched, and any user message re-arms BotsTurn |
| Backend.OnlyBotsTurnDispatches | src/app/backend.rs:135-164 | Only BotsTurn dispatches: one request, id = conversation length, with a fresh empty slot |
| Backend.EscalationIsStrict | src/app/backend.rs:165-177 | Escalation happens iff elapsed > expected. It keeps the start and the slot and sends nothing; otherwise "waiting" is sent first |
| Backend.NoReturnToLoading | src/app/backend.rs:158-243 | Only BotsTurn enters LoadingBotResponse; the slow state leaves only for UsersTurn |
| Backend.ReplyIsAppendedThenAnnounced | src/app/backend.rs:165-243 | Exactly three events follow what was already sent: the waiting status (plain, or slow with whole seconds), the new conversation, then BotResponded or BotSlowlyResponded with the elapsed time. The reply is appended and the turn passes to the user. With an empty slot only the waiting status is sent and nothing else changes |
| Backend.UsersTurnIsInert | src/app/backend.rs:244-247 | On the user's turn a tick changes nothing |
| Backend.ReceiveAllKeepsHandleInvariant | src/app/backend.rs:93-119 | Draining keeps the slot matched to the conversation length |
| Backend.TickNumbersMessagesByPosition | src/app/backend.rs:85-249 | A tick only appends to the conversation, and each appended message has its position as its id |
| Backend.UserMessageMidRequestRedispatches | src/app/backend.rs:93-164 | A user message during loading drops the pending slot, and the same tick dispatches a second request |
| Backend.DeliverKeepsHandleInvariant | src/app/backend.rs:150-156 | A task's delivery fills only its own slot, with the bot's name and the request id |
| Backend.BackendState.constructor | src/app/backend.rs:45-82 | Loads the previous conversation, derives the initial state and greets the frontend |
| Backend.BackendState.Enqueue | src/app/backend.rs:88 | The frontend's send appends to the backend's queue and changes nothing else |
| Backend.BackendState.Respond | src/app/backend.rs:152-156 | The spawned task fills the slot; the slot invariant is kept |
| Backend.BackendState.Tick | src/app/backend.rs:85-249 | Drains the whole queue, then advances once: the new state is AfterTick of the old one |
| Backend.BackendState.ReceiveEvents | src/app/backend.rs:86-131 | The drain loop applies every queued event in order, as ReceiveAll does, and keeps the slot invariant |
| Backend.BackendState.DriveStateMachine | src/app/backend.rs:133-248 | One step of the state machine, as Advance does, keeping the slot invariant |
| Backend.BackendState.Quit | src/app/backend.rs:251-261 | Commits, then saves. A failed commit skips the save, and the failing step's error is returned |
| BackendInit.New | src/app/backend/state.rs:28-69 | Resume loads the previous conversation, otherwise a new one begins. The initial state and the greeting follow from the conversation |
| BackendInit.ResumeOrFresh | src/app/backend/state.rs:35-48 | A fresh session is empty and the user's turn. A resumed one holds the newest stored conversation's messages, and is the user's turn iff it is empty or the bot spoke last |
| BotMachine.TaskFor | src/app/backend/text.rs:33-46 | Defines the task spawned per mode: a text completion in text mode, and in call mode the speech upload, transcription and completion of call.rs:38-60. ModesDifferOnlyInTask shows the modes differ in nothing else |
| BotMachine.RequestFor | src/app/backend/text.rs:22-40 | The request for the current conversation: its id is the conversation's length, and it is a text completion exactly in text mode |
| BotMachine.Step | src/app/backend/text.rs:22-137 | One call of `run_bot_state_machine`. It only appends to the conversation, to what was sent and to the requests, at most one message and one request at a time |
| BotMachine.Run | src/app/backend/text.rs:22-137 | Successive calls at the given clock readings. They only append, at most one message and one request per call |
| BotMachine.SendRequestDispatchesOnce | src/app/backend/text.rs:24-52 | SendRequest dispatches exactly one request, numbered by the conversation length, and waits on a fresh slot |
| BotMachine.OnlySendRequestDispatches | src/app/backend/text.rs:53-137 | No other state dispatches |
| BotMachine.EscalationIsStrict | src/app/backend/text.rs:53-67 | Escalation happens iff elapsed > expected, keeping the start and the slot; otherwise "waiting" is sent before polling |
| BotMachine.ReplyHandsTurnToUser | src/app/backend/text.rs:79-133 | Exactly three events follow what was already sent: the waiting status, the new conversation, then BotResponded or BotSlowlyResponded with the elapsed time. The reply is appended, the turn goes to the user and SendRequest is re-armed. With an empty slot only the waiting status is sent |
| BotMachine.SlowStateOnlyLeavesToSendRequest | src/app/backend/text.rs:100-133 | The slow state reports whole seconds each tick and never returns to plain loading |
| BotMachine.ModesDifferOnlyInTask | src/app/backend/call.rs:22-151 | Call mode and text mode step identically except for the kind of task spawned |
| BotMachine.StepKeepsHandleInvariant | src/app/backend/text.rs:22-137 | A step keeps the slot invariant; a reply lands at the position its id names |
| BotMachine.AtMostOneDispatchPerTurn | src/app/backend/text.rs:22-137 | Any number of ticks with no delivery dispatches at most one request, and none once one is outstanding |
| BotMachine.SlowIffOverdue | src/app/backend/text.rs:53-133 | With a monotone clock and no reply, the machine is slow iff the last reading is overdue |
| BotMachine.State.Respond | src/app/backend/text.rs:42-46 | The spawned task fills the slot; the slot invariant is kept |
| BotMachine.State.RunBotStateMachine | src/app/backend/text.rs:22-137 | One call performs exactly one Step of the machine |
| FrontendView.IsEmpty | src/app/frontend/text.rs:30 | Defines `TextArea::is_empty`: the buffer is a single empty line. EnterSendsFirstLineOnUsersTurn shows Enter sends nothing from such a buffer |
| FrontendView.HandleKey | src/app/frontend/text.rs:18-61 | One key press. The app hears at most a Quit, and the backend at most one message, sent only on the user's turn and leaving an empty buffer |
| FrontendView.HandleKeys | src/app/frontend/text.rs:16-62 | A run of key presses, handled in order. The app hears at most one event per key press |
| FrontendView.EscSendsQuit | src/app/frontend/text.rs:21-26 | Esc sends Quit to the app and leaves the buffer and the backend alone |
| FrontendView.EnterSendsFirstLineOnUsersTurn | src/app/frontend/text.rs:27-47 | Enter does nothing on an empty buffer or on the bot's turn; otherwise it sends the first line only and empties the buffer |
| FrontendView.OtherKeysGoToTheEditor | src/app/frontend/text.rs:49-60 | Ctrl+M without Alt is ignored; every other key goes to the editor and sends nothing |
| FrontendView.HandleKeysStep | src/app/frontend/text.rs:17-62 | Handling one more key press extends the buffer, app and backend effects of the run by that key's effect |
| FrontendView.NothingReachesBackendOnBotsTurn | src/app/frontend/text.rs:17-62 | However many keys are pressed on the bot's turn, nothing reaches the backend and only Quit reaches the app |
| FrontendView.SentMessagesComeFromNonEmptyBuffers | src/app/frontend/text.rs:17-62 | Every event that reaches the backend is a UserMessage holding the first line of a non-empty buffer. It was sent by an Enter on the user's turn, and there is at most one per key press |
| FrontendView.ConversationLines | src/app/frontend/text.rs:94-105 | The conversation pane holds exactly three lines per message |
| FrontendView.ThreeLinesPerMessage | src/app/frontend/text.rs:86-105 | The pane has exactly three lines per message: header, content, blank |
| FrontendView.LineCount | src/app/frontend/text.rs:107 | The pane's line count truncated to `u16`. It equals the true count whenever that count fits |
| FrontendView.ScrollOffset | src/app/frontend/text.rs:107-114 | The offset is 0 when the line count is at most the pane's bottom row, and otherwise the count less the bottom plus one. The subtraction never goes below zero. In a build with overflow checks, the addition fails exactly at bottom 0 with 65535 lines |
| FrontendView.Draw | src/app/frontend/text.rs:66-124 | An empty conversation shows the new-conversation hint. With overflow checks, a redraw fails exactly when the scroll offset overflows |
| Frontend.TurnAfter | src/app/frontend.rs:30-41 | Defines the frontend's turn rule: the bot's turn exactly when the user spoke last. Compared with the backend's rule by the two TurnRules lemmas |
| Frontend.Apply | src/app/frontend.rs:26-48 | One event from the backend. It keeps the frontend's turn in step with the mirrored conversation |
| Frontend.ApplyAll | src/app/frontend.rs:24-60 | Draining the queue in order. Its properties are the QuietTail, LatestWins and TurnStaysInSync lemmas |
| Frontend.QuietTailKeepsConversation | src/app/frontend.rs:30-44 | Queued events that carry no conversation leave the mirrored conversation and turn as they were |
| Frontend.QuietTailKeepsStatus | src/app/frontend.rs:45-47 | Queued events that carry no status leave the mirrored status as it was |
| Frontend.LatestConversationWins | src/app/frontend.rs:30-44 | Draining keeps the latest conversation, and the turn follows it; with none queued both are unchanged |
| Frontend.LatestStatusWins | src/app/frontend.rs:45-47 | Draining keeps the latest status; with none queued it is unchanged |
| Frontend.TurnStaysInSync | src/app/frontend.rs:32-41 | The mirrored turn always agrees with the mirrored conversation |
| Frontend.TurnRulesAgreeOnTwoSpeakers | src/app/frontend.rs:32-41 | With two distinct names and a last speaker among them, the frontend's turn is the backend's |
| Frontend.TurnRulesDisagreeOnAThirdSpeaker | src/app/frontend.rs:32-41 | A last speaker with neither name is the user's turn for the frontend and the bot's turn for the backend |
| Frontend.FrontendState.constructor | src/app/frontend/state.rs:35-63 | Empty conversation, "loading the chatbot..." status, empty buffer, user's turn |
| Frontend.FrontendState.Enqueue | src/app/frontend.rs:25 | The backend's send appends to the frontend's queue and changes nothing else |
| Frontend.FrontendState.HandleKeyPress | src/app/frontend/text.rs:20-60 | One key press updates the buffer and the two queues exactly as HandleKey says, and nothing else |
| Frontend.FrontendState.HandleUserInput | src/app/frontend/text.rs:16-65 | The while loop handles every key press in order, as HandleKeys does |
| Frontend.FrontendState.ReceiveEvents | src/app/frontend.rs:24-59 | The drain loop applies every queued event in order and keeps the turn in sync |
| Frontend.FrontendState.Tick | src/app/frontend.rs:19-66 | Input, then drain, then redraw of the drained state. A failed redraw, or a scroll offset that overflows under overflow checks, is reported after both and keeps the old frame |
| App.Run | src/app.rs:29-66 | Defines how the main loop ends and the calls it makes. It is characterised by the App lemmas below and matched by RunUntilExit |
| App.QuitBoth | src/app.rs:45-53 | The frontend quits first; the backend quits only if the frontend quit cleanly |
| App.FrontendErrorWins | src/app.rs:35-38 | Both ticks run; when both fail, the frontend's error is returned |
| App.ExhaustedIffUneventful | src/app.rs:29-66 | The loop runs on iff every tick succeeds and no Quit or disconnection arrives |
| App.QuitsComeLastInOrder | src/app.rs:45-53 | Quit calls come last, frontend before backend, and the run ends with the last quit's outcome |
| App.NoQuitEventNoQuitCalls | src/app.rs:42-65 | Without a Quit event neither actor is asked to quit |
| App.OnlyQuitMatters | src/app.rs:42-65 | Events other than Quit on the app's queue are discarded |
| App.Iterate | src/app.rs:29-66 | One pass of the loop body. When it stops, its exit and calls are those of Run on the rest of the script; when it continues, it made the two tick calls and Run on the rest equals Run on the next suffix after them |
| App.QuitArrived | src/app.rs:42-64 | The app-event loop stops on a quit exactly when one is among the queued events |
| App.RunFrom | src/app.rs:29-69 | One main-loop iteration: a failed tick ends the run with its error (frontend first), a quit ends it after both quits, a disconnect ends it cleanly, otherwise the run continues with the next iteration |
| App.RunUntilExit | src/app.rs:17-69 | The two labelled loops compute exactly Run |
| LegacyState.StatusMessage | src/state.rs:36-46 | Defines the status line of each state; StatusMessageNamesTheState shows it tells the kinds apart |
| LegacyState.MaySend | src/state.rs:52-64 | Defines the states a message may be sent from, someone's turn to type. SendMessage requires it |
| LegacyState.StatusMessageNamesTheState | src/state.rs:36-44 | The five status lines are distinct, one per kind of state |
| LegacyState.AfterSend | src/state.rs:55-61 | BotIsTyping becomes BotSentMessage(m) and UserIsTyping becomes UserSentMessage(m) |
| LegacyState.TestingMessages | src/state.rs:79-134 | Six messages with ids 1..6; senders alternate, starting with the user |
| LegacyState.TestingMessagesAreOrdered | src/state.rs:87-120 | Assuming clock readings at least 10 ms apart, as the sleeps between them intend, the canned messages are in strictly increasing order |
| LegacyState.State.Load | src/state.rs:28-30 | Loading always yields the canned conversation, the user typing and no quit |
| LegacyState.State.UserIsTyping | src/state.rs:32-34 | Defines `user_is_typing`: the state is UserIsTyping |
| LegacyState.State.Status | src/state.rs:36-44 | Defines `status_message` as StatusMessage of the current state |
| LegacyState.State.NextMessageId | src/state.rs:48-50 | Defines `next_message_id`: the number of messages so far. SendMessage increases it by one and NextIdAfterLoadRepeatsLastId shows where that goes wrong |
| LegacyState.State.SendMessage | src/state.rs:52-64 | Appends exactly m, moves the typist to "sent m", and the next id grows by one |
| LegacyState.NextIdAfterLoadRepeatsLastId | src/state.rs:48-50 | After load, the next id equals the last canned id, so a new message is "equal" to it |
| LegacyPrompt.PromptOf | src/openai_api.rs:84-110 | Defines the legacy prompt: the header (`LegacyPrompt.Header`, the starting prompt and "\n" when set), then every message's entry (`LegacyPrompt.Entry`, "sender: ts\ncontent\n"). Characterised by the lemmas below |
| LegacyPrompt.EntriesAppend | src/openai_api.rs:95-105 | The entries of a concatenation are the concatenation of the entries |
| LegacyPrompt.EntriesAt | src/openai_api.rs:95-105 | Message i contributes its own entry between the entries of the messages before and after it |
| LegacyPrompt.EveryMessageIsIncluded | src/openai_api.rs:95-105 | Every message is rendered, in order, as "sender: ts\ncontent\n"; there is no window |
| LegacyPrompt.HeaderShape | src/openai_api.rs:90-93 | A set starting prompt, even an empty one, comes first with one "\n"; an unset one adds nothing |
| LegacyPrompt.StartPrompt | src/openai_api.rs:90-93 | Before any message the prompt is the starting prompt and a newline when the variable is set, else empty |
| LegacyPrompt.CreatePromptFromMessages | src/openai_api.rs:84-108 | The for loop builds exactly the header followed by every entry |
| TextCompletion.WithPrompt | src/openai_api/text_completion.rs:35-38 | Sets the prompt and changes no other field |
| TextCompletion.WithModel | src/openai_api/text_completion.rs:40-43 | Sets the model and changes no other field |
| TextCompletion.WithTemperature | src/openai_api/text_completion.rs:45-48 | Sets the temperature and changes no other field |
| TextCompletion.WithMaxTokens | src/openai_api/text_completion.rs:50-53 | Sets the token limit and changes no other field |
| TextCompletion.LastSetterWins | src/openai_api/text_completion.rs:35-53 | The last value set wins, and setters of different fields commute |
| TextCompletion.Build | src/openai_api/text_completion.rs:55-68 | An error iff no prompt was set; otherwise the request carries that prompt |
| TextCompletion.BuildDefaults | src/openai_api/text_completion.rs:56-68 | Every field set on the builder reaches the request. The token limit defaults to 40, the temperature to 0, and the model to the environment's value, else "text-davinci-003" |
| TextCompletion.PromptOnlyRequest | src/openai_api.rs:30 | A prompt-only builder yields the defaults for everything else |
| TextCompletion.IsWhitespace | src/openai_api/text_completion.rs:88 | Defines `char::is_whitespace` behind `trim`: the Unicode White_Space code points. The Trim lemmas are stated in its terms |
| TextCompletion.TrimStart | src/openai_api/text_completion.rs:88 | Leading whitespace is removed and nothing else |
| TextCompletion.TrimEnd | src/openai_api/text_completion.rs:88 | Trailing whitespace is removed and nothing else |
| TextCompletion.Trim | src/openai_api/text_completion.rs:88 | Defines `str::trim` as TrimEnd after TrimStart. Characterised by the lemmas that follow |
| TextCompletion.TrimIsASlice | src/openai_api/text_completion.rs:88 | The trimmed reply is one contiguous slice of the raw choice text |
| TextCompletion.TrimDropsOnlyWhitespace | src/openai_api/text_completion.rs:88 | Every character trimming drops, before or after that slice, is whitespace |
| TextCompletion.TrimmedEndsAreNotWhitespace | src/openai_api/text_completion.rs:88 | A non-empty trimmed reply starts and ends with a non-whitespace character |
| TextCompletion.TrimIsIdempotent | src/openai_api/text_completion.rs:88 | Trimming twice equals trimming once |
| TextCompletion.MessageOf | src/openai_api/text_completion.rs:83-90 | An error iff there are no choices |
| TextCompletion.OnlyFirstChoiceCounts | src/openai_api/text_completion.rs:83-90 | The reply is the trimmed text of the first choice; later choices are ignored |

## Left out

- **Channel disconnection.** The `Disconnected` branch of every queue and
  reply slot ends in `unreachable!`. It is not modelled: queues are
  sequences, and a reply slot that is never filled simply stays empty.
- **Send failures.** A send on a queue whose receiver is gone makes the
  source return an error. Sends always succeed here.
- **Request-task failures.** A spawned task whose request fails panics and
  drops its sender. The next `try_recv` then reports `Disconnected`, and the
  backend tick panics in `unreachable!` (src/app/backend.rs:311-312). The
  model does not crash there: the slot stays empty forever, the `None` case
  of `Handle.reply`, and that stands in for the crash.
- **The completion call.** The call itself (`fetch_response_to_prompt`) is
  not part of this model. A delivered reply is assumed to carry the id the
  task was given and the bot's name (`Deliver`).
- **Call-mode task body.** The speech upload and transcription in
  src/app/backend/call.rs:38-60 are abstract. They appear only as the task
  kind `SpeechThenCompletion`.
- **Backend events in the newer snapshot.** `handle_backend_events` and the
  tick that calls `run_bot_state_machine` are not part of this model. That
  includes any gating on `turn_to_speak`, and the shared event handling
  those files call.
- **Concurrency.** The two ticks run concurrently in the source. Here they
  are abstract outcomes in `App.Iteration`. The orchestrator's run is
  bounded by the length of its script, and `ScriptExhausted` stands for
  "still running".
- **Terminal I/O.** Polling the terminal, raw-mode setup, `frontend::quit`
  and tui drawing beyond the pane layout and scroll arithmetic are not
  modelled. `Draw` records what a frame shows, not how it is painted.
- **The text editor widget.** It is a library and is a parameter
  (`FrontendView.Editor`). The model cannot say what it does with a key,
  only that Ctrl+M without Alt never reaches it.
- **Status text formatting.** Status strings are a tagged `Status` value.
  Durations rendered with Rust's `{:?}` formatting appear as "<n>ms".
- **Timestamps.** They are integer milliseconds. One clock reading per
  backend tick stamps every user message drained in that tick, where
  src/app/backend.rs:97 reads the clock once per message; no property
  here depends on the stamps being equal. RFC 2822 rendering is an
  opaque function parameter.
- **The SQLite store.** Tables are sequences of rows, and a row's id is
  its position plus one. That is how SQLite numbers the rows of a table
  nobody deletes from, but SQLite does not promise it. `created_at` is
  TEXT in the source and an integer time here. Rows of one conversation are
  read back in row order, which the source's query does not ask for.
- Persistence.LoadPrevious: `ORDER BY created_at DESC LIMIT 1` leaves the
  choice among conversations created at the same time to SQLite. The model
  takes the last such row. A re-committed resumed conversation has the
  same `created_at` as its earlier record, so the round trip relies on
  that choice.
- Persistence.Commit: a failed transaction is modelled as leaving the store
  as it was. After a successful load the connection is the file itself,
  so the commit at quit reaches the file before the save does. A quit
  whose save fails has therefore already changed the file.
- Persistence.SavedConversationIsResumed: it promises equal senders,
  contents and times, not equal messages. The ids come back as row ids,
  renumbered after every stored message (`ResumedIdsAreRenumbered`). It
  also needs the new conversation to start no earlier than every stored one.
- Persistence.BeginNew: `begin_new_conversation` is not part of this model.
  It is taken to open the store as loading does and to begin empty.
- FrontendView.ScrollOffset: follows a build with overflow checks. A
  release build wraps the offset to 0 instead and draws without failing.
  In the source the overflow panics and unwinds the whole run through
  `tokio::join!` (src/app.rs:35-38); here it is an error returned from
  `Frontend.FrontendState.Tick`.
- BotMachine.RequestFor: src/app/backend/text.rs:7 and call.rs:8 import
  `message::create_prompt_from_messages`, which src/message.rs does not
  define. The model takes it to be the windowed prompt builder of
  src/app/backend/state.rs:72-98, which has the same three arguments.
- LegacyState.State.SendMessage: requires MaySend, that someone is typing.
  From any other state src/state.rs:62 panics with `unreachable!`; the
  model makes that a caller obligation instead of modelling the panic.
- **Temperature.** It is an `f32` in the source and a `real` here.
- **Configuration.** It is a given `Env` record; environment-variable
  lookup is not modelled. The legacy starting prompt and the
  model-name variable are `Option` parameters.
- **Integer widths.** Message ids and the token limit are unbounded
  naturals; `as u64` is never reached in practice. The line count of the
  conversation pane is truncated to `u16`, as in the source.
- **The orchestrator's own construction.** Building the channels and the
  two actors (src/app.rs:18-25) is not modelled, nor is the error that
  construction can return.
- **The legacy network client.** The `Client` in src/openai_api.rs:16-82
  is left out.

# zClone chat core in Dafny

This project models the core of zClone, a desktop chat client written in Rust, and proves properties of that model. It covers four parts:

- **Dispatch pipeline** (`messaging.dfy`, module `Messaging`). A chat request goes to a backend. The backend streams `ResponseChunk` events onto one shared bounded event channel with capacity 100. A caller-held cancellation handle can stop it early. A backend's `Err` becomes one synthesized `Error` event. The deterministic test backend (`MockBackend`) is a loop method. It polls its cancellation channel, which holds at most one signal, and then sends `"chunk i "` for i = 0..4, marking only the last chunk final. Any other backend is described by the events it emits and by whether it then fails (`Backend.Scripted`).
- **Messages and sessions** (`models.dfy`, module `Models`). Streaming append and completion of messages. Adding messages to a session, including the rule that sets the preview once: the first 100 characters of the first user message, with `...` added when that message is longer. Set-title, archive and unarchive. The default settings and application state.
- **Session registry** (`session.dfy`, module `Session`). `SessionManager` is a map from id to session plus an active id. It supports create, get, set-active, get-active, delete, and a listing sorted by recency in place. Two invariants are preserved by every mutator: the active id, if set, is a key, and every session is stored under its own id.
- **Main window state** (`components.dfy`, module `Components`). `AppWindow` holds the session list, the active id, the sidebar flag and the composer text. Creating a session puts it first. Deleting removes every session with that id and reselects the first remaining one when the active session was deleted. `set_active_session` only switches to a listed id. `send_message` trims the text, ignores blank text, pushes the user text and a placeholder reply into the active session, sets a 60-character preview, and clears the composer.

`common.dfy` (module `Common`) holds `Option`, Rust's `chars().take(n)` and `str::trim` (Unicode White_Space, as `char::is_whitespace` defines it).

Values that the source updates through `&mut self` (`Message`, `ChatSession`) are owned Rust values, stored by value in vectors and maps and never aliased. They are therefore datatypes, with one function per update. The containers that change them in place (`EventChannel`, `CancelChannel`, `MessagingPipeline`, `SessionManager`, `AppWindow`) are classes, and their methods state the whole new state. Ids (uuid v4), timestamps (the wall clock) and the moment a caller's cancellation lands are all parameters. A dispatch runs to completion in order, against the shared channel. A send that would have to wait for room ends the backend call in the outcome `Blocked`. `SendRequest` reports whether any send, the pipeline's own `Error` send included, is left waiting.

`MockBackend` polls its cancellation channel only before each chunk (crates/zclone-core/src/messaging.rs:130-149). A cancel that lands after the fifth poll is never seen: the dispatch ends with its final chunk, and the signal is dropped with the receiver. In the model, that is a cancellation arriving at step 5 or later.

## Model

| member | source | states |
|---|---|---|
| Common.Take | crates/zclone-core/src/models.rs:92 | the result is the prefix of the input of length min(n, length) |
| Common.Trim | crates/zclone-ui/src/components.rs:116-117 | the result is a contiguous slice of the input with only whitespace cut from each end; it is empty iff every character is whitespace, and otherwise neither starts nor ends with whitespace |
| Models.NewMessage | crates/zclone-core/src/models.rs:21-29 | `Message::new` keeps the given id, role, content and timestamp and is not streaming |
| Models.NewStreaming | crates/zclone-core/src/models.rs:32-40 | `new_streaming` has empty content and is streaming |
| Models.AppendContent | crates/zclone-core/src/models.rs:43-45 | new content = old content followed by the fragment; id, role, timestamp and streaming flag unchanged |
| Models.CompleteStreaming | crates/zclone-core/src/models.rs:48-50 | streaming flag false; id, role, content and timestamp unchanged |
| Models.CompleteStreamingIdempotent | crates/zclone-core/src/models.rs:48-50 | completing twice equals completing once; completing a non-streaming message changes nothing |
| Models.AppendAllContent | crates/zclone-core/src/models.rs:43-45 | appending fragments one after another yields the old content followed by all of them joined in order, with nothing else changed |
| Models.StreamedEqualsNew | crates/zclone-core/src/models.rs:21-50 | `new_streaming`, appends, then `complete_streaming` gives exactly the message `Message::new` builds from the joined fragments |
| Models.NewSession | crates/zclone-core/src/models.rs:67-78 | a new session has no messages, no preview, is not archived, and created_at == updated_at |
| Models.FirstUser | crates/zclone-core/src/models.rs:91 | the index returned holds a User message and no earlier one is User; None iff there is no User message |
| Models.FirstUserAppend | crates/zclone-core/src/models.rs:80-91 | appending a message never moves the first User message; an appended User message becomes first only if there was none |
| Models.PreviewText | crates/zclone-core/src/models.rs:92-97 | content of at most 100 characters is the preview unchanged; longer content gives its first 100 characters followed by "..." |
| Models.UpdatePreview | crates/zclone-core/src/models.rs:88-100 | an existing preview is never overwritten; an absent one becomes the preview of the first User message, if any; nothing else changes |
| Models.AddMessage | crates/zclone-core/src/models.rs:80-85 | messages grow by exactly one; earlier messages unchanged; the last has the given id, role, content and its own timestamp; updated_at is stamped from a second clock reading; id, title, created_at and archived flag unchanged; a set preview is kept, and an absent one becomes the preview of the first User message of the new list, if any |
| Models.NewSessionPreview | crates/zclone-core/src/models.rs:67-78 | a new session's preview agrees with its (empty) message list |
| Models.AddMessagePreview | crates/zclone-core/src/models.rs:80-100 | add_message keeps the preview equal to that of the first User message ever added: it stays when set, and otherwise is set by a User message or stays absent |
| Models.SetTitle | crates/zclone-core/src/models.rs:102-105 | only title and updated_at change |
| Models.Archive | crates/zclone-core/src/models.rs:107-110 | archived and updated_at stamped; every other field unchanged |
| Models.Unarchive | crates/zclone-core/src/models.rs:112-115 | not archived and updated_at stamped; every other field unchanged |
| Models.ArchiveRoundTrip | crates/zclone-core/src/models.rs:107-115 | archive then unarchive restores the session except for updated_at |
| Models.EditsKeepPreview | crates/zclone-core/src/models.rs:102-115 | set_title, archive and unarchive keep a preview derived from the messages |
| Models.DefaultSettings | crates/zclone-core/src/models.rs:139-152 | the default settings: no API key, dark theme, "gpt-4", temperature 0.7f32, no system prompt, sidebar expanded, no window size |
| Models.DefaultAppState | crates/zclone-core/src/models.rs:162-170 | no sessions, no active id, default settings |
| Messaging.EventChannel.constructor | crates/zclone-core/src/messaging.rs:80 | an empty channel of the given capacity |
| Messaging.EventChannel.Send | crates/zclone-core/src/messaging.rs:140-145 | with room, the event is appended at the back and earlier events are unchanged; when full, nothing changes and the send reports it would wait; the buffer never exceeds capacity |
| Messaging.EventChannel.Recv | crates/zclone-core/src/messaging.rs:108-110 | the oldest undelivered event is removed and returned (FIFO) |
| Messaging.CancelChannel.constructor | crates/zclone-core/src/messaging.rs:90 | a fresh cancellation channel, empty, with its receiver open |
| Messaging.CancelChannel.Cancel | crates/zclone-core/src/messaging.rs:53-56 | fails iff the receiver is gone; delivers a signal iff the receiver is open and none is queued; never holds more than one signal |
| Messaging.CancelChannel.TryRecv | crates/zclone-core/src/messaging.rs:132 | true iff a signal was queued, and then it is consumed |
| Messaging.CancelChannel.DropReceiver | crates/zclone-core/src/messaging.rs:95 | once the backend call returns, the receiver is closed and queued signals are dropped |
| Messaging.MockEvents | crates/zclone-core/src/messaging.rs:130-149 | reference definition of the mock's output: the first k chunks "chunk i " (only the fifth final), followed by Cancelled when the signal is seen at a step k < 5 |
| Messaging.MockWithoutCancel | crates/zclone-core/src/messaging.rs:130-148 | with no cancellation the mock emits exactly "chunk 0 " … "chunk 4 " with the request's ids, only the fifth final |
| Messaging.MockCancelledAt | crates/zclone-core/src/messaging.rs:130-145 | a signal seen at step k < 5 gives exactly k non-final chunks "chunk i " in order, then one Cancelled with the request's ids, and no final chunk |
| Messaging.MockWellFormed | crates/zclone-core/src/messaging.rs:130-149 | every mock run carries the request's ids throughout and has exactly one terminal event, the last |
| Messaging.MockSendRequest | crates/zclone-core/src/messaging.rs:123-150 | the loop appends, after the unchanged earlier events, exactly the mock's events for the step at which the signal is first seen (a queued signal is seen at step 0), up to the free room; Ok iff all fit; the cancel channel ends empty |
| Messaging.ScriptedSendRequest | crates/zclone-core/src/messaging.rs:63-68 | a backend that emits a list of events appends them in order up to the free room, then returns its Err or Ok |
| Messaging.MessagingPipeline.constructor | crates/zclone-core/src/messaging.rs:79-86 | a pipeline over the backend with a fresh empty event channel of capacity 100 |
| Messaging.DispatchWaits | crates/zclone-core/src/messaging.rs:94-102 | reference definition: a dispatch is left waiting on a full channel when the backend's events do not fit, or fill the room exactly before the Error send of a backend Err |
| Messaging.DispatchEvents | crates/zclone-core/src/messaging.rs:94-102 | reference definition of what one dispatch adds: the backend's events that fit, then one Error for a backend Err if a slot is left |
| Messaging.MessagingPipeline.SendRequest | crates/zclone-core/src/messaging.rs:89-105 | the channel gets the earlier events unchanged, followed by the dispatch's events, including one Error after a backend Err; the returned handle is fresh, holds no signal, and its receiver is closed iff the backend returned; `waiting` reports exactly when a send, the Error send included, is still waiting for room |
| Messaging.DispatchFailure | crates/zclone-core/src/messaging.rs:95-101 | when the backend's events fit, a backend Err adds exactly one Error with the request's session id, message id and error text after them, or, when they filled the room, leaves the dispatch waiting to send it; a backend Ok adds nothing and never waits |
| Messaging.DispatchWellFormed | crates/zclone-core/src/messaging.rs:94-102 | with room for its events (and for the Error of a failing backend), every dispatch of a backend that keeps the ChatBackend contract carries the request's ids, ends with exactly one terminal event, the last, and does not wait |
| Messaging.TestMessagingPipeline | crates/zclone-core/src/messaging.rs:154-184 | draining after one mock dispatch collects exactly the chunks "chunk 0 " … "chunk 4 " |
| Session.SortByRecency | crates/zclone-core/src/session.rs:52 | the array is sorted by non-increasing updated_at and is a permutation of its old contents |
| Session.SessionManager.constructor | crates/zclone-core/src/session.rs:10-15 | empty registry, no active id, invariants hold |
| Session.SessionManager.CreateSession | crates/zclone-core/src/session.rs:17-23 | the id is returned, mapped to a new session with the given title, and made active; invariants preserved |
| Session.SessionManager.GetSession | crates/zclone-core/src/session.rs:25-27 | Some iff the id is a key, with the stored session |
| Session.SessionManager.SetActiveSession | crates/zclone-core/src/session.rs:33-37 | the active id changes only when the id is a key; the map is unchanged; invariants preserved |
| Session.SessionManager.GetActiveSession | crates/zclone-core/src/session.rs:39-43 | Some iff an active id is set and is a key |
| Session.SessionManager.CollectSessions | crates/zclone-core/src/session.rs:51 | every stored session exactly once (distinct ids, one per key) |
| Session.SessionManager.ListSessions | crates/zclone-core/src/session.rs:50-54 | every stored session exactly once, ordered by non-increasing updated_at |
| Session.SessionManager.DeleteSession | crates/zclone-core/src/session.rs:56-63 | true iff the id was a key; afterwards it is absent and all other entries are unchanged; the active id is cleared iff it was that id; invariants preserved |
| Components.HasSession | crates/zclone-ui/src/components.rs:105 | reference definition of the `iter().any` test: some listed session has the id |
| Components.FindSession | crates/zclone-ui/src/components.rs:124 | the first index with that id; None iff no session has it |
| Components.Without | crates/zclone-ui/src/components.rs:89 | keeps exactly the sessions without that id; none with it remain; unchanged when none had it |
| Components.WithoutConcat | crates/zclone-ui/src/components.rs:89 | filtering distributes over concatenation, so the survivors keep their relative order |
| Components.WelcomeSession | crates/zclone-ui/src/components.rs:63-74 | a "New Chat" session created and updated at `now`, holding exactly the complete messages [System welcome, Assistant greeting] with their given ids and timestamps, and the fixed greeting preview |
| Components.SendToSession | crates/zclone-ui/src/components.rs:124-143 | exactly [User(text), Assistant(placeholder)] appended, earlier messages unchanged, the preview is the text when it has at most 60 characters and its first 60 characters otherwise, nothing else changes (updated_at included) |
| Components.SendToFirst | crates/zclone-ui/src/components.rs:124-144 | the first session with the id receives SendToSession and every other position is unchanged; nothing changes when no session has the id; all ids are kept |
| Components.SendToFirstChanges | crates/zclone-ui/src/components.rs:124-144 | the session list changes exactly when some session has the id |
| Components.AppWindow.constructor | crates/zclone-ui/src/components.rs:47-53 | the default application state, sidebar expanded, empty composer |
| Components.AppWindow.ToggleSidebar | crates/zclone-ui/src/components.rs:57-59 | the sidebar flag is negated, so two toggles restore it; nothing else changes |
| Components.AppWindow.CreateNewSession | crates/zclone-ui/src/components.rs:61-84 | the welcome session goes in at index 0 and becomes active; the old sessions follow unchanged |
| Components.AppWindow.DeleteSession | crates/zclone-ui/src/components.rs:87-95 | every session with the id is removed, the rest keep their order; a deleted active id becomes the first remaining id or None; any other active id is unchanged |
| Components.AppWindow.SetActiveSession | crates/zclone-ui/src/components.rs:103-109 | the active id is set only if some session has that id |
| Components.AppWindow.UpdateComposerText | crates/zclone-ui/src/components.rs:111-113 | only the composer text changes |
| Components.AppWindow.SendMessage | crates/zclone-ui/src/components.rs:115-150 | blank-after-trim text or no active id: sessions and composer unchanged; otherwise the first session with the active id receives the trimmed text and the placeholder, and the composer is cleared; the active id always stays valid |

## Left out

- Concurrency is not modelled: `tokio::spawn`, `async`/`.await`, the 10 ms `sleep`, and blocking on a full channel. A dispatch runs to completion in order. Interleaving between dispatches is not modelled.
- MockSendRequest, ScriptedSendRequest, MessagingPipeline.SendRequest: a send on a full event channel ends the dispatch there (`Blocked`, or `waiting` for the pipeline). In the source, the sender would wait for the caller to drain the channel and then continue, so these contracts say nothing about events after that point.
- The event channel never closes in the model, because the pipeline owns its receiver for its whole lifetime. The `?` error path for a closed channel is therefore not modelled.
- MessagingPipeline.SendRequest: when the backend returns `Err` after its events filled the channel, the `Error` send has to wait. The model reports this through `waiting`, but does not deliver that `Error` after the caller drains the channel.
- CancelChannel.Cancel: when a signal is already queued, the result is `CancelWaiting`. The later delivery by that still-waiting sender is not modelled.
- EventChannel.Recv: returns None on an empty channel. `recv().await` would wait instead, and would return None only once every sender had been dropped, which never happens while the pipeline holds its sender. TestMessagingPipeline's exit on None therefore stands for a path the source never takes.
- `uuid::Uuid::new_v4` and `chrono::Utc::now` are foreign, nondeterministic calls. Ids and timestamps are parameters instead.
- Timestamps are unbounded integers; i64 overflow is not modelled.
- `f32` temperatures are kept as an uninterpreted bit pattern (`F32`), and no arithmetic is done on them.
- PreviewText counts characters. The source compares the UTF-8 byte length with 100 (models.rs:93). For non-ASCII content that is at most 100 characters but over 100 bytes, the source appends `...` and the model does not.
- The `ChatBackend` trait is a closed datatype with two cases: the mock, and a scripted backend that emits a fixed list of events. The live OpenAI backend and `crates/zclone-api/src/client.rs` are not part of this model.
- `get_session_mut` and `get_active_session_mut` return mutable borrows that let a caller change anything, including a session's id. They are not modelled.
- Session.SessionManager.ListSessions: the order of sessions with equal `updated_at` is not stated. It depends on `HashMap` iteration order, which the source leaves unspecified.
- `AppWindow::new` normally loads sessions and settings from `SqliteStore`. Persistence is not modelled, so the constructor starts from `AppState::default`. The persistence calls in the other `AppWindow` methods are not modelled either.
- All `render_*` code, themes, motion and component-spec tables, `main.rs`, and the `lib.rs` module lists are not modelled. They have no state transitions.
- `CancellationHandle::new` only wraps the sender, so it is folded into `CancelChannel`. `event_receiver` is direct access to the pipeline's `events` channel.

/** Messages, chat sessions, settings and the application state of the chat
    client (crates/zclone-core/src/models.rs). Ids (uuid v4) and timestamps
    (Unix seconds from the wall clock) are parameters. The `&mut self`
    operations of the source act on owned values, so each becomes a function
    from the old value to the new one. */
module Models {
  import opened Common

  datatype Role = User | Assistant | System

  /** One conversation turn; `isStreaming` is true while chunks are still being appended. */
  datatype Message = Message(id: string, role: Role, content: string, timestamp: int, isStreaming: bool)

  /** `Message::new`: a complete message with the given content. */
  function NewMessage(id: string, role: Role, content: string, timestamp: int): (m: Message)
    ensures m.id == id && m.role == role && m.timestamp == timestamp
    ensures m.content == content && !m.isStreaming
  {
    Message(id, role, content, timestamp, false)
  }

  /** `Message::new_streaming`: an empty message that is still being streamed. */
  function NewStreaming(id: string, role: Role, timestamp: int): (m: Message)
    ensures m.id == id && m.role == role && m.timestamp == timestamp
    ensures m.content == "" && m.isStreaming
  {
    Message(id, role, "", timestamp, true)
  }

  /** `Message::append_content`: concatenates a streamed fragment to the content. */
  function AppendContent(m: Message, fragment: string): (r: Message)
    ensures r.content == m.content + fragment
    ensures r.id == m.id && r.role == m.role && r.timestamp == m.timestamp && r.isStreaming == m.isStreaming
  {
    m.(content := m.content + fragment)
  }

  /** `Message::complete_streaming`: leaves streaming mode. */
  function CompleteStreaming(m: Message): (r: Message)
    ensures !r.isStreaming
    ensures r.id == m.id && r.role == m.role && r.content == m.content && r.timestamp == m.timestamp
  {
    m.(isStreaming := false)
  }

  lemma CompleteStreamingIdempotent(m: Message)
    ensures CompleteStreaming(CompleteStreaming(m)) == CompleteStreaming(m)
    ensures !m.isStreaming ==> CompleteStreaming(m) == m
  {
  }

  /** All fragments joined in order. */
  function Concat(fragments: seq<string>): string {
    if fragments == [] then "" else Concat(fragments[..|fragments| - 1]) + fragments[|fragments| - 1]
  }

  /** `append_content` applied to each fragment in turn. */
  function AppendAll(m: Message, fragments: seq<string>): Message {
    if fragments == [] then m else AppendContent(AppendAll(m, fragments[..|fragments| - 1]), fragments[|fragments| - 1])
  }

  /** Appending fragments one by one yields the old content followed by all of them, and touches nothing else. */
  lemma {:induction false} AppendAllContent(m: Message, fragments: seq<string>)
    ensures AppendAll(m, fragments) == m.(content := m.content + Concat(fragments))
  {
    if fragments != [] {
      var init := fragments[..|fragments| - 1];
      AppendAllContent(m, init);
      assert m.content + Concat(init) + fragments[|fragments| - 1] == m.content + Concat(fragments);
    }
  }

  /** Streaming a message and completing it ends in the same message `Message::new`
      builds from the joined fragments. */
  lemma StreamedEqualsNew(id: string, role: Role, timestamp: int, fragments: seq<string>)
    ensures CompleteStreaming(AppendAll(NewStreaming(id, role, timestamp), fragments))
            == NewMessage(id, role, Concat(fragments), timestamp)
  {
    AppendAllContent(NewStreaming(id, role, timestamp), fragments);
  }

  /** A conversation. `preview` is the sidebar text, set from the first user message. */
  datatype ChatSession = ChatSession(
    id: string,
    title: string,
    messages: seq<Message>,
    createdAt: int,
    updatedAt: int,
    preview: Option<string>,
    isArchived: bool)

  /** Maximum number of characters of the first user message shown as preview. */
  const PREVIEW_LENGTH: nat := 100

  /** `ChatSession::new`: an empty, unarchived session created and updated at `now`. */
  function NewSession(id: string, title: string, now: int): (s: ChatSession)
    ensures s.id == id && s.title == title && s.messages == []
    ensures s.createdAt == now && s.updatedAt == s.createdAt
    ensures s.preview == None && !s.isArchived
  {
    ChatSession(id, title, [], now, now, None, false)
  }

  /** Index of the first user message (the `iter().find` of `update_preview`). */
  function FirstUser(ms: seq<Message>): (r: Option<nat>)
    ensures r.Some? ==> r.value < |ms| && ms[r.value].role == User
                        && forall j :: 0 <= j < r.value ==> ms[j].role != User
    ensures r.None? ==> forall j :: 0 <= j < |ms| ==> ms[j].role != User
  {
    if ms == [] then None
    else if ms[0].role == User then Some(0)
    else match FirstUser(ms[1..])
      case None => None
      case Some(i) => Some(i + 1)
  }

  /** Adding a message never moves the first user message; a first user message appended last becomes it. */
  lemma FirstUserAppend(ms: seq<Message>, m: Message)
    ensures FirstUser(ms + [m]) == if FirstUser(ms).Some? then FirstUser(ms)
                                   else if m.role == User then Some(|ms|) else None
  {
    var r := FirstUser(ms + [m]);
    if FirstUser(ms).Some? {
      var i := FirstUser(ms).value;
      assert (ms + [m])[i] == ms[i];
    } else if m.role == User {
      assert (ms + [m])[|ms|] == m;
    } else {
      assert forall j :: 0 <= j < |ms + [m]| ==> (ms + [m])[j].role != User by {
        forall j | 0 <= j < |ms + [m]| ensures (ms + [m])[j].role != User {
          if j < |ms| { assert (ms + [m])[j] == ms[j]; }
        }
      }
    }
  }

  /** The preview made from a message's content: its first 100 characters, followed by
      `...` when the content is longer than that. */
  function PreviewText(content: string): (p: string)
    ensures |content| <= PREVIEW_LENGTH ==> p == content
    ensures |content| > PREVIEW_LENGTH ==> p == content[..PREVIEW_LENGTH] + "..."
  {
    var shown := Take(content, PREVIEW_LENGTH);
    if |content| > PREVIEW_LENGTH then shown + "..." else shown
  }

  /** The preview `update_preview` derives from a message list, if any. */
  function PreviewOf(ms: seq<Message>): Option<string> {
    match FirstUser(ms)
    case None => None
    case Some(i) => Some(PreviewText(ms[i].content))
  }

  /** `ChatSession::update_preview`: sets the preview from the first user message, only when none is set. */
  function UpdatePreview(s: ChatSession): (r: ChatSession)
    ensures r == s.(preview := r.preview)
    ensures s.preview.Some? ==> r.preview == s.preview
    ensures s.preview.None? ==> r.preview == PreviewOf(s.messages)
  {
    if s.preview.None? then s.(preview := PreviewOf(s.messages)) else s
  }

  /** `ChatSession::add_message`: appends a new message stamped `sentAt` (the clock read by
      `Message::new`), sets `updatedAt` to `now` (the second clock read) and updates the preview. */
  function AddMessage(s: ChatSession, id: string, role: Role, content: string, sentAt: int, now: int): (r: ChatSession)
    ensures |r.messages| == |s.messages| + 1 && r.messages[..|s.messages|] == s.messages
    ensures r.messages[|s.messages|] == NewMessage(id, role, content, sentAt)
    ensures r.updatedAt == now
    ensures r.id == s.id && r.title == s.title && r.createdAt == s.createdAt && r.isArchived == s.isArchived
    ensures s.preview.Some? ==> r.preview == s.preview
    ensures s.preview.None? ==> r.preview == PreviewOf(r.messages)
  {
    assert (s.messages + [NewMessage(id, role, content, sentAt)])[..|s.messages|] == s.messages;
    UpdatePreview(s.(messages := s.messages + [NewMessage(id, role, content, sentAt)], updatedAt := now))
  }

  /** The preview is the one derived from the first user message, or absent when
      there is none (it may also have been set by hand, which this does not cover). */
  ghost predicate PreviewFromMessages(s: ChatSession) {
    s.preview == PreviewOf(s.messages)
  }

  lemma NewSessionPreview(id: string, title: string, now: int)
    ensures PreviewFromMessages(NewSession(id, title, now))
  {
  }

  /** `add_message` keeps the preview equal to the one of the first user message
      ever added: once set, later messages never replace it. */
  lemma AddMessagePreview(s: ChatSession, id: string, role: Role, content: string, sentAt: int, now: int)
    requires PreviewFromMessages(s)
    ensures PreviewFromMessages(AddMessage(s, id, role, content, sentAt, now))
    ensures var r := AddMessage(s, id, role, content, sentAt, now);
            r.preview == if s.preview.Some? then s.preview
                         else if role == User then Some(PreviewText(content)) else None
  {
    var m := NewMessage(id, role, content, sentAt);
    FirstUserAppend(s.messages, m);
    if FirstUser(s.messages).Some? {
      var i := FirstUser(s.messages).value;
      assert (s.messages + [m])[i] == s.messages[i];
    } else if role == User {
      assert (s.messages + [m])[|s.messages|] == m;
    }
  }

  /** `ChatSession::set_title`. */
  function SetTitle(s: ChatSession, title: string, now: int): (r: ChatSession)
    ensures r.title == title && r.updatedAt == now
    ensures r == s.(title := title, updatedAt := now)
  {
    s.(title := title, updatedAt := now)
  }

  /** `ChatSession::archive`. */
  function Archive(s: ChatSession, now: int): (r: ChatSession)
    ensures r.isArchived && r.updatedAt == now
    ensures r == s.(isArchived := true, updatedAt := now)
  {
    s.(isArchived := true, updatedAt := now)
  }

  /** `ChatSession::unarchive`. */
  function Unarchive(s: ChatSession, now: int): (r: ChatSession)
    ensures !r.isArchived && r.updatedAt == now
    ensures r == s.(isArchived := false, updatedAt := now)
  {
    s.(isArchived := false, updatedAt := now)
  }

  /** Archiving and then unarchiving restores the session apart from its `updatedAt`. */
  lemma ArchiveRoundTrip(s: ChatSession, t1: int, t2: int)
    ensures Unarchive(Archive(s, t1), t2) == s.(isArchived := false, updatedAt := t2)
    ensures !s.isArchived ==> Unarchive(Archive(s, t1), s.updatedAt) == s
  {
  }

  /** Title, archiving and un-archiving leave the messages and so keep a derived preview. */
  lemma EditsKeepPreview(s: ChatSession, title: string, now: int)
    requires PreviewFromMessages(s)
    ensures PreviewFromMessages(SetTitle(s, title, now))
    ensures PreviewFromMessages(Archive(s, now)) && PreviewFromMessages(Unarchive(s, now))
  {
  }

  /** An `f32` (the sampling temperature) kept as its IEEE 754 bit pattern; it is never computed with. */
  datatype F32 = F32(bits: bv32)

  /** 0.7 as the nearest `f32`. */
  const DEFAULT_TEMPERATURE: F32 := F32(0x3F33_3333)

  datatype Theme = Light | Dark | Auto

  datatype AppSettings = AppSettings(
    openaiApiKey: Option<string>,
    theme: Theme,
    model: string,
    temperature: F32,
    systemPrompt: Option<string>,
    sidebarCollapsed: bool,
    windowWidth: Option<bv32>,
    windowHeight: Option<bv32>)

  /** `AppSettings::default`. */
  function DefaultSettings(): (d: AppSettings)
    ensures d.openaiApiKey == None && d.theme == Dark && d.model == "gpt-4"
    ensures d.temperature == DEFAULT_TEMPERATURE && d.systemPrompt == None && !d.sidebarCollapsed
    ensures d.windowWidth == None && d.windowHeight == None
  {
    AppSettings(None, Dark, "gpt-4", DEFAULT_TEMPERATURE, None, false, None, None)
  }

  datatype AppState = AppState(sessions: seq<ChatSession>, activeSessionId: Option<string>, settings: AppSettings)

  /** `AppState::default`: no sessions, none active, default settings. */
  function DefaultAppState(): (a: AppState)
    ensures a.sessions == [] && a.activeSessionId == None && a.settings == DefaultSettings()
  {
    AppState([], None, DefaultSettings())
  }
}

/** The state transitions of the main window (`AppWindow` in
    crates/zclone-ui/src/components.rs): the session list, the active session,
    the sidebar flag and the composer text. Rendering and persistence are not
    modelled; ids and timestamps are parameters. */
module Components {
  import opened Common
  import opened Models

  const NEW_CHAT_TITLE: string := "New Chat"
  const WELCOME_TEXT: string := "Welcome to zClone! This is a ChatGPT-style interface built with GPUI."
  const GREETING_TEXT: string := "Hello! I'm ready to help. How can I assist you today?"
  const GREETING_PREVIEW: string := "Hello! I'm ready to help..."
  const PLACEHOLDER_REPLY: string := "This is a placeholder response. OpenAI integration coming in Phase 6!"
  /** Number of characters of a sent message kept as the session preview. */
  const SENT_PREVIEW_LENGTH: nat := 60

  /** Some session in `ss` has this id (`iter().any(|s| s.id == id)`). */
  predicate HasSession(ss: seq<ChatSession>, id: string) {
    exists i :: 0 <= i < |ss| && ss[i].id == id
  }

  /** Index of the first session with this id (`iter_mut().find(|s| s.id == id)`). */
  function FindSession(ss: seq<ChatSession>, id: string): (r: Option<nat>)
    ensures r.Some? ==> r.value < |ss| && ss[r.value].id == id && forall j :: 0 <= j < r.value ==> ss[j].id != id
    ensures r.None? <==> !HasSession(ss, id)
  {
    if ss == [] then None
    else if ss[0].id == id then Some(0)
    else match FindSession(ss[1..], id)
      case None => None
      case Some(i) => Some(i + 1)
  }

  /** The sessions whose id is not `id`, in their original order (`retain(|s| s.id != id)`). */
  function Without(ss: seq<ChatSession>, id: string): (r: seq<ChatSession>)
    ensures forall s :: s in r <==> s in ss && s.id != id
    ensures !HasSession(r, id)
    ensures !HasSession(ss, id) ==> r == ss
    ensures |r| <= |ss|
  {
    if ss == [] then []
    else (if ss[0].id == id then [] else [ss[0]]) + Without(ss[1..], id)
  }

  /** Filtering distributes over concatenation, so the kept sessions keep their relative order. */
  lemma {:induction false} WithoutConcat(a: seq<ChatSession>, b: seq<ChatSession>, id: string)
    ensures Without(a + b, id) == Without(a, id) + Without(b, id)
  {
    if a == [] {
      assert a + b == b;
    } else {
      assert (a + b)[0] == a[0] && (a + b)[1..] == a[1..] + b;
      WithoutConcat(a[1..], b, id);
      var head := if a[0].id == id then [] else [a[0]];
      assert Without(a + b, id) == head + (Without(a[1..], id) + Without(b, id));
    }
  }

  /** The session `create_new_session` builds: "New Chat" with a system welcome and an assistant greeting. */
  function WelcomeSession(id: string, now: int, welcomeId: string, welcomeAt: int, greetingId: string, greetingAt: int): (s: ChatSession)
    ensures s.id == id && s.title == NEW_CHAT_TITLE && s.createdAt == now && s.updatedAt == now && !s.isArchived
    ensures |s.messages| == 2 && s.messages[0].role == System && s.messages[1].role == Assistant
    ensures s.messages[0].content == WELCOME_TEXT && s.messages[1].content == GREETING_TEXT
    ensures s.messages == [NewMessage(welcomeId, System, WELCOME_TEXT, welcomeAt), NewMessage(greetingId, Assistant, GREETING_TEXT, greetingAt)]
    ensures s.preview == Some(GREETING_PREVIEW) && PreviewOf(s.messages) == None
  {
    NewSession(id, NEW_CHAT_TITLE, now).(
      messages := [NewMessage(welcomeId, System, WELCOME_TEXT, welcomeAt), NewMessage(greetingId, Assistant, GREETING_TEXT, greetingAt)],
      preview := Some(GREETING_PREVIEW))
  }

  /** What `send_message` does to the session it found: the user's text and the placeholder
      reply are pushed, and the preview becomes the first 60 characters of the text. */
  function SendToSession(s: ChatSession, text: string, userMsgId: string, userAt: int, replyId: string, replyAt: int): (r: ChatSession)
    ensures |r.messages| == |s.messages| + 2 && r.messages[..|s.messages|] == s.messages
    ensures r.messages[|s.messages|] == NewMessage(userMsgId, User, text, userAt)
    ensures r.messages[|s.messages| + 1] == NewMessage(replyId, Assistant, PLACEHOLDER_REPLY, replyAt)
    ensures r.preview.Some? && |r.preview.value| <= SENT_PREVIEW_LENGTH && r.preview.value <= text
    ensures |text| <= SENT_PREVIEW_LENGTH ==> r.preview == Some(text)
    ensures |text| > SENT_PREVIEW_LENGTH ==> r.preview == Some(text[..SENT_PREVIEW_LENGTH])
    ensures r == s.(messages := r.messages, preview := r.preview)
  {
    var withUser := s.messages + [NewMessage(userMsgId, User, text, userAt)];
    var r := s.(messages := withUser + [NewMessage(replyId, Assistant, PLACEHOLDER_REPLY, replyAt)],
                preview := Some(Take(text, SENT_PREVIEW_LENGTH)));
    assert r.messages[..|s.messages|] == s.messages;
    r
  }

  /** The session list after `send_message` reached session `id`: only the first session with
      that id changes; ids, and so every other session's lookup, stay as they were. */
  function SendToFirst(ss: seq<ChatSession>, id: string, text: string, userMsgId: string, userAt: int, replyId: string, replyAt: int): (r: seq<ChatSession>)
    ensures |r| == |ss|
    ensures forall j :: 0 <= j < |ss| ==> r[j].id == ss[j].id
    ensures forall j :: 0 <= j < |ss| && ss[j].id != id ==> r[j] == ss[j]
    ensures !HasSession(ss, id) ==> r == ss
    ensures FindSession(ss, id).Some? ==> var i := FindSession(ss, id).value;
              r[i] == SendToSession(ss[i], text, userMsgId, userAt, replyId, replyAt)
              && forall j :: 0 <= j < |ss| && j != i ==> r[j] == ss[j]
  {
    match FindSession(ss, id)
    case None => ss
    case Some(i) => ss[i := SendToSession(ss[i], text, userMsgId, userAt, replyId, replyAt)]
  }

  /** Sending changes the session list exactly when some session has the id. */
  lemma SendToFirstChanges(ss: seq<ChatSession>, id: string, text: string, userMsgId: string, userAt: int, replyId: string, replyAt: int)
    ensures HasSession(ss, id) <==> SendToFirst(ss, id, text, userMsgId, userAt, replyId, replyAt) != ss
  {
    var r := SendToFirst(ss, id, text, userMsgId, userAt, replyId, replyAt);
    match FindSession(ss, id) {
      case None =>
      case Some(i) =>
        assert r[i] != ss[i] by {
          assert |r[i].messages| == |ss[i].messages| + 2;
        }
    }
  }

  /** `AppWindow`, without theme and persistence. */
  class AppWindow {
    var sessions: seq<ChatSession>
    var activeSessionId: Option<string>
    var sidebarCollapsed: bool
    var composerText: string

    /** The active id, when set, is the id of a listed session. */
    ghost predicate Valid()
      reads this
    {
      activeSessionId.Some? ==> HasSession(sessions, activeSessionId.value)
    }

    /** `AppWindow::new` before anything is loaded: the default application state. */
    constructor ()
      ensures Valid()
      ensures sessions == DefaultAppState().sessions && activeSessionId == DefaultAppState().activeSessionId
      ensures !sidebarCollapsed && composerText == ""
    {
      var state := DefaultAppState();
      sessions := state.sessions;
      activeSessionId := state.activeSessionId;
      sidebarCollapsed := false;
      composerText := "";
    }

    /** `toggle_sidebar`. */
    method ToggleSidebar()
      modifies this
      ensures sidebarCollapsed == !old(sidebarCollapsed)
      ensures sessions == old(sessions) && activeSessionId == old(activeSessionId) && composerText == old(composerText)
    {
      sidebarCollapsed := !sidebarCollapsed;
    }

    /** `create_new_session`: the welcome session goes first and becomes active. */
    method CreateNewSession(id: string, now: int, welcomeId: string, welcomeAt: int, greetingId: string, greetingAt: int)
      modifies this
      ensures sessions == [WelcomeSession(id, now, welcomeId, welcomeAt, greetingId, greetingAt)] + old(sessions)
      ensures activeSessionId == Some(id)
      ensures sidebarCollapsed == old(sidebarCollapsed) && composerText == old(composerText)
      ensures Valid()
    {
      var session := WelcomeSession(id, now, welcomeId, welcomeAt, greetingId, greetingAt);
      activeSessionId := Some(session.id);
      sessions := [session] + sessions;
      assert sessions[0].id == id;
    }

    /** `delete_session`: drops every session with the id; if it was active, the first remaining one becomes active. */
    method DeleteSession(id: string)
      modifies this
      ensures sessions == Without(old(sessions), id)
      ensures activeSessionId == if old(activeSessionId) == Some(id)
                                 then (if sessions == [] then None else Some(sessions[0].id))
                                 else old(activeSessionId)
      ensures sidebarCollapsed == old(sidebarCollapsed) && composerText == old(composerText)
      ensures old(Valid()) ==> Valid()
    {
      sessions := Without(sessions, id);
      if activeSessionId == Some(id) {
        activeSessionId := if sessions == [] then None else Some(sessions[0].id);
      }
      if old(Valid()) && activeSessionId.Some? && old(activeSessionId) != Some(id) {
        var i :| 0 <= i < |old(sessions)| && old(sessions)[i].id == activeSessionId.value;
        assert old(sessions)[i] in sessions;
      }
    }

    /** `set_active_session`: only an id some listed session has becomes active. */
    method SetActiveSession(id: string)
      modifies this
      ensures activeSessionId == if HasSession(old(sessions), id) then Some(id) else old(activeSessionId)
      ensures sessions == old(sessions) && sidebarCollapsed == old(sidebarCollapsed) && composerText == old(composerText)
      ensures old(Valid()) ==> Valid()
    {
      if FindSession(sessions, id).Some? {
        activeSessionId := Some(id);
      }
    }

    /** `update_composer_text`. */
    method UpdateComposerText(text: string)
      modifies this
      ensures composerText == text
      ensures sessions == old(sessions) && activeSessionId == old(activeSessionId) && sidebarCollapsed == old(sidebarCollapsed)
    {
      composerText := text;
    }

    /** `send_message`: blank text changes nothing; with an active id the trimmed text and a
        placeholder reply go to the first session with that id and the composer is cleared. */
    method SendMessage(userMsgId: string, userAt: int, replyId: string, replyAt: int)
      modifies this
      ensures var text := Trim(old(composerText));
              if text == [] || old(activeSessionId).None? then
                sessions == old(sessions) && composerText == old(composerText)
              else
                sessions == SendToFirst(old(sessions), old(activeSessionId).value, text, userMsgId, userAt, replyId, replyAt)
                && composerText == ""
      ensures activeSessionId == old(activeSessionId) && sidebarCollapsed == old(sidebarCollapsed)
      ensures old(Valid()) ==> Valid()
    {
      var text := Trim(composerText);
      if text == [] {
        return;
      }
      match activeSessionId {
        case None =>
        case Some(sessionId) =>
          var before := sessions;
          sessions := SendToFirst(sessions, sessionId, text, userMsgId, userAt, replyId, replyAt);
          composerText := "";
          if old(Valid()) {
            var i :| 0 <= i < |before| && before[i].id == sessionId;
            assert sessions[i].id == sessionId;
          }
      }
    }
  }
}

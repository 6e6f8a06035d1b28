/**
 * The chat session held by `ChatProvider`: the visible message list, the
 * id of the saved chat it belongs to, the list of saved chats and the
 * Gekko-style switch. The user document in Firestore and the local copy
 * of its `chats` array are one field, `savedChats`; whether the user is
 * signed in with an existing user document is the constant `canPersist`.
 * Fresh ids and timestamps are parameters.
 */
module ChatContext {
  import opened Wrappers

  datatype Role = User | Assistant

  datatype ChatMessage = ChatMessage(id: string, role: Role, content: string, timestamp: int)

  datatype Chat = Chat(id: string, name: string, messages: seq<ChatMessage>)

  // ---------------------------------------------------------------------------
  // Updates of the saved-chat list
  // ---------------------------------------------------------------------------

  /** Some saved chat has exactly this message list. */
  predicate HasDuplicate(chats: seq<Chat>, messages: seq<ChatMessage>) {
    exists i :: 0 <= i < |chats| && chats[i].messages == messages
  }

  /** No two saved chats have the same message list. */
  predicate DistinctMessageLists(chats: seq<Chat>) {
    forall i, j :: 0 <= i < j < |chats| ==> chats[i].messages != chats[j].messages
  }

  /** The saved list after `saveNewChatToFirestore`: unchanged on a duplicate, otherwise the chat is appended. */
  function WithNewChat(chats: seq<Chat>, newChat: Chat): (saved: seq<Chat>)
    ensures saved == chats <==> HasDuplicate(chats, newChat.messages)
    ensures saved != chats ==> saved == chats + [newChat]
    ensures HasDuplicate(saved, newChat.messages)
  {
    if HasDuplicate(chats, newChat.messages) then chats
    else
      assert (chats + [newChat])[|chats|] == newChat;
      chats + [newChat]
  }

  /** Saving never introduces a second chat with an already saved message list. */
  lemma WithNewChatKeepsDistinct(chats: seq<Chat>, newChat: Chat)
    requires DistinctMessageLists(chats)
    ensures DistinctMessageLists(WithNewChat(chats, newChat))
  {
    var saved := WithNewChat(chats, newChat);
    if saved != chats {
      forall i, j | 0 <= i < j < |saved|
        ensures saved[i].messages != saved[j].messages
      {
        if j == |chats| {
          assert saved[i] == chats[i];
        }
      }
    }
  }

  /** The list `updateChatMessages` writes back: every chat with the given id gets the new messages. */
  function WithMessages(chats: seq<Chat>, id: string, messages: seq<ChatMessage>): (updated: seq<Chat>)
    ensures |updated| == |chats|
    ensures forall i :: 0 <= i < |chats| ==> updated[i].id == chats[i].id && updated[i].name == chats[i].name
    ensures forall i :: 0 <= i < |chats| && chats[i].id == id ==> updated[i].messages == messages
    ensures forall i :: 0 <= i < |chats| && chats[i].id != id ==> updated[i] == chats[i]
  {
    seq(|chats|, i requires 0 <= i < |chats| => if chats[i].id == id then chats[i].(messages := messages) else chats[i])
  }

  /** Writing a chat's messages twice leaves only the second write. */
  lemma WithMessagesOverwrites(chats: seq<Chat>, id: string, first: seq<ChatMessage>, second: seq<ChatMessage>)
    ensures WithMessages(WithMessages(chats, id, first), id, second) == WithMessages(chats, id, second)
  {
    var once, twice := WithMessages(chats, id, second), WithMessages(WithMessages(chats, id, first), id, second);
    forall i | 0 <= i < |chats|
      ensures twice[i] == once[i]
    {
    }
  }

  // ---------------------------------------------------------------------------
  // updateLastMessage on the message list
  // ---------------------------------------------------------------------------

  /** The message list after `updateLastMessage(content)`: only a trailing assistant message is rewritten. */
  function WithLastContent(messages: seq<ChatMessage>, content: string): (updated: seq<ChatMessage>)
    ensures |updated| == |messages|
    ensures forall i :: 0 <= i < |messages| - 1 ==> updated[i] == messages[i]
    ensures |messages| > 0 && messages[|messages| - 1].role == Assistant
      ==> updated[|messages| - 1] == messages[|messages| - 1].(content := content)
    ensures |messages| == 0 || messages[|messages| - 1].role != Assistant ==> updated == messages
  {
    if |messages| > 0 && messages[|messages| - 1].role == Assistant then
      messages[|messages| - 1 := messages[|messages| - 1].(content := content)]
    else
      messages
  }

  /** As the answer streams in, each update replaces the previous one: the last content wins. */
  lemma LastContentWins(messages: seq<ChatMessage>, first: string, second: string)
    ensures WithLastContent(WithLastContent(messages, first), second) == WithLastContent(messages, second)
  {
    var once, twice := WithLastContent(messages, second), WithLastContent(WithLastContent(messages, first), second);
    forall i | 0 <= i < |messages|
      ensures twice[i] == once[i]
    {
    }
  }

  // ---------------------------------------------------------------------------
  // The session as a value
  // ---------------------------------------------------------------------------

  datatype Session = Session(messages: seq<ChatMessage>, savedChats: seq<Chat>, chatId: Option<string>, isGekko: bool)

  /** `if (chatId)`: an id is present and, as a JavaScript string, truthy. */
  predicate IsActive(chatId: Option<string>) {
    chatId.Some? && chatId.value != ""
  }

  /** The saved list after `updateChatMessages(updated)`: nothing happens without an active chat or a user document. */
  function PersistedChats(s: Session, canPersist: bool, updated: seq<ChatMessage>): (chats: seq<Chat>)
    ensures |chats| == |s.savedChats|
    ensures !(canPersist && IsActive(s.chatId)) ==> chats == s.savedChats
    ensures canPersist && IsActive(s.chatId) ==> chats == WithMessages(s.savedChats, s.chatId.value, updated)
  {
    if canPersist && IsActive(s.chatId) then WithMessages(s.savedChats, s.chatId.value, updated) else s.savedChats
  }

  /**
   * The session after `addMessage`: the message is appended; a fresh
   * conversation becomes a saved chat when it reaches four messages; an
   * active one is written back on every message from the fourth on.
   */
  function AfterAddMessage(s: Session, canPersist: bool, message: ChatMessage, newChatId: string): (t: Session)
    ensures t.messages == s.messages + [message] && t.isGekko == s.isGekko
    ensures t.chatId == if !IsActive(s.chatId) && |t.messages| == 4 then Some(newChatId) else s.chatId
    ensures IsActive(s.chatId) && |t.messages| >= 4 ==> t.savedChats == PersistedChats(s, canPersist, t.messages)
    ensures !IsActive(s.chatId) && |t.messages| == 4 && canPersist
      ==> t.savedChats == WithNewChat(s.savedChats, Chat(newChatId, s.messages[0].content, t.messages))
    ensures t.savedChats != s.savedChats ==> canPersist && (if IsActive(s.chatId) then |t.messages| >= 4 else |t.messages| == 4)
  {
    var updatedMessages := s.messages + [message];
    if IsActive(s.chatId) then
      var saved := if |updatedMessages| >= 4 then PersistedChats(s, canPersist, updatedMessages) else s.savedChats;
      s.(messages := updatedMessages, savedChats := saved)
    else if |updatedMessages| == 4 then
      var newChat := Chat(newChatId, updatedMessages[0].content, updatedMessages);
      var saved := if canPersist then WithNewChat(s.savedChats, newChat) else s.savedChats;
      s.(messages := updatedMessages, savedChats := saved, chatId := Some(newChatId))
    else
      s.(messages := updatedMessages)
  }

  /** The session after a series of `addMessage` calls, the k-th using the fresh id `newIds[k]`. */
  function AfterMessages(s: Session, canPersist: bool, messages: seq<ChatMessage>, newIds: seq<string>): (t: Session)
    requires |newIds| == |messages|
    ensures t.isGekko == s.isGekko
    ensures |t.messages| == |s.messages| + |messages|
    ensures !canPersist ==> t.savedChats == s.savedChats
  {
    if |messages| == 0 then s
    else
      var n := |messages| - 1;
      AfterAddMessage(AfterMessages(s, canPersist, messages[..n], newIds[..n]), canPersist, messages[n], newIds[n])
  }

  /** The messages of a series of `addMessage` calls are appended in order. */
  lemma {:induction false} MessagesAppended(s: Session, canPersist: bool, messages: seq<ChatMessage>, newIds: seq<string>)
    requires |newIds| == |messages|
    ensures AfterMessages(s, canPersist, messages, newIds).messages == s.messages + messages
  {
    if |messages| > 0 {
      var n := |messages| - 1;
      MessagesAppended(s, canPersist, messages[..n], newIds[..n]);
      assert messages[..n] + [messages[n]] == messages;
    }
  }

  /** The first three messages of a fresh conversation save nothing and leave it without a chat. */
  lemma {:induction false} ConversationUnsaved(s: Session, canPersist: bool, messages: seq<ChatMessage>, newIds: seq<string>)
    requires s.messages == [] && !IsActive(s.chatId)
    requires |newIds| == |messages| < 4
    ensures AfterMessages(s, canPersist, messages, newIds) == s.(messages := messages)
  {
    if |messages| > 0 {
      var n := |messages| - 1;
      ConversationUnsaved(s, canPersist, messages[..n], newIds[..n]);
      assert messages[..n] + [messages[n]] == messages;
    }
  }

  /** The fourth message creates the chat, named after the first message and holding all four. */
  lemma ConversationCreated(s: Session, canPersist: bool, messages: seq<ChatMessage>, newIds: seq<string>)
    requires s.messages == [] && !IsActive(s.chatId)
    requires |newIds| == |messages| == 4
    ensures AfterMessages(s, canPersist, messages, newIds).chatId == Some(newIds[3])
    ensures canPersist ==> (AfterMessages(s, canPersist, messages, newIds).savedChats
      == WithNewChat(s.savedChats, Chat(newIds[3], messages[0].content, messages)))
    ensures !canPersist ==> AfterMessages(s, canPersist, messages, newIds).savedChats == s.savedChats
  {
    ConversationUnsaved(s, canPersist, messages[..3], newIds[..3]);
    assert messages[..3] + [messages[3]] == messages;
    assert messages[..3][0] == messages[0];
  }

  /** Every saved chat with this id holds exactly these messages. */
  predicate Tracks(chats: seq<Chat>, id: string, messages: seq<ChatMessage>) {
    forall i :: 0 <= i < |chats| && chats[i].id == id ==> chats[i].messages == messages
  }

  /** The chat created at the fourth message holds the conversation, provided its id was fresh. */
  lemma CreatedChatTracks(chats: seq<Chat>, newChat: Chat)
    requires forall i :: 0 <= i < |chats| ==> chats[i].id != newChat.id
    ensures Tracks(WithNewChat(chats, newChat), newChat.id, newChat.messages)
  {
    var saved := WithNewChat(chats, newChat);
    forall i | 0 <= i < |saved| && saved[i].id == newChat.id
      ensures saved[i].messages == newChat.messages
    {
      if saved != chats {
        assert i == |chats|;
      }
    }
  }

  /** Once the chat is active, a message from the fourth on is written to every saved chat with its id. */
  lemma ActiveMessageTracks(t: Session, canPersist: bool, message: ChatMessage, newChatId: string)
    requires IsActive(t.chatId) && |t.messages| >= 3
    requires !canPersist ==> Tracks(t.savedChats, t.chatId.value, t.messages + [message])
    ensures Tracks(AfterAddMessage(t, canPersist, message, newChatId).savedChats, t.chatId.value, t.messages + [message])
  {
  }

  /** Some saved chat has this id. */
  predicate HasChat(chats: seq<Chat>, id: string) {
    exists i :: 0 <= i < |chats| && chats[i].id == id
  }

  /** Writing the messages of an id no saved chat has leaves the list as it is. */
  lemma WithMessagesAbsent(chats: seq<Chat>, id: string, messages: seq<ChatMessage>)
    requires !HasChat(chats, id)
    ensures WithMessages(chats, id, messages) == chats
  {
    var updated := WithMessages(chats, id, messages);
    forall i | 0 <= i < |chats|
      ensures updated[i] == chats[i]
    {
      assert chats[i].id != id;
    }
  }

  /**
   * A conversation started from an empty session, once it has four or more
   * messages, stays attached to the chat created at the fourth; every saved
   * chat with that (fresh) id holds the whole conversation, and such a chat
   * exists when the user can save and the first four messages were new.
   */
  lemma {:induction false} ConversationSaved(s: Session, canPersist: bool, messages: seq<ChatMessage>, newIds: seq<string>)
    requires s.messages == [] && !IsActive(s.chatId)
    requires |newIds| == |messages| >= 4
    requires newIds[3] != ""
    requires forall i :: 0 <= i < |s.savedChats| ==> s.savedChats[i].id != newIds[3]
    ensures AfterMessages(s, canPersist, messages, newIds).chatId == Some(newIds[3])
    ensures !canPersist ==> AfterMessages(s, canPersist, messages, newIds).savedChats == s.savedChats
    ensures Tracks(AfterMessages(s, canPersist, messages, newIds).savedChats, newIds[3], messages)
    ensures canPersist && !HasDuplicate(s.savedChats, messages[..4])
      ==> HasChat(AfterMessages(s, canPersist, messages, newIds).savedChats, newIds[3])
  {
    var n := |messages| - 1;
    if n == 3 {
      ChatSavedAtFour(s, canPersist, messages, newIds);
    } else {
      assert messages[..n][..4] == messages[..4] && newIds[..n][3] == newIds[3];
      ConversationSaved(s, canPersist, messages[..n], newIds[..n]);
      ConversationSavedStep(s, canPersist, messages, newIds);
    }
  }

  /** The fourth message of a fresh conversation saves it as a chat unless it repeats a saved one. */
  lemma ChatSavedAtFour(s: Session, canPersist: bool, messages: seq<ChatMessage>, newIds: seq<string>)
    requires s.messages == [] && !IsActive(s.chatId)
    requires |newIds| == |messages| == 4
    requires forall i :: 0 <= i < |s.savedChats| ==> s.savedChats[i].id != newIds[3]
    ensures AfterMessages(s, canPersist, messages, newIds).chatId == Some(newIds[3])
    ensures Tracks(AfterMessages(s, canPersist, messages, newIds).savedChats, newIds[3], messages)
    ensures canPersist && !HasDuplicate(s.savedChats, messages[..4])
      ==> HasChat(AfterMessages(s, canPersist, messages, newIds).savedChats, newIds[3])
  {
    ConversationCreated(s, canPersist, messages, newIds);
    assert messages[..4] == messages;
    if canPersist {
      var newChat := Chat(newIds[3], messages[0].content, messages);
      CreatedChatTracks(s.savedChats, newChat);
      if !HasDuplicate(s.savedChats, messages) {
        assert WithNewChat(s.savedChats, newChat)[|s.savedChats|] == newChat;
      }
    }
  }

  /** The step of `ConversationSaved`: what holds after all but the last message holds after all of them. */
  lemma ConversationSavedStep(s: Session, canPersist: bool, messages: seq<ChatMessage>, newIds: seq<string>)
    requires s.messages == [] && |newIds| == |messages| > 4
    requires newIds[3] != ""
    requires forall i :: 0 <= i < |s.savedChats| ==> s.savedChats[i].id != newIds[3]
    requires var before := AfterMessages(s, canPersist, messages[..|messages| - 1], newIds[..|messages| - 1]);
      && before.chatId == Some(newIds[3])
      && Tracks(before.savedChats, newIds[3], messages[..|messages| - 1])
      && (canPersist && !HasDuplicate(s.savedChats, messages[..4]) ==> HasChat(before.savedChats, newIds[3]))
    ensures AfterMessages(s, canPersist, messages, newIds).chatId == Some(newIds[3])
    ensures Tracks(AfterMessages(s, canPersist, messages, newIds).savedChats, newIds[3], messages)
    ensures canPersist && !HasDuplicate(s.savedChats, messages[..4])
      ==> HasChat(AfterMessages(s, canPersist, messages, newIds).savedChats, newIds[3])
  {
    var n := |messages| - 1;
    var init, ids := messages[..n], newIds[..n];
    var before := AfterMessages(s, canPersist, init, ids);
    assert before.messages + [messages[n]] == messages by {
      MessagesAppended(s, canPersist, init, ids);
      assert init + [messages[n]] == messages;
    }
    SavedChatKept(before, canPersist, messages[n], newIds[n]);
  }

  /** A message added to an active conversation keeps its chat saved and tracking it. */
  lemma SavedChatKept(t: Session, canPersist: bool, message: ChatMessage, newChatId: string)
    requires IsActive(t.chatId) && |t.messages| >= 4
    requires Tracks(t.savedChats, t.chatId.value, t.messages)
    requires !canPersist ==> !HasChat(t.savedChats, t.chatId.value)
    ensures AfterAddMessage(t, canPersist, message, newChatId).chatId == t.chatId
    ensures Tracks(AfterAddMessage(t, canPersist, message, newChatId).savedChats, t.chatId.value, t.messages + [message])
    ensures HasChat(t.savedChats, t.chatId.value) ==> HasChat(AfterAddMessage(t, canPersist, message, newChatId).savedChats, t.chatId.value)
  {
    ActiveMessageTracks(t, canPersist, message, newChatId);
    if HasChat(t.savedChats, t.chatId.value) {
      var i :| 0 <= i < |t.savedChats| && t.savedChats[i].id == t.chatId.value;
      assert AfterAddMessage(t, canPersist, message, newChatId).savedChats[i].id == t.chatId.value;
    }
  }

  /**
   * When the first four messages repeat a saved chat's messages, the
   * conversation still takes the fresh id, but no saved chat ever has it:
   * the saved list never changes, and none of the conversation is written.
   */
  lemma {:induction false} DuplicateConversationNotSaved(s: Session, canPersist: bool, messages: seq<ChatMessage>, newIds: seq<string>)
    requires s.messages == [] && !IsActive(s.chatId)
    requires |newIds| == |messages| >= 4
    requires newIds[3] != ""
    requires forall i :: 0 <= i < |s.savedChats| ==> s.savedChats[i].id != newIds[3]
    requires HasDuplicate(s.savedChats, messages[..4])
    ensures AfterMessages(s, canPersist, messages, newIds).chatId == Some(newIds[3])
    ensures AfterMessages(s, canPersist, messages, newIds).savedChats == s.savedChats
    ensures !HasChat(AfterMessages(s, canPersist, messages, newIds).savedChats, newIds[3])
  {
    var n := |messages| - 1;
    if n == 3 {
      ConversationCreated(s, canPersist, messages, newIds);
      assert messages[..4] == messages;
    } else {
      var before := AfterMessages(s, canPersist, messages[..n], newIds[..n]);
      assert messages[..n][..4] == messages[..4];
      assert newIds[..n][3] == newIds[3];
      DuplicateConversationNotSaved(s, canPersist, messages[..n], newIds[..n]);
      MessagesAppended(s, canPersist, messages[..n], newIds[..n]);
      WithMessagesAbsent(before.savedChats, newIds[3], before.messages + [messages[n]]);
    }
  }

  // ---------------------------------------------------------------------------
  // ChatProvider
  // ---------------------------------------------------------------------------

  class ChatSession {
    var messages: seq<ChatMessage>
    var savedChats: seq<Chat>
    var chatId: Option<string>
    var isGekko: bool
    /** The user is signed in and has a user document, so reads and writes of saved chats take effect. */
    const canPersist: bool

    function State(): Session
      reads this
    {
      Session(messages, savedChats, chatId, isGekko)
    }

    /** The provider as first rendered, after `fetchSavedChats` has loaded the user's chats. */
    constructor (signedIn: bool, userChats: Option<seq<Chat>>)
      ensures canPersist == (signedIn && userChats.Some?)
      ensures State() == Session([], if canPersist then userChats.value else [], None, true)
    {
      canPersist := signedIn && userChats.Some?;
      messages := [];
      chatId := None;
      isGekko := true;
      savedChats := if signedIn && userChats.Some? then userChats.value else [];
    }

    method SaveNewChat(newChat: Chat)
      modifies this`savedChats
      ensures savedChats == if canPersist then WithNewChat(old(savedChats), newChat) else old(savedChats)
    {
      if !canPersist {
        return;
      }
      if HasDuplicate(savedChats, newChat.messages) {
        return;
      }
      savedChats := savedChats + [newChat];
    }

    method UpdateChatMessages(updatedMessages: seq<ChatMessage>)
      modifies this`savedChats
      ensures savedChats == PersistedChats(old(State()), canPersist, updatedMessages)
    {
      if !IsActive(chatId) || !canPersist {
        return;
      }
      savedChats := WithMessages(savedChats, chatId.value, updatedMessages);
    }

    method AddMessage(role: Role, content: string, newId: string, now: int, newChatId: string)
      modifies this
      ensures State() == AfterAddMessage(old(State()), canPersist, ChatMessage(newId, role, content, now), newChatId)
    {
      var newMessage := ChatMessage(newId, role, content, now);
      var updatedMessages := messages + [newMessage];
      if IsActive(chatId) {
        if |updatedMessages| >= 4 {
          UpdateChatMessages(updatedMessages);
        }
      } else if |updatedMessages| == 4 {
        var newChat := Chat(newChatId, updatedMessages[0].content, updatedMessages);
        chatId := Some(newChatId);
        SaveNewChat(newChat);
      }
      messages := updatedMessages;
    }

    method UpdateLastMessage(content: string)
      modifies this
      ensures messages == WithLastContent(old(messages), content)
      ensures savedChats == PersistedChats(old(State()), canPersist, messages)
      ensures chatId == old(chatId) && isGekko == old(isGekko)
    {
      var updatedMessages := messages;
      if |updatedMessages| > 0 && updatedMessages[|updatedMessages| - 1].role == Assistant {
        var lastMessage := updatedMessages[|updatedMessages| - 1];
        updatedMessages := updatedMessages[|updatedMessages| - 1 := lastMessage.(content := content)];
      }
      if IsActive(chatId) {
        UpdateChatMessages(updatedMessages);
      }
      messages := updatedMessages;
    }

    method ClearMessages()
      modifies this`messages, this`chatId
      ensures messages == [] && chatId == None
    {
      messages := [];
      chatId := None;
    }

    method LoadChat(chat: Chat)
      modifies this`messages, this`chatId
      ensures chatId == Some(chat.id) && messages == chat.messages
    {
      chatId := Some(chat.id);
      messages := chat.messages;
    }

    method ToggleGekkoStyle()
      modifies this`isGekko
      ensures isGekko == !old(isGekko)
    {
      isGekko := !isGekko;
    }
  }
}

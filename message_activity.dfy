/**
 * `MessageActivity`: the conversation screen. It reads the other user from its Intent
 * extras, looks up the chat of the two users (it never creates one, despite the name of
 * `retrieveOrCreateChatId`), lists the chat's messages in ascending timestamp order, and
 * sends the trimmed, non-empty input with two writes: the chat's three last-message
 * fields, and one new message in the chat's log.
 */
module MessageScreen {
  import opened Model
  import opened Firestore
  import opened ChatScan
  import opened Text

  /** The string extras of the Intent that starts `MessageActivity`; `None` is an absent extra. */
  datatype Extras = Extras(
    chatId: Option<string>,
    userId: Option<string>,
    username: Option<string>,
    profilePicBase64: Option<string>)

  /** How `sendMessageToUser` ends: both writes issued, nobody signed in (it returns),
      or the `lateinit chatId` still unset (reading it throws
      `UninitializedPropertyAccessException`, so nothing is written). */
  datatype SendOutcome = Sent | NotSignedIn | ChatIdUninitialized

  /** The two writes of `sendMessageToUser(text)` by `senderId` in chat `chatId`, each
      stamped with its own `Timestamp.now()`. */
  function Send(db: Db, chatId: string, senderId: string, text: string): (r: Db)
    requires Valid(db)
    ensures Valid(r)
    ensures chatId in db.chats ==>
      r.chats == db.chats[chatId := db.chats[chatId].(lastMessage := Some(text),
                                                      lastMessageTimestamp := Some(db.clock),
                                                      lastMessageSenderId := Some(senderId))]
    ensures chatId !in db.chats ==> r.chats == db.chats
    ensures LogOf(r, chatId) == LogOf(db, chatId) + [ChatMessageModel(text, senderId, db.clock + 1)]
    ensures forall id :: id != chatId ==> LogOf(r, id) == LogOf(db, id)
    ensures r.chatIds == db.chatIds && r.users == db.users && r.userIds == db.userIds
    ensures r.currentUser == db.currentUser && r.clock == db.clock + 2
  {
    var (d1, t1) := Now(db);
    var d2 := UpdateLastMessage(d1, chatId, text, t1, senderId);
    var (d3, t2) := Now(d2);
    assert StampedBefore(LogOf(d3, chatId), t2);
    AddMessage(d3, chatId, ChatMessageModel(text, senderId, t2))
  }

  /** `sendMessageToUser(text)` with the activity's current `chatId`. */
  function SendStep(db: Db, chatId: Option<string>, text: string): (r: (Db, SendOutcome))
    requires Valid(db)
    ensures Valid(r.0)
    ensures r.1 == Sent <==> db.currentUser.Some? && chatId.Some?
    ensures r.1 == Sent ==> r.0 == Send(db, chatId.value, db.currentUser.value, text)
    ensures r.1 != Sent ==> r.0 == db
    ensures r.1 == NotSignedIn <==> db.currentUser.None?
  {
    if db.currentUser.None? then (db, NotSignedIn)
    else if chatId.None? then (db, ChatIdUninitialized)
    else (Send(db, chatId.value, db.currentUser.value, text), Sent)
  }

  /** Sending changes only the three last-message fields of the chat record, as the app
      reads it back: participants, id and the rest are untouched. */
  lemma SendChangesOnlyLastMessage(db: Db, chatId: string, senderId: string, text: string)
    requires Valid(db) && chatId in db.chats
    ensures var before := ChatFromDoc(db.chats[chatId]);
            var after := ChatFromDoc(Send(db, chatId, senderId, text).chats[chatId]);
            && after.lastMessage == text
            && after.lastMessageTimestamp == Some(db.clock)
            && after.lastMessageSenderId == senderId
            && after == before.(lastMessage := text, lastMessageTimestamp := Some(db.clock),
                                lastMessageSenderId := senderId)
    ensures forall id :: id in db.chats && id != chatId ==>
              Send(db, chatId, senderId, text).chats[id] == db.chats[id]
  {
  }

  /** The sent text is the trimmed input, so it is never blank and has no surrounding
      whitespace: the send button never writes a blank message. */
  lemma SentTextIsTrimmed(db: Db, chatId: string, senderId: string, input: string)
    requires Valid(db)
    requires Trim(input) != []
    ensures var log := LogOf(Send(db, chatId, senderId, Trim(input)), chatId);
            && log[|log| - 1].message == Trim(input)
            && Trim(log[|log| - 1].message) == log[|log| - 1].message
            && !IsBlank(log[|log| - 1].message)
  {
    TrimIdempotent(input);
    TrimEmptyIffBlank(Trim(input));
  }

  /** After a send, the ordered message view is the earlier log followed by the new
      message, stamped with the second clock reading. */
  lemma SendAppendsToView(db: Db, chatId: string, u: string, text: string)
    requires Valid(db)
    ensures OrderByTimestamp(LogOf(Send(db, chatId, u, text), chatId)) ==
            LogOf(db, chatId) + [ChatMessageModel(text, u, db.clock + 1)]
  {
    StoredLogIsOrdered(Send(db, chatId, u, text), chatId);
  }

  lemma AppendTwo<T>(s: seq<T>, a: T, b: T)
    ensures (s + [a]) + [b] == s + [a, b]
  {
    assert [a] + [b] == [a, b];
  }

  /** Two sends in a row: the message view shows the first text then the second after
      what was there, and the chat's last message is the second text. */
  lemma TwoSendsInOrder(db: Db, chatId: string, u: string, first: string, second: string)
    requires Valid(db) && chatId in db.chats
    ensures var d := Send(Send(db, chatId, u, first), chatId, u, second);
            && OrderByTimestamp(LogOf(d, chatId)) ==
               LogOf(db, chatId) + [ChatMessageModel(first, u, db.clock + 1), ChatMessageModel(second, u, db.clock + 3)]
            && ChatFromDoc(d.chats[chatId]).lastMessage == second
  {
    var m1 := ChatMessageModel(first, u, db.clock + 1);
    var m2 := ChatMessageModel(second, u, db.clock + 3);
    var d1 := Send(db, chatId, u, first);
    assert LogOf(d1, chatId) == LogOf(db, chatId) + [m1];
    assert d1.clock == db.clock + 2 && chatId in d1.chats;
    var d := Send(d1, chatId, u, second);
    assert d.chats[chatId].lastMessage == Some(second);
    SendAppendsToView(d1, chatId, u, second);
    AppendTwo(LogOf(db, chatId), m1, m2);
  }

  /** The scenario "send hello, then world": the message view shows hello then world after
      what was there, and the chat's last message is "world". */
  lemma HelloThenWorld(db: Db, chatId: string, u: string)
    requires Valid(db) && chatId in db.chats
    ensures var d := Send(Send(db, chatId, u, "hello"), chatId, u, "world");
            && OrderByTimestamp(LogOf(d, chatId)) ==
               LogOf(db, chatId) + [ChatMessageModel("hello", u, db.clock + 1), ChatMessageModel("world", u, db.clock + 3)]
            && ChatFromDoc(d.chats[chatId]).lastMessage == "world"
  {
    TwoSendsInOrder(db, chatId, u, "hello", "world");
  }

  class MessageActivity {
    var chatId: Option<string>          // `lateinit var chatId`: None until assigned
    var otherUserId: Option<string>
    var username: string
    var profilePicBase64: string
    var sendEnabled: bool               // the send button's click listener is installed
    var messageInput: string            // the text of the input field
    var listeningTo: Option<string>     // the chat whose ordered message query the adapter runs

    constructor ()
      ensures chatId == None && otherUserId == None && username == "" && profilePicBase64 == ""
      ensures !sendEnabled && messageInput == "" && listeningTo == None
    {
      chatId, otherUserId, username, profilePicBase64 := None, None, "", "";
      sendEnabled, messageInput, listeningTo := false, "", None;
    }

    /** `setupChatRecyclerView`: with `chatId` unset it returns at once; otherwise the
        adapter listens to the chat's messages ordered by timestamp. */
    method SetupChatRecyclerView()
      modifies this`listeningTo
      ensures listeningTo == if chatId.Some? then chatId else old(listeningTo)
    {
      if chatId.None? { return; }
      listeningTo := chatId;
    }

    /** `retrieveOrCreateChatId`: the chats query and its success callback. The first chat
        listing both users becomes `chatId`; with none, `chatId` keeps its value. The store
        is only read, so no chat is ever created here. */
    method RetrieveOrCreateChatId(db: Db, currentUserId: string, otherUserId: string)
      requires Valid(db)
      modifies this`chatId, this`listeningTo
      ensures var found := FoundChatId(ChatsContaining(db, currentUserId), otherUserId);
              && chatId == (if found.Some? then found else old(chatId))
              && listeningTo == (if found.Some? then found else old(listeningTo))
    {
      var documents := ChatsContaining(db, currentUserId);
      var found := FindChatWith(documents, otherUserId);
      if found.Some? {
        chatId := found;
        SetupChatRecyclerView();
      }
    }

    /** `onCreate`: reads the extras (a missing `userId` aborts the setup; a missing
        `username` reads "Unknown", a missing picture ""), installs the send listener and,
        when someone is signed in, looks the chat up. The `chatId` extra is never read. */
    method OnCreate(db: Db, extras: Extras)
      requires Valid(db)
      modifies this
      ensures messageInput == old(messageInput)
      ensures extras.userId.None? ==>
        && chatId == old(chatId) && otherUserId == old(otherUserId) && username == old(username)
        && profilePicBase64 == old(profilePicBase64) && sendEnabled == old(sendEnabled)
        && listeningTo == old(listeningTo)
      ensures extras.userId.Some? ==>
        && otherUserId == extras.userId
        && username == extras.username.GetOr("Unknown")
        && profilePicBase64 == extras.profilePicBase64.GetOr("")
        && sendEnabled
        && chatId == (if db.currentUser.Some? && FoundChatId(ChatsContaining(db, db.currentUser.value), extras.userId.value).Some?
                      then FoundChatId(ChatsContaining(db, db.currentUser.value), extras.userId.value)
                      else old(chatId))
        && listeningTo == (if chatId.Some? then chatId else old(listeningTo))
    {
      if extras.userId.None? { return; }
      var other := extras.userId.value;
      otherUserId := Some(other);
      username := extras.username.GetOr("Unknown");
      profilePicBase64 := extras.profilePicBase64.GetOr("");
      SetupChatRecyclerView();
      sendEnabled := true;
      if db.currentUser.None? { return; }
      RetrieveOrCreateChatId(db, db.currentUser.value, other);
      SetupChatRecyclerView();
    }

    /** What the message list shows: nothing before the adapter is set up, then the chat's
        messages ordered by timestamp, which in a valid store is the order they were sent. */
    function MessageView(db: Db): (view: Option<seq<ChatMessageModel>>)
      reads this
      requires Valid(db)
      ensures view.Some? <==> listeningTo.Some?
      ensures view.Some? ==> view.value == LogOf(db, listeningTo.value)
      ensures view.Some? ==> SortedByTimestamp(view.value)
    {
      if listeningTo.None? then None
      else
        StoredLogIsOrdered(db, listeningTo.value);
        Some(OrderByTimestamp(LogOf(db, listeningTo.value)))
    }

    method InputChanged(text: string)
      modifies this`messageInput
      ensures messageInput == text
    {
      messageInput := text;
    }

    /** `sendMessageToUser(message)`. The input field is cleared when the chat update
        succeeds, which it does when the chat document exists. */
    method SendMessageToUser(db: Db, message: string) returns (db': Db, outcome: SendOutcome)
      requires Valid(db)
      modifies this`messageInput
      ensures (db', outcome) == SendStep(db, chatId, message)
      ensures messageInput == if outcome == Sent && chatId.value in db.chats then "" else old(messageInput)
    {
      if db.currentUser.None? { return db, NotSignedIn; }
      if chatId.None? { return db, ChatIdUninitialized; }
      db' := Send(db, chatId.value, db.currentUser.value, message);
      outcome := Sent;
      if chatId.value in db.chats { messageInput := ""; }
    }

    /** The send button: trims the input; an empty result sends nothing, anything else is
        passed to `sendMessageToUser`. Before the listener is installed, a click does nothing. */
    method OnSendClicked(db: Db) returns (db': Db, outcome: Option<SendOutcome>)
      requires Valid(db)
      modifies this`messageInput
      ensures Valid(db')
      ensures !sendEnabled || Trim(old(messageInput)) == [] ==>
        db' == db && outcome == None && messageInput == old(messageInput)
      ensures sendEnabled && Trim(old(messageInput)) != [] ==>
        var step := SendStep(db, chatId, Trim(old(messageInput)));
        && db' == step.0 && outcome == Some(step.1)
        && messageInput == (if step.1 == Sent && chatId.value in db.chats then "" else old(messageInput))
    {
      if !sendEnabled { return db, None; }
      var message := Trim(messageInput);
      if message == [] { return db, None; }
      var o;
      db', o := SendMessageToUser(db, message);
      outcome := Some(o);
    }
  }
}

/**
 * `ChatListFragment`: the live list of the signed-in user's chats. Each snapshot of the
 * query "chats whose participants contain me" clears the list and rebuilds it, one row
 * per document in snapshot order; each row's counterpart is its first participant other
 * than me, whose profile is fetched once and, when it arrives, fills in that row's
 * `username` and `profilePicBase64`.
 */
module ChatList {
  import opened Model
  import opened Firestore
  import opened MessageScreen
  import opened ChatScan
  import NewChat

  /** What the snapshot listener receives: an error, or a (possibly null) snapshot. */
  datatype SnapshotEvent =
    | SnapshotError(message: Option<string>)
    | Snapshot(documents: Option<seq<ChatDoc>>)

  /** A profile fetch issued while rebuilding: the rebuild it belongs to, the position of
      its row in the list of that rebuild, and the user whose profile it reads. */
  datatype ProfileRequest = ProfileRequest(generation: nat, index: nat, userId: string)

  /** Position of `participants.find { it != self }`. */
  function FirstOtherIndex(ps: seq<string>, self: string): (r: Option<nat>)
    ensures r.Some? ==> r.value < |ps| && ps[r.value] != self
    ensures r.Some? ==> forall j :: 0 <= j < r.value ==> ps[j] == self
    ensures r.None? ==> forall j :: 0 <= j < |ps| ==> ps[j] == self
  {
    if ps == [] then None
    else if ps[0] != self then Some(0)
    else
      match FirstOtherIndex(ps[1..], self)
      case Some(k) => Some(k + 1)
      case None => None
  }

  /** The counterpart of a chat: its first participant who is not `self`. */
  function Counterpart(ps: seq<string>, self: string): (r: Option<string>)
    ensures r.None? <==> forall j :: 0 <= j < |ps| ==> ps[j] == self
    ensures r.Some? ==> r.value != self && r.value in ps
    ensures r.Some? ==> exists k :: 0 <= k < |ps| && ps[k] == r.value && forall j :: 0 <= j < k ==> ps[j] == self
  {
    match FirstOtherIndex(ps, self)
    case Some(k) => Some(ps[k])
    case None => None
  }

  /** Enrichment `chat.username = ...; chat.profilePicBase64 = ...` from an existing profile
      document: the stored name or "Unknown User", the stored picture or "". No other
      field changes. */
  function WithProfile(chat: Chat, profile: UserDoc): (r: Chat)
    ensures r.username == profile.username.GetOr("Unknown User")
    ensures r.profilePicBase64 == Some(profile.profilePicBase64.GetOr(""))
    ensures r.(username := chat.username, profilePicBase64 := chat.profilePicBase64) == chat
  {
    chat.(username := profile.username.GetOr("Unknown User"),
          profilePicBase64 := Some(profile.profilePicBase64.GetOr("")))
  }

  /** The rows of a snapshot: one `toObject` record per document, in snapshot order. */
  function Rows(documents: seq<ChatDoc>): (rows: seq<Chat>)
    ensures |rows| == |documents|
    ensures forall i :: 0 <= i < |rows| ==> rows[i] == ChatFromDoc(documents[i])
  {
    seq(|documents|, i requires 0 <= i < |documents| => ChatFromDoc(documents[i]))
  }

  /** The profile fetches a rebuild issues, in row order: one for each row that has a
      counterpart, none for a row without. */
  function Requests(generation: nat, rows: seq<Chat>, self: string): (r: seq<ProfileRequest>)
    ensures forall k :: 0 <= k < |r| ==>
      && r[k].generation == generation && r[k].index < |rows|
      && Counterpart(rows[r[k].index].participants, self) == Some(r[k].userId)
    ensures forall i :: 0 <= i < |rows| && Counterpart(rows[i].participants, self).Some? ==>
      ProfileRequest(generation, i, Counterpart(rows[i].participants, self).value) in r
  {
    if rows == [] then []
    else
      var n := |rows| - 1;
      var front := Requests(generation, rows[..n], self);
      assert forall i :: 0 <= i < n ==> rows[..n][i] == rows[i];
      match Counterpart(rows[n].participants, self)
      case Some(other) => front + [ProfileRequest(generation, n, other)]
      case None => front
  }

  /** Reading one more document adds its row at the end. */
  lemma RowsSnoc(documents: seq<ChatDoc>, k: nat)
    requires k < |documents|
    ensures Rows(documents[..k + 1]) == Rows(documents[..k]) + [ChatFromDoc(documents[k])]
  {
    var front := Rows(documents[..k]);
    forall i | 0 <= i < k + 1
      ensures Rows(documents[..k + 1])[i] == (front + [ChatFromDoc(documents[k])])[i]
    {
      if i < k { assert documents[..k + 1][i] == documents[..k][i]; }
    }
  }

  /** One more row issues one more fetch at the end, when it has a counterpart. */
  lemma RequestsSnoc(generation: nat, rows: seq<Chat>, chat: Chat, self: string)
    ensures Requests(generation, rows + [chat], self) ==
              Requests(generation, rows, self) +
              (match Counterpart(chat.participants, self)
               case Some(other) => [ProfileRequest(generation, |rows|, other)]
               case None => [])
  {
    var all := rows + [chat];
    assert all[..|rows|] == rows;
    assert all[|all| - 1] == chat;
  }

  /** `navigateToChat`: re-reads the chat document, picks the counterpart from its stored
      participants and reads the counterpart's profile; only when all of these exist does
      it start the conversation screen, with "Unknown" for a missing name and "" for a
      missing picture. */
  function NavigateToChat(db: Db, chat: Chat): (r: Option<Extras>)
    ensures r.Some? <==>
      && db.currentUser.Some?
      && chat.chatId in db.chats
      && db.chats[chat.chatId].participants.Some?
      && Counterpart(db.chats[chat.chatId].participants.value, db.currentUser.value).Some?
      && Counterpart(db.chats[chat.chatId].participants.value, db.currentUser.value).value in db.users
    ensures r.Some? ==>
      var other := Counterpart(db.chats[chat.chatId].participants.value, db.currentUser.value).value;
      r.value == Extras(Some(chat.chatId), Some(other),
                        Some(db.users[other].username.GetOr("Unknown")),
                        Some(db.users[other].profilePicBase64.GetOr("")))
  {
    if db.currentUser.None? || chat.chatId !in db.chats then None
    else
      var participants := db.chats[chat.chatId].participants;
      if participants.None? then None
      else
        match Counterpart(participants.value, db.currentUser.value)
        case None => None
        case Some(other) =>
          match ProfileOf(db, other)
          case None => None
          case Some(profile) =>
            Some(Extras(Some(chat.chatId), Some(other), Some(profile.username.GetOr("Unknown")),
                        Some(profile.profilePicBase64.GetOr(""))))
  }

  /** A row whose `chatId` is empty (`document("")` throws in the app) never opens a
      conversation, because no chat is stored under the empty id. */
  lemma EmptyChatIdNeverOpens(db: Db, chat: Chat)
    requires Valid(db) && chat.chatId == ""
    ensures NavigateToChat(db, chat) == None
  {
  }

  /** A chat created by `startChat(a, b)` appears in `a`'s list with `b` as counterpart, and
      opening it from the list leads to that chat and to `b` (when `b` has a profile). */
  lemma CreatedChatOpensFromList(db: Db, a: string, b: string)
    requires Valid(db) && a != b && PairChat(db, a, b).None?
    requires db.currentUser == Some(a) && b in db.users
    ensures var r := NewChat.ResolveChat(db, a, b);
            var chat := ChatFromDoc(r.0.chats[r.1]);
            && ChatEntry(r.1, r.0.chats[r.1]) in ChatsContaining(r.0, a)
            && Counterpart(chat.participants, a) == Some(b)
            && NavigateToChat(r.0, chat).Some?
            && NavigateToChat(r.0, chat).value.chatId == Some(r.1)
            && NavigateToChat(r.0, chat).value.userId == Some(b)
  {
    var r := NewChat.ResolveChat(db, a, b);
    var ps := [a, b];
    assert FirstOtherIndex(ps[1..], a) == Some(0);
    assert Counterpart(ps, a) == Some(b);
  }

  class ChatListFragment {
    var chatList: seq<Chat>
    var noChatsShown: bool          // the "No Chats Available" text is visible
    var generation: nat             // rebuilds so far: identifies the row objects now shown
    var subscription: Option<string> // the user whose chats the snapshot listener follows

    constructor ()
      ensures chatList == [] && !noChatsShown && generation == 0 && subscription == None
    {
      chatList, noChatsShown, generation, subscription := [], false, 0, None;
    }

    /** `loadChats`: with nobody signed in it returns; otherwise it registers the snapshot
        listener for the signed-in user's chats. */
    method LoadChats(db: Db)
      modifies this`subscription
      ensures subscription == if db.currentUser.Some? then db.currentUser else old(subscription)
    {
      if db.currentUser.None? { return; }
      subscription := db.currentUser;
    }

    /** The snapshot listener. An error leaves everything as it was. Otherwise the list is
        cleared; a null or empty snapshot shows the empty state, any other rebuilds the list
        with one row per document, in order, whatever it held before, and issues one
        profile fetch per row that has a counterpart. */
    method OnSnapshot(event: SnapshotEvent) returns (requests: seq<ProfileRequest>)
      requires subscription.Some?
      modifies this`chatList, this`noChatsShown, this`generation
      ensures event.SnapshotError? ==>
        && chatList == old(chatList) && noChatsShown == old(noChatsShown)
        && generation == old(generation) && requests == []
      ensures event.Snapshot? ==> generation == old(generation) + 1
      ensures event.Snapshot? && (event.documents.None? || event.documents.value == []) ==>
        chatList == [] && noChatsShown && requests == []
      ensures event.Snapshot? && event.documents.Some? && event.documents.value != [] ==>
        && chatList == Rows(event.documents.value)
        && !noChatsShown
        && requests == Requests(generation, chatList, subscription.value)
    {
      if event.SnapshotError? { return []; }
      generation := generation + 1;
      chatList := [];
      requests := [];
      if event.documents.None? || event.documents.value == [] {
        noChatsShown := true;
        return;
      }
      noChatsShown := false;
      var documents := event.documents.value;
      var userId := subscription.value;
      for k := 0 to |documents|
        invariant generation == old(generation) + 1 && !noChatsShown
        invariant chatList == Rows(documents[..k])
        invariant requests == Requests(generation, chatList, userId)
      {
        var chat := ChatFromDoc(documents[k]);
        var otherUserId := Counterpart(chat.participants, userId);
        RowsSnoc(documents, k);
        RequestsSnoc(generation, chatList, chat, userId);
        if otherUserId.Some? {
          requests := requests + [ProfileRequest(generation, k, otherUserId.value)];
        }
        chatList := chatList + [chat];
      }
      assert documents[..|documents|] == documents;
    }

    /** The success callback of one profile fetch. A fetch from an earlier rebuild would
        mutate a `Chat` object no longer in the list, so the list does not change; a
        missing profile changes nothing; otherwise exactly that row is enriched. */
    method OnProfileFetched(request: ProfileRequest, profile: Option<UserDoc>)
      requires request.generation == generation ==> request.index < |chatList|
      modifies this`chatList
      ensures |chatList| == |old(chatList)|
      ensures chatList == if request.generation == generation && profile.Some?
                          then old(chatList)[request.index := WithProfile(old(chatList)[request.index], profile.value)]
                          else old(chatList)
    {
      if request.generation != generation || profile.None? { return; }
      chatList := chatList[request.index := WithProfile(chatList[request.index], profile.value)];
    }
  }
}

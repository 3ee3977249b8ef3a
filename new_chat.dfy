/**
 * `NewChatFragment`: the dialog listing every other user; picking one opens the first
 * existing chat of the two users, or creates a chat with participants `[me, them]`.
 */
module NewChat {
  import opened Model
  import opened Firestore
  import opened ChatScan
  import opened MessageScreen

  /** The record `createNewChat` stores under the fresh key `id`: the key again as
      `chatId`, the two participants in that order, an empty last message, and the
      creation time under the field the app calls "timestamp". */
  function NewChatDoc(id: string, self: string, other: string, t: int): ChatDoc {
    ChatDoc(Some(id), Some([self, other]), Some(""), Some(t), None, None)
  }

  /** `createNewChat`'s write: one new chat under a fresh id, in its place in document-id order. */
  function CreateChat(db: Db, self: string, other: string): (r: (Db, string))
    requires Valid(db)
    ensures Valid(r.0)
    ensures r.1 !in db.chats
    ensures r.0.chats == db.chats[r.1 := NewChatDoc(r.1, self, other, db.clock)]
    ensures r.0.chatIds == InsertId(db.chatIds, r.1)
    ensures r.0.messages == db.messages && r.0.users == db.users && r.0.userIds == db.userIds
    ensures r.0.currentUser == db.currentUser && r.0.clock == db.clock + 1
  {
    var id := FreshChatId(db);
    var (d, t) := Now(db);
    (SetChat(d, id, NewChatDoc(id, self, other, t)), id)
  }

  /** The store after `startChat` by `self` picking `other`, and the chat it opens: the
      first chat of the two in document-id order when there is one, with nothing written;
      otherwise exactly one new chat. */
  function ResolveChat(db: Db, self: string, other: string): (r: (Db, string))
    requires Valid(db)
    ensures Valid(r.0)
    ensures PairChat(db, self, other).Some? ==> r == (db, PairChat(db, self, other).value)
    ensures PairChat(db, self, other).None? ==>
      && r.1 !in db.chats
      && r.0.chats == db.chats[r.1 := NewChatDoc(r.1, self, other, db.clock)]
      && r.0.chatIds == InsertId(db.chatIds, r.1)
      && r.0.messages == db.messages && r.0.users == db.users && r.0.userIds == db.userIds
      && r.0.currentUser == db.currentUser && r.0.clock == db.clock + 1
  {
    ScanIsSymmetric(db, self, other);
    match FoundChatId(ChatsContaining(db, self), other)
    case Some(id) => (db, id)
    case None => CreateChat(db, self, other)
  }

  /** A created chat reads back with its key as `chatId`, participants `[self, other]`
      and an empty last message. */
  lemma CreatedChatReadsBack(db: Db, self: string, other: string)
    requires Valid(db) && PairChat(db, self, other).None?
    ensures var r := ResolveChat(db, self, other);
            && r.1 in r.0.chats
            && ChatFromDoc(r.0.chats[r.1]) == Chat(r.1, "", "", None, "", None, [self, other])
  {
  }

  /** A chat created for a pair that had none becomes the pair's first chat, named
      either way round. */
  lemma CreatedChatIsPairChat(db: Db, a: string, b: string)
    requires Valid(db) && PairChat(db, a, b).None?
    ensures var r := CreateChat(db, a, b);
            PairChat(r.0, a, b) == Some(r.1) && PairChat(r.0, b, a) == Some(r.1)
  {
    var r := CreateChat(db, a, b);
    var d := r.0;
    FirstChatOfPairFrame(db.chatIds, db.chats, r.1, NewChatDoc(r.1, a, b, db.clock), a, b);
    FirstChatOfPairInsert(db.chatIds, d.chats, r.1, a, b);
    FirstChatOfPairSymmetric(d.chatIds, d.chats, a, b);
  }

  /** Sequential reuse: once `startChat` has run for the pair, running it again from either
      side opens the same chat and writes nothing, so no second chat appears. */
  lemma ResolveChatIsStable(db: Db, a: string, b: string)
    requires Valid(db)
    ensures var r := ResolveChat(db, a, b);
            && ResolveChat(r.0, a, b) == r
            && ResolveChat(r.0, b, a) == r
  {
    FirstChatOfPairSymmetric(db.chatIds, db.chats, a, b);
    if PairChat(db, a, b).None? {
      CreatedChatIsPairChat(db, a, b);
    }
  }

  /** The Intent extras `openChat(chatId, otherUserId)` starts `MessageActivity` with, or
      `None` when the other user's document does not exist (`toObject` gives null). */
  function OpenChatTarget(db: Db, chatId: string, otherUserId: string): (r: Option<Extras>)
    ensures r.Some? <==> otherUserId in db.users
    ensures r.Some? ==>
      var u := UserFromDoc(db.users[otherUserId]);
      r.value == Extras(Some(chatId), Some(u.userId), Some(u.username), Some(u.profilePicBase64))
  {
    match ProfileOf(db, otherUserId)
    case None => None
    case Some(doc) =>
      var u := UserFromDoc(doc);
      Some(Extras(Some(chatId), Some(u.userId), Some(u.username), Some(u.profilePicBase64)))
  }

  /** The users `loadUsers` keeps: everyone whose `userId` differs from `self`, in fetch order. */
  function ExceptSelf(users: seq<User>, self: string): (r: seq<User>)
    ensures |r| <= |users|
    ensures forall u :: u in r <==> u in users && u.userId != self
  {
    if users == [] then []
    else
      var last := users[|users| - 1];
      var front := users[..|users| - 1];
      assert users == front + [last];
      ExceptSelf(front, self) + (if last.userId != self then [last] else [])
  }

  /** Filtering keeps fetch order: it distributes over concatenation. */
  lemma {:induction false} ExceptSelfAppend(a: seq<User>, b: seq<User>, self: string)
    ensures ExceptSelf(a + b, self) == ExceptSelf(a, self) + ExceptSelf(b, self)
  {
    if b != [] {
      var front := b[..|b| - 1];
      assert (a + b)[..|a + b| - 1] == a + front;
      assert b[..|b| - 1] == front;
      ExceptSelfAppend(a, front, self);
    } else {
      assert a + b == a;
    }
  }

  /** The fetched user documents as `User` records. */
  function FetchedUsers(db: Db): (r: seq<User>)
    requires Valid(db)
    ensures |r| == |db.userIds|
    ensures forall i :: 0 <= i < |r| ==> r[i] == UserFromDoc(db.users[db.userIds[i]])
  {
    var documents := UserDocuments(db);
    seq(|documents|, i requires 0 <= i < |documents| => UserFromDoc(documents[i]))
  }

  class NewChatFragment {
    var userList: seq<User>
    var launched: Option<Extras>   // the Intent of the MessageActivity this dialog started
    var dismissed: bool

    constructor ()
      ensures userList == [] && launched == None && !dismissed
    {
      userList, launched, dismissed := [], None, false;
    }

    /** `loadUsers` and its success callback: the list is cleared, then refilled with every
        fetched user but the signed-in one, so repeated loads never accumulate entries. */
    method LoadUsers(db: Db)
      requires Valid(db)
      modifies this`userList
      ensures db.currentUser.None? ==> userList == old(userList)
      ensures db.currentUser.Some? ==> userList == ExceptSelf(FetchedUsers(db), db.currentUser.value)
    {
      if db.currentUser.None? { return; }
      var currentUserId := db.currentUser.value;
      var users := FetchedUsers(db);
      userList := [];
      for k := 0 to |users|
        invariant userList == ExceptSelf(users[..k], currentUserId)
      {
        assert users[..k + 1][..k] == users[..k];
        if users[k].userId != currentUserId {
          userList := userList + [users[k]];
        }
      }
      assert users[..|users|] == users;
    }

    /** `openChat`: starts the conversation screen and closes the dialog when the other
        user's document exists; otherwise only a toast is shown. */
    method OpenChat(db: Db, chatId: string, otherUserId: string)
      modifies this`launched, this`dismissed
      ensures var t := OpenChatTarget(db, chatId, otherUserId);
              && launched == (if t.Some? then t else old(launched))
              && dismissed == (t.Some? || old(dismissed))
    {
      var target := OpenChatTarget(db, chatId, otherUserId);
      if target.Some? {
        launched := target;
        dismissed := true;
      }
    }

    /** `createNewChat`: writes the new chat, then opens it. */
    method CreateNewChat(db: Db, user: User) returns (db': Db)
      requires Valid(db)
      modifies this`launched, this`dismissed
      ensures Valid(db')
      ensures db.currentUser.None? ==> db' == db && launched == old(launched) && dismissed == old(dismissed)
      ensures db.currentUser.Some? ==>
        var r := CreateChat(db, db.currentUser.value, user.userId);
        var t := OpenChatTarget(r.0, r.1, user.userId);
        && db' == r.0
        && launched == (if t.Some? then t else old(launched))
        && dismissed == (t.Some? || old(dismissed))
    {
      if db.currentUser.None? { return db; }
      var r := CreateChat(db, db.currentUser.value, user.userId);
      db' := r.0;
      OpenChat(db', r.1, user.userId);
    }

    /** `startChat` and its query callback: scan the signed-in user's chats for the first one
        that lists `user`; open it, or create a new chat when there is none. */
    method StartChat(db: Db, user: User) returns (db': Db)
      requires Valid(db)
      modifies this`launched, this`dismissed
      ensures Valid(db')
      ensures db.currentUser.None? ==> db' == db && launched == old(launched) && dismissed == old(dismissed)
      ensures db.currentUser.Some? ==>
        var r := ResolveChat(db, db.currentUser.value, user.userId);
        var t := OpenChatTarget(r.0, r.1, user.userId);
        && db' == r.0
        && launched == (if t.Some? then t else old(launched))
        && dismissed == (t.Some? || old(dismissed))
    {
      if db.currentUser.None? { return db; }
      var currentUserId := db.currentUser.value;
      var documents := ChatsContaining(db, currentUserId);
      var found := FindChatWith(documents, user.userId);
      if found.Some? {
        OpenChat(db, found.value, user.userId);
        return db;
      }
      db' := CreateNewChat(db, user);
    }
  }
}

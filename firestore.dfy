/**
 * The remote document store and the signed-in account as an in-memory value.
 *
 * `chats` and `users` are the two collections, keyed by document id; `chatIds` and
 * `userIds` list the keys in ascending document-id order, the order in which a query
 * without `orderBy` delivers its documents. `messages` holds each chat's `messages` sub-collection. `currentUser` is
 * `FirebaseAuth.currentUser?.uid`. `clock` stands for `Timestamp.now()` (and
 * `System.currentTimeMillis()`): every reading advances it, so readings strictly increase.
 */
module Firestore {
  import opened Model

  datatype Db = Db(
    chatIds: seq<string>,
    chats: map<string, ChatDoc>,
    messages: map<string, seq<ChatMessageModel>>,
    userIds: seq<string>,
    users: map<string, UserDoc>,
    currentUser: Option<string>,
    clock: int)

  /** One document of a chat query result: its document id and its contents. */
  datatype ChatEntry = ChatEntry(id: string, doc: ChatDoc)

  // ---------------------------------------------------------------- document-id order

  /** Firestore's order of document ids: lexicographic, character by character, with a
      proper prefix first. */
  predicate IdBefore(a: string, b: string) {
    if a == [] then b != []
    else if b == [] then false
    else if a[0] != b[0] then a[0] < b[0]
    else IdBefore(a[1..], b[1..])
  }

  lemma {:induction false} IdBeforeIrreflexive(a: string)
    ensures !IdBefore(a, a)
  {
    if a != [] {
      IdBeforeIrreflexive(a[1..]);
    }
  }

  lemma {:induction false} IdBeforeTransitive(a: string, b: string, c: string)
    requires IdBefore(a, b) && IdBefore(b, c)
    ensures IdBefore(a, c)
  {
    if a != [] && a[0] == b[0] && b[0] == c[0] {
      IdBeforeTransitive(a[1..], b[1..], c[1..]);
    }
  }

  /** Any two different ids are ordered one way or the other. */
  lemma {:induction false} IdBeforeTotal(a: string, b: string)
    requires a != b
    ensures IdBefore(a, b) || IdBefore(b, a)
  {
    if a != [] && b != [] && a[0] == b[0] {
      assert a == [a[0]] + a[1..] && b == [b[0]] + b[1..];
      IdBeforeTotal(a[1..], b[1..]);
    }
  }

  /** Keys strictly ascending in document-id order. */
  ghost predicate IdOrdered(s: seq<string>) {
    forall i, j :: 0 <= i < j < |s| ==> IdBefore(s[i], s[j])
  }

  ghost predicate Distinct(s: seq<string>) {
    forall i, j :: 0 <= i < j < |s| ==> s[i] != s[j]
  }

  /** Keys in document-id order are each listed once. */
  lemma OrderedIdsAreDistinct(s: seq<string>)
    requires IdOrdered(s)
    ensures Distinct(s)
  {
    forall i, j | 0 <= i < j < |s| ensures s[i] != s[j] {
      IdBeforeIrreflexive(s[i]);
    }
  }

  /** The key list once the document `x` exists: `x` in its place in document-id order. */
  function InsertId(s: seq<string>, x: string): (r: seq<string>)
    ensures multiset(r) == multiset(s) + multiset{x}
  {
    if s == [] then [x]
    else if IdBefore(x, s[0]) then [x] + s
    else
      assert s == [s[0]] + s[1..];
      [s[0]] + InsertId(s[1..], x)
  }

  lemma {:induction false} InsertIdOrdered(s: seq<string>, x: string)
    requires IdOrdered(s) && x !in s
    ensures IdOrdered(InsertId(s, x))
    ensures forall y :: y in InsertId(s, x) <==> y in s || y == x
  {
    var r := InsertId(s, x);
    forall y ensures y in r <==> y in s || y == x {
      assert y in r <==> y in multiset(r);
      assert y in s <==> y in multiset(s);
    }
    if s == [] {
    } else if IdBefore(x, s[0]) {
      forall j | 0 < j < |s| ensures IdBefore(x, s[j]) {
        IdBeforeTransitive(x, s[0], s[j]);
      }
    } else {
      IdBeforeTotal(x, s[0]);
      var rest := InsertId(s[1..], x);
      InsertIdOrdered(s[1..], x);
      forall k | 0 <= k < |rest| ensures IdBefore(s[0], rest[k]) {
        assert rest[k] in rest;
        if rest[k] != x {
          var j :| 0 <= j < |s[1..]| && s[1..][j] == rest[k];
          assert s[j + 1] == rest[k];
        }
      }
      assert r == [s[0]] + rest;
    }
  }

  /** Timestamps strictly increase along the log. */
  ghost predicate Ascending(log: seq<ChatMessageModel>) {
    forall i, j :: 0 <= i < j < |log| ==> log[i].timestamp < log[j].timestamp
  }

  /** Every timestamp in the log is below `t`. */
  ghost predicate StampedBefore(log: seq<ChatMessageModel>, t: int) {
    forall i :: 0 <= i < |log| ==> log[i].timestamp < t
  }

  /** The store's consistency: the key lists hold exactly the keys, in document-id order,
      no chat is stored under the empty id (Firestore refuses it), and every message log is in ascending timestamp order with every timestamp an
      earlier clock reading. */
  ghost predicate Valid(db: Db) {
    && IdOrdered(db.chatIds)
    && (forall id :: id in db.chatIds <==> id in db.chats)
    && "" !in db.chats
    && IdOrdered(db.userIds)
    && (forall id :: id in db.userIds <==> id in db.users)
    && (forall id :: id in db.messages ==> Ascending(db.messages[id]) && StampedBefore(db.messages[id], db.clock))
  }

  /** `Timestamp.now()`: the current reading, and the store with the clock advanced. */
  function Now(db: Db): (r: (Db, int))
    ensures r.1 == db.clock && r.0 == db.(clock := db.clock + 1)
    ensures Valid(db) ==> Valid(r.0)
  {
    (db.(clock := db.clock + 1), db.clock)
  }

  /** The messages sub-collection of a chat; an absent one reads as empty. */
  function LogOf(db: Db, chatId: string): (log: seq<ChatMessageModel>)
    ensures chatId !in db.messages ==> log == []
    ensures chatId in db.messages ==> log == db.messages[chatId]
  {
    if chatId in db.messages then db.messages[chatId] else []
  }

  // ---------------------------------------------------------------- ids

  function MaxLength(ids: seq<string>): (n: nat)
    ensures forall i :: 0 <= i < |ids| ==> |ids[i]| <= n
  {
    if ids == [] then 0
    else
      var m := MaxLength(ids[1..]);
      if |ids[0]| > m then |ids[0]| else m
  }

  /** `collection("chats").document().id`: an id of no existing chat document. */
  function FreshChatId(db: Db): (id: string)
    requires Valid(db)
    ensures id !in db.chats && id != ""
  {
    var id := seq(MaxLength(db.chatIds) + 1, _ => 'c');
    assert forall i :: 0 <= i < |db.chatIds| ==> db.chatIds[i] != id;
    id
  }

  // ---------------------------------------------------------------- writes

  /** `collection("chats").document(id).set(doc)`: creates the document, which takes its
      place in document-id order, or replaces it when it exists. An empty id names no
      document (`document("")` throws), so none is written under it. */
  function SetChat(db: Db, id: string, doc: ChatDoc): (r: Db)
    requires Valid(db) && id != ""
    ensures Valid(r)
    ensures r.chats == db.chats[id := doc]
    ensures r.chatIds == if id in db.chats then db.chatIds else InsertId(db.chatIds, id)
    ensures r.messages == db.messages && r.users == db.users && r.userIds == db.userIds
    ensures r.currentUser == db.currentUser && r.clock == db.clock
  {
    if id in db.chats then db.(chats := db.chats[id := doc])
    else
      InsertIdOrdered(db.chatIds, id);
      db.(chats := db.chats[id := doc], chatIds := InsertId(db.chatIds, id))
  }

  /** `collection("chats").document(id).update(lastMessage, lastMessageTimestamp,
      lastMessageSenderId)`: overwrites those three fields of an existing document;
      on a document that does not exist Firestore reports failure and writes nothing. */
  function UpdateLastMessage(db: Db, id: string, text: string, t: int, senderId: string): (r: Db)
    requires Valid(db)
    ensures Valid(r)
    ensures id in db.chats ==>
      r.chats == db.chats[id := db.chats[id].(lastMessage := Some(text),
                                              lastMessageTimestamp := Some(t),
                                              lastMessageSenderId := Some(senderId))]
    ensures id !in db.chats ==> r.chats == db.chats
    ensures r.chatIds == db.chatIds && r.messages == db.messages && r.users == db.users
    ensures r.userIds == db.userIds && r.currentUser == db.currentUser && r.clock == db.clock
  {
    if id in db.chats then
      db.(chats := db.chats[id := db.chats[id].(lastMessage := Some(text),
                                                lastMessageTimestamp := Some(t),
                                                lastMessageSenderId := Some(senderId))])
    else db
  }

  /** `collection("chats").document(id).collection("messages").add(m)`: appends to the
      sub-collection, which exists independently of the parent document. The log stays
      ordered when `m` is stamped after everything in it and before the clock. */
  function AddMessage(db: Db, id: string, m: ChatMessageModel): (r: Db)
    ensures r.messages == db.messages[id := LogOf(db, id) + [m]]
    ensures r.chats == db.chats && r.chatIds == db.chatIds && r.users == db.users
    ensures r.userIds == db.userIds && r.currentUser == db.currentUser && r.clock == db.clock
    ensures Valid(db) && StampedBefore(LogOf(db, id), m.timestamp) && m.timestamp < db.clock ==> Valid(r)
  {
    db.(messages := db.messages[id := LogOf(db, id) + [m]])
  }

  /** `collection("users").document(uid).set(doc)`. */
  function SetUser(db: Db, uid: string, doc: UserDoc): (r: Db)
    requires Valid(db)
    ensures Valid(r)
    ensures r.users == db.users[uid := doc]
    ensures r.userIds == if uid in db.users then db.userIds else InsertId(db.userIds, uid)
    ensures r.chats == db.chats && r.chatIds == db.chatIds && r.messages == db.messages
    ensures r.currentUser == db.currentUser && r.clock == db.clock
  {
    if uid in db.users then db.(users := db.users[uid := doc])
    else
      InsertIdOrdered(db.userIds, uid);
      db.(users := db.users[uid := doc], userIds := InsertId(db.userIds, uid))
  }

  // ---------------------------------------------------------------- queries

  /** `whereArrayContains("participants", uid)` matches this document. */
  predicate ListsParticipant(doc: ChatDoc, uid: string) {
    doc.participants.Some? && uid in doc.participants.value
  }

  /** The documents among `ids` that list `uid`, in the order of `ids`. */
  function Containing(ids: seq<string>, chats: map<string, ChatDoc>, uid: string): (r: seq<ChatEntry>)
    requires forall id :: id in ids ==> id in chats
    ensures |r| <= |ids|
    ensures forall k :: 0 <= k < |r| ==> r[k].id in ids && r[k].doc == chats[r[k].id] && ListsParticipant(r[k].doc, uid)
    ensures forall i :: 0 <= i < |ids| && ListsParticipant(chats[ids[i]], uid) ==> ChatEntry(ids[i], chats[ids[i]]) in r
  {
    if ids == [] then []
    else
      var rest := Containing(ids[1..], chats, uid);
      assert forall i :: 1 <= i < |ids| ==> ids[i] == ids[1..][i - 1];
      if ListsParticipant(chats[ids[0]], uid) then [ChatEntry(ids[0], chats[ids[0]])] + rest else rest
  }

  /** Over keys in document-id order, the query result is in document-id order too. */
  lemma {:induction false} ContainingOrdered(ids: seq<string>, chats: map<string, ChatDoc>, uid: string)
    requires forall id :: id in ids ==> id in chats
    requires IdOrdered(ids)
    ensures forall k, l :: 0 <= k < l < |Containing(ids, chats, uid)| ==>
      IdBefore(Containing(ids, chats, uid)[k].id, Containing(ids, chats, uid)[l].id)
  {
    if ids != [] {
      var rest := Containing(ids[1..], chats, uid);
      ContainingOrdered(ids[1..], chats, uid);
      if ListsParticipant(chats[ids[0]], uid) {
        var r := [ChatEntry(ids[0], chats[ids[0]])] + rest;
        forall k | 0 <= k < |rest| ensures IdBefore(ids[0], rest[k].id) {
          var j :| 0 <= j < |ids[1..]| && ids[1..][j] == rest[k].id;
          assert ids[j + 1] == rest[k].id;
        }
        forall k, l | 0 <= k < l < |r| ensures IdBefore(r[k].id, r[l].id) {
          assert r[l] == rest[l - 1];
          if k > 0 { assert r[k] == rest[k - 1]; }
        }
      }
    }
  }

  /** `collection("chats").whereArrayContains("participants", uid).get()`: exactly the
      stored chats that list `uid`, each once, in document-id order. */
  function ChatsContaining(db: Db, uid: string): (r: seq<ChatEntry>)
    requires Valid(db)
    ensures forall k :: 0 <= k < |r| ==>
      r[k].id in db.chats && r[k].doc == db.chats[r[k].id] && ListsParticipant(r[k].doc, uid)
    ensures forall id :: id in db.chats && ListsParticipant(db.chats[id], uid) ==> ChatEntry(id, db.chats[id]) in r
    ensures forall k, l :: 0 <= k < l < |r| ==> IdBefore(r[k].id, r[l].id)
  {
    ContainingOrdered(db.chatIds, db.chats, uid);
    var r := Containing(db.chatIds, db.chats, uid);
    assert forall id :: id in db.chats ==> exists i :: 0 <= i < |db.chatIds| && db.chatIds[i] == id;
    r
  }

  /** `collection("users").get()`: every user document, in document-id order. */
  function UserDocuments(db: Db): (r: seq<UserDoc>)
    requires Valid(db)
    ensures |r| == |db.userIds|
    ensures forall i :: 0 <= i < |r| ==> r[i] == db.users[db.userIds[i]]
  {
    seq(|db.userIds|, i requires 0 <= i < |db.userIds| => db.users[db.userIds[i]])
  }

  /** `collection("users").document(uid).get()`: the document, or `None` when it does not exist. */
  function ProfileOf(db: Db, uid: string): (r: Option<UserDoc>)
    ensures r.Some? <==> uid in db.users
    ensures r.Some? ==> r.value == db.users[uid]
  {
    if uid in db.users then Some(db.users[uid]) else None
  }

  // ---------------------------------------------------------------- ordering

  ghost predicate SortedByTimestamp(s: seq<ChatMessageModel>) {
    forall i, j :: 0 <= i < j < |s| ==> s[i].timestamp <= s[j].timestamp
  }

  function InsertByTimestamp(m: ChatMessageModel, s: seq<ChatMessageModel>): (r: seq<ChatMessageModel>)
    ensures multiset(r) == multiset(s) + multiset{m}
  {
    if s == [] then [m]
    else if m.timestamp <= s[0].timestamp then [m] + s
    else
      assert s == [s[0]] + s[1..];
      [s[0]] + InsertByTimestamp(m, s[1..])
  }

  lemma {:induction false} InsertKeepsSorted(m: ChatMessageModel, s: seq<ChatMessageModel>)
    requires SortedByTimestamp(s)
    ensures SortedByTimestamp(InsertByTimestamp(m, s))
  {
    if s != [] && m.timestamp > s[0].timestamp {
      var rest := InsertByTimestamp(m, s[1..]);
      InsertKeepsSorted(m, s[1..]);
      forall k | 0 <= k < |rest| ensures s[0].timestamp <= rest[k].timestamp {
        assert rest[k] in multiset(rest);
        assert rest[k] == m || rest[k] in multiset(s[1..]);
      }
    }
  }

  /** `orderBy("timestamp", ASCENDING)`: the log in non-decreasing timestamp order
      (a stable sort; ties are left in log order). */
  function OrderByTimestamp(log: seq<ChatMessageModel>): (r: seq<ChatMessageModel>)
    ensures SortedByTimestamp(r)
    ensures multiset(r) == multiset(log)
  {
    if log == [] then []
    else
      assert log == [log[0]] + log[1..];
      InsertKeepsSorted(log[0], OrderByTimestamp(log[1..]));
      InsertByTimestamp(log[0], OrderByTimestamp(log[1..]))
  }

  /** On a log already in timestamp order the ordered query changes nothing. */
  lemma {:induction false} OrderOfSortedLog(log: seq<ChatMessageModel>)
    requires SortedByTimestamp(log)
    ensures OrderByTimestamp(log) == log
  {
    if log != [] {
      OrderOfSortedLog(log[1..]);
      assert log == [log[0]] + log[1..];
    }
  }

  /** In a valid store every message log reads back, through the ordered query, exactly
      in the order it was written. */
  lemma StoredLogIsOrdered(db: Db, chatId: string)
    requires Valid(db)
    ensures OrderByTimestamp(LogOf(db, chatId)) == LogOf(db, chatId)
  {
    OrderOfSortedLog(LogOf(db, chatId));
  }
}

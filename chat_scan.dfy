/**
 * The loop that `NewChatFragment.startChat` and `MessageActivity.retrieveOrCreateChatId`
 * both run over the result of "chats whose participants contain me": the first document
 * whose participant list is present and also holds the other user.
 */
module ChatScan {
  import opened Model
  import opened Firestore

  /** Position of the first entry whose participants are present and contain `other`. */
  function FirstChatIndex(entries: seq<ChatEntry>, other: string): (r: Option<nat>)
    ensures r.Some? ==> r.value < |entries| && ListsParticipant(entries[r.value].doc, other)
    ensures r.Some? ==> forall j :: 0 <= j < r.value ==> !ListsParticipant(entries[j].doc, other)
    ensures r.None? ==> forall j :: 0 <= j < |entries| ==> !ListsParticipant(entries[j].doc, other)
  {
    if entries == [] then None
    else if ListsParticipant(entries[0].doc, other) then Some(0)
    else
      match FirstChatIndex(entries[1..], other)
      case Some(k) => Some(k + 1)
      case None => None
  }

  /** The document id the scan settles on, if any. */
  function FoundChatId(entries: seq<ChatEntry>, other: string): (r: Option<string>)
  {
    match FirstChatIndex(entries, other)
    case Some(k) => Some(entries[k].id)
    case None => None
  }

  /** The scan itself: a loop over the query documents with an early return on the first
      chat that lists `other`; documents whose participants are missing are passed over. */
  method FindChatWith(entries: seq<ChatEntry>, other: string) returns (found: Option<string>)
    ensures found == FoundChatId(entries, other)
    ensures found.Some? <==> exists k :: 0 <= k < |entries| && ListsParticipant(entries[k].doc, other)
  {
    for k := 0 to |entries|
      invariant forall j :: 0 <= j < k ==> !ListsParticipant(entries[j].doc, other)
    {
      var participants := entries[k].doc.participants;
      if participants.Some? && other in participants.value {
        return Some(entries[k].id);
      }
    }
    return None;
  }

  /** The first chat, in document-id order, whose participants list both `a` and `b`. */
  function FirstChatOfPair(ids: seq<string>, chats: map<string, ChatDoc>, a: string, b: string): (r: Option<string>)
    requires forall id :: id in ids ==> id in chats
  {
    if ids == [] then None
    else if ListsParticipant(chats[ids[0]], a) && ListsParticipant(chats[ids[0]], b) then Some(ids[0])
    else FirstChatOfPair(ids[1..], chats, a, b)
  }

  function PairChat(db: Db, a: string, b: string): Option<string>
    requires Valid(db)
  {
    FirstChatOfPair(db.chatIds, db.chats, a, b)
  }

  /** Scanning `a`'s chats for `b` settles on the first chat of the pair in document-id order. */
  lemma {:induction false} ScanFindsFirstOfPair(ids: seq<string>, chats: map<string, ChatDoc>, a: string, b: string)
    requires forall id :: id in ids ==> id in chats
    ensures FoundChatId(Containing(ids, chats, a), b) == FirstChatOfPair(ids, chats, a, b)
  {
    if ids != [] {
      ScanFindsFirstOfPair(ids[1..], chats, a, b);
      var rest := Containing(ids[1..], chats, a);
      if ListsParticipant(chats[ids[0]], a) {
        var e := [ChatEntry(ids[0], chats[ids[0]])] + rest;
        assert e[1..] == rest;
      }
    }
  }

  lemma {:induction false} FirstChatOfPairSymmetric(ids: seq<string>, chats: map<string, ChatDoc>, a: string, b: string)
    requires forall id :: id in ids ==> id in chats
    ensures FirstChatOfPair(ids, chats, a, b) == FirstChatOfPair(ids, chats, b, a)
  {
    if ids != [] {
      FirstChatOfPairSymmetric(ids[1..], chats, a, b);
    }
  }

  /** The scan is symmetric: `a` looking for `b` and `b` looking for `a` settle on the same
      chat, the first of the pair in document-id order. */
  lemma ScanIsSymmetric(db: Db, a: string, b: string)
    requires Valid(db)
    ensures FoundChatId(ChatsContaining(db, a), b) == PairChat(db, a, b)
    ensures FoundChatId(ChatsContaining(db, b), a) == PairChat(db, a, b)
  {
    ScanFindsFirstOfPair(db.chatIds, db.chats, a, b);
    ScanFindsFirstOfPair(db.chatIds, db.chats, b, a);
    FirstChatOfPairSymmetric(db.chatIds, db.chats, a, b);
  }

  /** Writing a document that is not among `ids` does not change the first pair chat among them. */
  lemma {:induction false} FirstChatOfPairFrame(ids: seq<string>, chats: map<string, ChatDoc>, n: string, d: ChatDoc, a: string, b: string)
    requires forall id :: id in ids ==> id in chats
    requires n !in ids
    ensures FirstChatOfPair(ids, chats[n := d], a, b) == FirstChatOfPair(ids, chats, a, b)
  {
    if ids != [] {
      FirstChatOfPairFrame(ids[1..], chats, n, d, a, b);
    }
  }

  /** With no chat of the pair among `ids`, a new chat of the pair becomes the first,
      wherever its id falls in document-id order. */
  lemma {:induction false} FirstChatOfPairInsert(ids: seq<string>, chats: map<string, ChatDoc>, n: string, a: string, b: string)
    requires forall id :: id in ids ==> id in chats
    requires n in chats
    requires FirstChatOfPair(ids, chats, a, b) == None
    requires ListsParticipant(chats[n], a) && ListsParticipant(chats[n], b)
    ensures forall id :: id in InsertId(ids, n) ==> id in chats
    ensures FirstChatOfPair(InsertId(ids, n), chats, a, b) == Some(n)
  {
    var r := InsertId(ids, n);
    forall id | id in r ensures id in chats {
      assert id in multiset(r);
    }
    if ids != [] && !IdBefore(n, ids[0]) {
      FirstChatOfPairInsert(ids[1..], chats, n, a, b);
      assert r[1..] == InsertId(ids[1..], n);
    }
  }
}

/**
 * The records of the app's `model` package (`User`, `Chat`, `ChatMessageModel`),
 * the stored documents they are read from, and Firestore's `toObject` mapping
 * from a document to a record: a field the document lacks takes the data
 * class's default.
 */
module Model {

  datatype Option<+T> = None | Some(value: T) {
    /** Kotlin's `?:` operator: the value, or `default` when there is none. */
    function GetOr(default: T): T {
      match this
      case Some(v) => v
      case None => default
    }
  }

  /** `model/User.kt`: every field is a `val` (immutable) and defaults to "". */
  datatype User = User(
    userId: string,          // the Firebase Authentication uid, the user's unique identifier
    username: string,
    email: string,
    profilePicBase64: string, // unlike `Chat.profilePicBase64`, never null
    fcmToken: string)

  const DefaultUser: User := User("", "", "", "", "")

  /** A stored document of the `users` collection: `None` is a field the document does not hold. */
  datatype UserDoc = UserDoc(
    userId: Option<string>,
    username: Option<string>,
    email: Option<string>,
    profilePicBase64: Option<string>,
    fcmToken: Option<string>)

  const EmptyUserDoc: UserDoc := UserDoc(None, None, None, None, None)

  /** `document.toObject(User::class.java)` of an existing document. The stored key
      `fcmToken` does not name the property `FCMToken` (mapping is case-sensitive), so the
      record's token always keeps its default. */
  function UserFromDoc(d: UserDoc): (u: User)
    ensures u.userId == d.userId.GetOr(DefaultUser.userId)
    ensures u.username == d.username.GetOr(DefaultUser.username)
    ensures u.email == d.email.GetOr(DefaultUser.email)
    ensures u.profilePicBase64 == d.profilePicBase64.GetOr(DefaultUser.profilePicBase64)
    ensures u.fcmToken == DefaultUser.fcmToken
  {
    User(d.userId.GetOr(""), d.username.GetOr(""), d.email.GetOr(""),
         d.profilePicBase64.GetOr(""), "")
  }

  /** `model/Chat.kt`. Only `username` and `profilePicBase64` are `var`s; a datatype
      value is immutable, so "mutating" them is building the record anew with only
      those two fields replaced (see `ChatList.WithProfile`). */
  datatype Chat = Chat(
    chatId: string,
    username: string,                     // the counterpart's name (var)
    lastMessage: string,
    lastMessageTimestamp: Option<int>,    // nullable, default null
    lastMessageSenderId: string,
    profilePicBase64: Option<string>,     // the counterpart's picture (var), nullable, default null
    participants: seq<string>)            // user ids, default empty

  const DefaultChat: Chat := Chat("", "", "", None, "", None, [])

  /** A stored document of the `chats` collection. `createdAt` is the field the app calls
      "timestamp", written once at creation (in the app the decimal string of the
      wall-clock milliseconds; here the clock value). A `participants` value that is
      missing or not a list is `None`, which is what `get("participants") as? List<String>`
      yields. */
  datatype ChatDoc = ChatDoc(
    chatId: Option<string>,
    participants: Option<seq<string>>,
    lastMessage: Option<string>,
    createdAt: Option<int>,
    lastMessageTimestamp: Option<int>,
    lastMessageSenderId: Option<string>)

  const EmptyChatDoc: ChatDoc := ChatDoc(None, None, None, None, None, None)

  /** `document.toObject(Chat::class.java)`: the stored fields are copied, the rest take
      the defaults; `username` and `profilePicBase64` are never stored with a chat, so
      they always start at their defaults, and the "timestamp" field has no counterpart. */
  function ChatFromDoc(d: ChatDoc): (c: Chat)
    ensures c.chatId == d.chatId.GetOr(DefaultChat.chatId)
    ensures c.participants == d.participants.GetOr(DefaultChat.participants)
    ensures c.lastMessage == d.lastMessage.GetOr(DefaultChat.lastMessage)
    ensures c.lastMessageTimestamp == d.lastMessageTimestamp
    ensures c.lastMessageSenderId == d.lastMessageSenderId.GetOr(DefaultChat.lastMessageSenderId)
    ensures c.username == DefaultChat.username && c.profilePicBase64 == DefaultChat.profilePicBase64
  {
    Chat(d.chatId.GetOr(""), "", d.lastMessage.GetOr(""), d.lastMessageTimestamp,
         d.lastMessageSenderId.GetOr(""), None, d.participants.GetOr([]))
  }

  /** `model/ChatMessageModel.kt`: exactly three fields. Unlike `Chat.lastMessageTimestamp`
      the timestamp always holds a value; it is the key the message log is ordered by. */
  datatype ChatMessageModel = ChatMessageModel(message: string, senderId: string, timestamp: int)

  /** The no-argument constructor: empty text and sender, stamped with the current time. */
  function DefaultMessage(now: int): (m: ChatMessageModel)
    ensures m.message == "" && m.senderId == "" && m.timestamp == now
  {
    ChatMessageModel("", "", now)
  }

  /** The email and password handed to Firebase Authentication. */
  datatype Credentials = Credentials(email: string, password: string)

  /** An empty document reads as the default record. */
  lemma EmptyDocsReadAsDefaults()
    ensures UserFromDoc(EmptyUserDoc) == DefaultUser
    ensures ChatFromDoc(EmptyChatDoc) == DefaultChat
  {
  }
}

# chatapp core in Dafny

A model of the core of a one-to-one chat app for Android, which keeps its data in Firebase (Firestore and Authentication). The model covers:

- **Finding or creating the chat of two users** (`NewChatFragment.startChat`). The app queries "chats whose participants contain me" and scans the result for the first chat that also lists the other user. It opens that chat, or else writes a new one with participants `[me, them]` under a fresh id.
- **Sending messages** (`MessageActivity`). The input is trimmed, and a blank input sends nothing. A send makes two writes, each stamped with its own `Timestamp.now()`: the chat's last-message fields are updated, and one message is appended to the chat's `messages` sub-collection. The screen shows that sub-collection ordered by timestamp.
- **The live chat list** (`ChatListFragment`). Each snapshot clears the list and rebuilds it, one row per document. Each row's counterpart profile is fetched and written into that row. Tapping a row re-reads the chat and the profile, then opens the conversation.
- **Registration and login** (`RegisterViewModel`, `LoginViewModel`). Inputs are validated, Firebase Authentication is called, the new user's profile is stored, and one result is posted.
- **The records** `Chat`, `User` and `ChatMessageModel`, and how `toObject` reads a stored document into them.

How the model is built:

- **The store.** Firestore plus the signed-in account are one value, `Firestore.Db`:
  - `chats` and `users` are maps from document id to document;
  - `chatIds` and `userIds` hold the document ids in ascending document-id order (`Firestore.IdBefore`), the order in which a query without `orderBy` delivers its documents;
  - `messages` holds each chat's log;
  - `currentUser` is the signed-in uid;
  - `clock` models `Timestamp.now()`: each reading advances it.
- **The store's invariant.** `Firestore.Valid` says that each key list is in document-id order and holds exactly its collection's ids, and that every log is strictly ascending in time and stamped before the clock. Every chat and user write keeps it. A message append keeps it when the message is stamped after the log and before the clock, as every send's message is.
- **Documents.** Stored documents have optional fields (an absent field is `None`), because `toObject` gives a missing field its data-class default.
- **Screens and view models** are classes. Their methods take the store and return the new store, and each is specified by a pure function of the inputs.
- **What the network decides** is a parameter: the auth and write outcomes of registration and login, the chat list's snapshot events, and the profile a fetch delivers to `OnProfileFetched`. The other queries (`startChat`, `retrieveOrCreateChatId`, `loadUsers`, `openChat`, `navigateToChat`) are computed from the store with `Firestore.ChatsContaining`, `Firestore.UserDocuments` and `Firestore.ProfileOf`.

The model follows what the code does, also where the code's own names and comments suggest more:

- `sendMessageToUser` (`MessageActivity.kt:111-131`) has no checks of its own beyond the sign-in guard (`MessageActivity.kt:112`). An empty message is filtered only by the send button (`MessageActivity.kt:69-75`), and the sender is never checked to be a participant.
- Chat ids are not derived from the pair of users: `createNewChat` takes a random `document().id` (`NewChatFragment.kt:112`). `startChat` scans and then writes, with no create-if-absent step.
- `retrieveOrCreateChatId` never creates a chat (`MessageActivity.kt:85-106`), although its name and its doc comment (`MessageActivity.kt:82-84`) say that it does.
- `MessageActivity` never reads the `chatId` extra (`MessageActivity.kt:54-57` reads only `userId`, `username` and `profilePicBase64`), although `openChat` passes one (`NewChatFragment.kt:144`).

## Model

| member | source | states |
|---|---|---|
| Model.UserFromDoc | app/src/main/java/com/bujnakm/chatapp/model/User.kt:12-18 | `toObject(User)`: id, name, email and picture are copied when stored and default to ""; the token stays "", because the stored key `fcmToken` does not name the property `FCMToken` |
| Model.ChatFromDoc | app/src/main/java/com/bujnakm/chatapp/model/Chat.kt:16-24 | `toObject(Chat)`: stored fields are copied, missing ones take the defaults; `username` and `profilePicBase64` always start at "" and null |
| Model.DefaultMessage | app/src/main/java/com/bujnakm/chatapp/model/ChatMessageModel.kt:13-17 | the no-argument message has empty text and sender and the current time |
| Model.EmptyDocsReadAsDefaults | app/src/main/java/com/bujnakm/chatapp/model/Chat.kt:16-24 | an empty user or chat document reads as the default record |
| Text.IsWhitespace | app/src/main/java/com/bujnakm/chatapp/MessageActivity.kt:70 | `Char.isWhitespace`: among ASCII characters exactly space, tab, newline, carriage return and U+000B, U+000C, U+001C-U+001F; every whitespace character lies in the Basic Multilingual Plane |
| Text.BlankIffAllWhitespace | app/src/main/java/com/bujnakm/chatapp/viewmodel/LoginViewModel.kt:30 | `isBlank()` holds exactly when every character is whitespace, and a concatenation is blank exactly when both parts are |
| Text.LeadingBlanks | app/src/main/java/com/bujnakm/chatapp/viewmodel/RegisterViewModel.kt:40-42 | counts exactly the whitespace prefix: it is blank, and the next character is not whitespace |
| Text.TrailingBlanks | app/src/main/java/com/bujnakm/chatapp/viewmodel/RegisterViewModel.kt:40-42 | counts exactly the whitespace suffix |
| Text.Trim | app/src/main/java/com/bujnakm/chatapp/viewmodel/RegisterViewModel.kt:40-42 | `trim()` returns a contiguous slice of the input; the parts cut off are blank; the result neither starts nor ends with whitespace |
| Text.TrimEmptyIffBlank | app/src/main/java/com/bujnakm/chatapp/MessageActivity.kt:70-73 | trimming leaves nothing exactly when the input is blank, so the send button ignores exactly the blank inputs |
| Text.TrimmedBlankIffEmpty | app/src/main/java/com/bujnakm/chatapp/viewmodel/RegisterViewModel.kt:45 | `trim().isBlank()` equals `trim().isEmpty()` and holds exactly when the raw input is blank |
| Text.TrimIdempotent | app/src/main/java/com/bujnakm/chatapp/MessageActivity.kt:70 | trimming twice equals trimming once |
| Firestore.IdBeforeIrreflexive | app/src/main/java/com/bujnakm/chatapp/NewChatFragment.kt:61-62 | no document id comes before itself |
| Firestore.IdBeforeTransitive | app/src/main/java/com/bujnakm/chatapp/NewChatFragment.kt:61-62 | document-id order is transitive |
| Firestore.IdBeforeTotal | app/src/main/java/com/bujnakm/chatapp/NewChatFragment.kt:61-62 | of two different ids, one comes first, so the order a query delivers is determined by the ids |
| Firestore.OrderedIdsAreDistinct | app/src/main/java/com/bujnakm/chatapp/NewChatFragment.kt:61-62 | a key list in document-id order holds each id once |
| Firestore.InsertId | app/src/main/java/com/bujnakm/chatapp/NewChatFragment.kt:122-123 | a new document's id joins the key list, which gains exactly that one id |
| Firestore.InsertIdOrdered | app/src/main/java/com/bujnakm/chatapp/NewChatFragment.kt:122-123 | inserting a new id keeps the key list in document-id order, and the list then holds the old ids and the new one |
| Firestore.Now | app/src/main/java/com/bujnakm/chatapp/MessageActivity.kt:119 | a clock reading returns the current time, advances the clock, and keeps the store valid |
| Firestore.LogOf | app/src/main/java/com/bujnakm/chatapp/MessageActivity.kt:138-141 | a chat's messages sub-collection is empty when absent |
| Firestore.FreshChatId | app/src/main/java/com/bujnakm/chatapp/NewChatFragment.kt:112 | `document().id` is an id that no existing chat uses |
| Firestore.SetChat | app/src/main/java/com/bujnakm/chatapp/NewChatFragment.kt:122-123 | `set` creates or replaces that one document, inserts a new id in its place in document-id order, touches nothing else, and keeps the store valid |
| Firestore.UpdateLastMessage | app/src/main/java/com/bujnakm/chatapp/MessageActivity.kt:116-122 | `update` overwrites exactly the three last-message fields of an existing chat and leaves a missing chat absent |
| Firestore.AddMessage | app/src/main/java/com/bujnakm/chatapp/MessageActivity.kt:129-130 | `add` appends to the log whether or not the chat exists; a message stamped after the log and before the clock keeps the store valid |
| Firestore.SetUser | app/src/main/java/com/bujnakm/chatapp/viewmodel/RegisterViewModel.kt:66-67 | `set` stores the profile under the uid, inserts a new uid in its place in document-id order, touches nothing else, and keeps the store valid |
| Firestore.Containing | app/src/main/java/com/bujnakm/chatapp/NewChatFragment.kt:86-88 | `whereArrayContains` returns only listed documents that list the user, each with its own id, and leaves none of them out |
| Firestore.ContainingOrdered | app/src/main/java/com/bujnakm/chatapp/NewChatFragment.kt:86-88 | over a key list in document-id order, the query's result keeps that order |
| Firestore.ChatsContaining | app/src/main/java/com/bujnakm/chatapp/ChatListFragment.kt:67-68 | the same query over the whole store: every result is a stored chat listing the user, every stored chat listing the user is in the result, and the result is in ascending document-id order |
| Firestore.UserDocuments | app/src/main/java/com/bujnakm/chatapp/NewChatFragment.kt:61-62 | `users.get()` returns every user document, once, in document-id order |
| Firestore.ProfileOf | app/src/main/java/com/bujnakm/chatapp/NewChatFragment.kt:138-142 | fetching a user document returns a document exactly when one is stored under that id |
| Firestore.InsertByTimestamp | app/src/main/java/com/bujnakm/chatapp/MessageActivity.kt:142 | inserting into the ordered result adds exactly that one message |
| Firestore.InsertKeepsSorted | app/src/main/java/com/bujnakm/chatapp/MessageActivity.kt:142 | inserting keeps the result in timestamp order |
| Firestore.OrderByTimestamp | app/src/main/java/com/bujnakm/chatapp/MessageActivity.kt:138-142 | `orderBy("timestamp", ASCENDING)` returns a permutation of the log in non-decreasing timestamp order |
| Firestore.OrderOfSortedLog | app/src/main/java/com/bujnakm/chatapp/MessageActivity.kt:138-142 | on a log already in order, the ordered query returns the log itself |
| Firestore.StoredLogIsOrdered | app/src/main/java/com/bujnakm/chatapp/MessageActivity.kt:138-142 | in a valid store the ordered query returns every chat's messages in the order they were sent |
| ChatScan.FirstChatIndex | app/src/main/java/com/bujnakm/chatapp/NewChatFragment.kt:90-97 | the scan's stopping point is the first document that has a participants list containing the other user; with no such document, the scan finds nothing |
| ChatScan.FindChatWith | app/src/main/java/com/bujnakm/chatapp/MessageActivity.kt:93-101 | the loop with its early return finds that first document's id, and finds an id exactly when some document lists the other user |
| ChatScan.ScanFindsFirstOfPair | app/src/main/java/com/bujnakm/chatapp/NewChatFragment.kt:86-97 | scanning my chats for you finds the first chat in document-id order that lists us both |
| ChatScan.FirstChatOfPairSymmetric | app/src/main/java/com/bujnakm/chatapp/NewChatFragment.kt:90-97 | the first chat of a pair does not depend on the order the two users are named in |
| ChatScan.ScanIsSymmetric | app/src/main/java/com/bujnakm/chatapp/MessageActivity.kt:85-101 | my scan for you and your scan for me settle on the same chat |
| ChatScan.FirstChatOfPairFrame | app/src/main/java/com/bujnakm/chatapp/NewChatFragment.kt:122-123 | writing a new document does not change which of the older chats comes first for a pair |
| ChatScan.FirstChatOfPairInsert | app/src/main/java/com/bujnakm/chatapp/NewChatFragment.kt:114-123 | when a pair had no chat, the new chat of the two becomes their first chat, wherever its id falls in document-id order |
| MessageScreen.Send | app/src/main/java/com/bujnakm/chatapp/MessageActivity.kt:111-131 | a send sets the chat's last message, its time (the first clock reading) and its sender; it appends the message, stamped with the second reading, to that chat's log; other logs, users and key lists are unchanged; the store stays valid |
| MessageScreen.SendStep | app/src/main/java/com/bujnakm/chatapp/MessageActivity.kt:111-113 | both writes are issued exactly when someone is signed in and `chatId` is set, and then the store is `Send`'s for that chat, user and text; otherwise nothing changes, and the unset `lateinit` is told apart from being signed out |
| MessageScreen.SendChangesOnlyLastMessage | app/src/main/java/com/bujnakm/chatapp/MessageActivity.kt:116-122 | read back, the chat differs from before only in the last message, its time and its sender; other chats are untouched |
| MessageScreen.SentTextIsTrimmed | app/src/main/java/com/bujnakm/chatapp/MessageActivity.kt:69-75 | the stored message is the trimmed input: non-blank, and with no whitespace at either end |
| MessageScreen.SendAppendsToView | app/src/main/java/com/bujnakm/chatapp/MessageActivity.kt:125-142 | after a send, the ordered view is the earlier log followed by the new message |
| MessageScreen.TwoSendsInOrder | app/src/main/java/com/bujnakm/chatapp/MessageActivity.kt:111-142 | two sends in a row show both texts in send order after what was there, and leave the second as the chat's last message |
| MessageScreen.HelloThenWorld | app/src/main/java/com/bujnakm/chatapp/MessageActivity.kt:111-142 | sending "hello" then "world" appends both, in that order, to what the ordered view showed, and leaves "world" as the last message |
| MessageScreen.MessageActivity.constructor | app/src/main/java/com/bujnakm/chatapp/MessageActivity.kt:27-36 | starts with `chatId` unset, no adapter and the send listener not installed |
| MessageScreen.MessageActivity.SetupChatRecyclerView | app/src/main/java/com/bujnakm/chatapp/MessageActivity.kt:136-153 | with `chatId` unset nothing happens; otherwise the adapter follows that chat |
| MessageScreen.MessageActivity.RetrieveOrCreateChatId | app/src/main/java/com/bujnakm/chatapp/MessageActivity.kt:85-106 | `chatId` becomes the first chat of the pair, or keeps its value when there is none; the store is only read |
| MessageScreen.MessageActivity.OnCreate | app/src/main/java/com/bujnakm/chatapp/MessageActivity.kt:38-80 | a missing `userId` extra aborts the setup; otherwise: the defaults "Unknown" and ""; the send listener; the chat lookup only when signed in; the adapter set up for whatever `chatId` holds afterwards |
| MessageScreen.MessageActivity.MessageView | app/src/main/java/com/bujnakm/chatapp/MessageActivity.kt:136-153 | the list shows nothing until an adapter is set up, then that chat's log, which is in timestamp order |
| MessageScreen.MessageActivity.InputChanged | app/src/main/java/com/bujnakm/chatapp/MessageActivity.kt:46 | typing sets the input text |
| MessageScreen.MessageActivity.SendMessageToUser | app/src/main/java/com/bujnakm/chatapp/MessageActivity.kt:111-131 | computes `SendStep`; the input is cleared exactly when the chat update succeeds, that is when the chat exists |
| MessageScreen.MessageActivity.OnSendClicked | app/src/main/java/com/bujnakm/chatapp/MessageActivity.kt:69-75 | a blank input (or no listener yet) sends nothing and leaves the input; otherwise the trimmed text is sent, and the input is cleared exactly when the chat update succeeds |
| NewChat.CreateChat | app/src/main/java/com/bujnakm/chatapp/NewChatFragment.kt:110-123 | adds exactly one chat under a fresh id: participants `[me, them]`, an empty last message, the creation time; its id joins the key list in its place in document-id order; one clock reading is taken, and nothing else changes |
| NewChat.ResolveChat | app/src/main/java/com/bujnakm/chatapp/NewChatFragment.kt:82-101 | when the pair has a chat, `startChat` opens the first one in document-id order and writes nothing; otherwise it creates exactly one new chat, inserting its id in document-id order and reading the clock once |
| NewChat.CreatedChatReadsBack | app/src/main/java/com/bujnakm/chatapp/NewChatFragment.kt:114-119 | the created chat reads back with its own id, the two participants and empty texts |
| NewChat.CreatedChatIsPairChat | app/src/main/java/com/bujnakm/chatapp/NewChatFragment.kt:110-123 | a chat created for a pair that had none becomes the pair's first chat, whichever of the two is named first |
| NewChat.ResolveChatIsStable | app/src/main/java/com/bujnakm/chatapp/NewChatFragment.kt:82-101 | after one `startChat` for a pair, another from either user opens the same chat and writes nothing, so calls one after another never duplicate a chat |
| NewChat.OpenChatTarget | app/src/main/java/com/bujnakm/chatapp/NewChatFragment.kt:136-153 | the conversation is started exactly when the other user's document exists, with the chat id and that user's id, name and picture |
| NewChat.ExceptSelf | app/src/main/java/com/bujnakm/chatapp/NewChatFragment.kt:65-70 | keeps exactly the users whose id differs from mine |
| NewChat.ExceptSelfAppend | app/src/main/java/com/bujnakm/chatapp/NewChatFragment.kt:65-70 | the filter keeps fetch order: it distributes over concatenation |
| NewChat.FetchedUsers | app/src/main/java/com/bujnakm/chatapp/NewChatFragment.kt:61-66 | one `User` per stored user document, in document-id order |
| NewChat.NewChatFragment.constructor | app/src/main/java/com/bujnakm/chatapp/NewChatFragment.kt:20-24 | starts with an empty user list and nothing launched |
| NewChat.NewChatFragment.LoadUsers | app/src/main/java/com/bujnakm/chatapp/NewChatFragment.kt:58-76 | when signed out nothing changes; otherwise the list becomes exactly the other users in fetch order, whatever it held before |
| NewChat.NewChatFragment.OpenChat | app/src/main/java/com/bujnakm/chatapp/NewChatFragment.kt:136-158 | launches `OpenChatTarget` and dismisses the dialog when it exists; otherwise nothing is launched |
| NewChat.NewChatFragment.CreateNewChat | app/src/main/java/com/bujnakm/chatapp/NewChatFragment.kt:110-131 | when signed out nothing happens; otherwise `CreateChat`, then the new chat is opened |
| NewChat.NewChatFragment.StartChat | app/src/main/java/com/bujnakm/chatapp/NewChatFragment.kt:82-105 | the store becomes `ResolveChat`'s, and the chat it names is opened |
| ChatList.FirstOtherIndex | app/src/main/java/com/bujnakm/chatapp/ChatListFragment.kt:90 | `find { it != me }` stops at the first participant who is not me, or finds none when all are me |
| ChatList.Counterpart | app/src/main/java/com/bujnakm/chatapp/ChatListFragment.kt:90 | the counterpart is missing exactly when every participant is me; otherwise it is the first participant other than me |
| ChatList.WithProfile | app/src/main/java/com/bujnakm/chatapp/ChatListFragment.kt:97-103 | enrichment sets the name (default "Unknown User") and the picture (default "") and no other field |
| ChatList.Rows | app/src/main/java/com/bujnakm/chatapp/ChatListFragment.kt:87-111 | one row per snapshot document, the row read from that document, in snapshot order |
| ChatList.Requests | app/src/main/java/com/bujnakm/chatapp/ChatListFragment.kt:90-96 | a profile fetch is issued for a row exactly when the row has a counterpart, and it reads that counterpart |
| ChatList.NavigateToChat | app/src/main/java/com/bujnakm/chatapp/ChatListFragment.kt:138-184 | the conversation opens exactly when I am signed in, the chat exists and has participants, the counterpart exists and so does its profile; then it opens with the counterpart's name (default "Unknown") and picture (default "") |
| ChatList.EmptyChatIdNeverOpens | app/src/main/java/com/bujnakm/chatapp/ChatListFragment.kt:143-146 | a row with an empty `chatId` opens nothing |
| ChatList.CreatedChatOpensFromList | app/src/main/java/com/bujnakm/chatapp/ChatListFragment.kt:138-167 | a chat created by `startChat` is in the result of my chat-list query, shows the other user as its counterpart, and tapping it opens that chat with that user |
| ChatList.ChatListFragment.constructor | app/src/main/java/com/bujnakm/chatapp/ChatListFragment.kt:31 | starts with an empty list and no listener |
| ChatList.ChatListFragment.LoadChats | app/src/main/java/com/bujnakm/chatapp/ChatListFragment.kt:63-69 | the listener is registered for me only when I am signed in |
| ChatList.ChatListFragment.OnSnapshot | app/src/main/java/com/bujnakm/chatapp/ChatListFragment.kt:69-116 | an error changes nothing; a null or empty snapshot shows "No Chats" with an empty list; any other rebuilds the list as `Rows`, whatever it held, and issues `Requests` for that rebuild |
| ChatList.ChatListFragment.OnProfileFetched | app/src/main/java/com/bujnakm/chatapp/ChatListFragment.kt:96-107 | a fetch of the current rebuild enriches exactly its own row; one from an older rebuild, or a missing profile, changes nothing |
| Register.Interpolated | app/src/main/java/com/bujnakm/chatapp/viewmodel/RegisterViewModel.kt:73 | a string template shows a present message as itself and a null one as "null" |
| Register.AuthErrorMessage | app/src/main/java/com/bujnakm/chatapp/viewmodel/RegisterViewModel.kt:78-83 | each sign-up failure kind gets its fixed text; any other exception shows its message, or "Registration failed" when there is none |
| Register.RegisterStep | app/src/main/java/com/bujnakm/chatapp/viewmodel/RegisterViewModel.kt:39-88 | an input that is blank after trimming stops before sign-up; sign-up gets the trimmed email and password; each failure kind gets its message and writes nothing; success signs the user in, and stores the profile (inserting a new uid in document-id order), or reports the save failure with its message |
| Register.RegistrationSucceedsIffStored | app/src/main/java/com/bujnakm/chatapp/viewmodel/RegisterViewModel.kt:54-75 | success is reported exactly when the inputs are valid, the account is created and its profile is saved; the profile then reads back with the trimmed name and email |
| Register.StoredUserIsFetched | app/src/main/java/com/bujnakm/chatapp/NewChatFragment.kt:61-66 | every stored user document is among the users `loadUsers` fetches |
| Register.RegisteredUserIsListed | app/src/main/java/com/bujnakm/chatapp/viewmodel/RegisterViewModel.kt:59-67 | a newly registered user appears in every other user's new-chat list |
| Register.RegisterViewModel.constructor | app/src/main/java/com/bujnakm/chatapp/viewmodel/RegisterViewModel.kt:29-30 | no result has been posted |
| Register.RegisterViewModel.RegisterUser | app/src/main/java/com/bujnakm/chatapp/viewmodel/RegisterViewModel.kt:39-88 | computes `RegisterStep`; the posted result becomes the LiveData value, and the value is left alone when nothing is posted |
| Login.LoginStep | app/src/main/java/com/bujnakm/chatapp/viewmodel/LoginViewModel.kt:28-47 | a blank email or password stops before sign-in; sign-in gets the untrimmed input; success signs the user in, and failure reports its message (default "Login failed") and changes nothing |
| Login.LoginSucceedsIffSignedIn | app/src/main/java/com/bujnakm/chatapp/viewmodel/LoginViewModel.kt:30-45 | success is reported exactly when the inputs are not blank and sign-in succeeds; then that user is signed in; otherwise the store is unchanged |
| Login.LoginViewModel.constructor | app/src/main/java/com/bujnakm/chatapp/viewmodel/LoginViewModel.kt:19-20 | no result has been posted |
| Login.LoginViewModel.Login | app/src/main/java/com/bujnakm/chatapp/viewmodel/LoginViewModel.kt:28-47 | computes `LoginStep` and posts its result |

## Left out

- The Firebase SDK itself is not modelled. Queries, writes and authentication act directly on the `Db` value. Network failures appear only where the app reacts to them (the auth and save outcomes of registration and login, and the snapshot error).
- Concurrency is not modelled. Each callback runs atomically, in the order given. Two near-simultaneous `startChat` calls for the same pair, or a send before the chat lookup has completed, are therefore not modelled. `NewChat.ResolveChatIsStable` covers only calls that run one after another.
- The `startChat`, `createNewChat`, `openChat` and `navigateToChat` failure listeners only toast or log. Their effect (nothing happens) is the same as the query never returning, which is not modelled.
- Listener lifecycle is not modelled: removal, re-subscription, and live updates of an already-open message list. The message view is the query's result on the current store.
- Repeated `setupChatRecyclerView` calls build a new adapter each time. Only the chat the adapter follows is modelled.
- Toasts, logging, view visibility other than "No Chats" and layout are not modelled. Base64 picture decoding (`util/Util.kt`) is not part of this model.
- `ProfileFragment`, FCM tokens and the activities that host the fragments are outside the core.
- Firestore's random 20-character ids are modelled by `Firestore.FreshChatId`, a function that returns an id no chat uses.
- The chat's creation "timestamp" is stored as a decimal string of milliseconds. Here it is the clock value.
- `Timestamp` is an integer time.
- `orderBy` breaks timestamp ties by document id. `Firestore.OrderByTimestamp` keeps ties in log order. Valid stores have no ties.
- `toObject` throws when a stored field has the wrong type. This is not modelled: stored documents hold fields of the right type or omit them.
- `document("")` throws for a chat whose stored `chatId` is empty. `Firestore.Valid` keeps the empty id out of the chats (Firestore stores no document under it), so `ChatList.NavigateToChat` finds no such chat and opens nothing (`ChatList.EmptyChatIdNeverOpens`).
- Kotlin's `trim()` and `isBlank()` work on UTF-16 code units; the model works on Unicode scalar values (Dafny's `char`). They agree, because every whitespace character lies in the Basic Multilingual Plane (`Text.IsWhitespace`) and a surrogate is never whitespace. Unpaired surrogates in the input are not modelled.
- Firestore.StoredLogIsOrdered: holds for the model's one shared, strictly increasing clock (`Firestore.Valid` asks each log to be strictly ascending and stamped before it). In the app each device stamps messages with its own wall clock; with a clock that lags, or two equal readings (whose order falls to the random document id), the ordered view can show messages out of the order they were sent. This is not modelled.
- Firestore.Valid: the key lists model Firestore's default document-id order with `Firestore.IdBefore`, a plain character-by-character comparison; Firestore's exact byte-wise ordering of ids is not modelled.

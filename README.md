# A verified model of the chat relay and the client-side state logic

This Dafny project models the parts of the application that carry state or
byte-level logic:

- **RoomRelay** (`server.js`): the WebSocket room relay. It keeps a map from
  room name to the room's clients and typing e-mails. It also keeps each
  connection's recorded room and e-mail, and handles `join`, `message`,
  `start-typing`, `stop-typing`, `close` and `error`.
  - Each handler is a pure step function over the state that also returns
    the frames it sends, in order.
  - The class `Server` runs the same handlers imperatively, with the
    `forEach` broadcast as a loop appending to an outbox. It is proved equal
    to the step functions.
  - The step functions are proved to keep the room invariant and to send
    exactly what the handlers promise.
- **WaveEncoder** (`audioBufferToWav` in `components/VoiceLab.tsx`): the
  16-bit PCM RIFF/WAVE encoder.
  - It writes through a moving cursor into a byte array, in the same order
    as the source.
  - The result is proved equal to a declarative description of the file.
  - That description is proved to have the required length, the chunk
    tags, header fields that read back, and every sample at
    44 + 2·(frame·channels + channel).
- **Conversations** (`components/AiAssistant.tsx`): the conversation list.
  - New chats, and the active conversation chosen when a user's list loads.
  - The send guard, the user message and the model placeholder.
  - Streamed chunks appended to the placeholder, and the error text that
    replaces it.
  - The updates are functions on sequences. The component's state and
    `handleSend` are the class `Assistant`.
- **MockAuth** (`components/Auth.tsx`): the login / signup / otp screen
  over a key/value store that stands for `localStorage`.
- **VideoGeneration** (`components/VideoGenerator.tsx`):
  - the bounded, newest-first history;
  - the generate guard;
  - the unwrapping and classification of error messages.
- **JsRuntime**: the JavaScript behaviour these rely on.
  - `trim`, as far as "the trimmed text is empty" is concerned.
  - `startsWith`, `endsWith` and `includes`.
  - The decimal text of a non-negative integer.
  - `null`/`undefined` as an option.

JavaScript's falsy `null`, `undefined` and `""` are all written `""` where
the source only tests them for truthiness.

Three behaviours of the code are easy to miss; the model follows the code
in each:

- Switching rooms with `join` neither clears the old room's typing set nor
  deletes the old room when it is left empty (server.js:42-45).
  - `JoinKeepsOldRoom` and `SwitchLeavesTypingBehind` state this.
  - A typing e-mail is therefore not always that of a client.
- A join to the room named `""` adds the connection to `rooms[""]`. The
  recorded room `""` is falsy, so no later join or close ever removes the
  connection from it (`EmptyNameRoomKeepsClient`). The room invariant is
  therefore stated for named rooms only.
- An account stored with an empty password can never log in, since
  `handleLogin` needs a truthy stored password (Auth.tsx:45). In a browser,
  the form's `required` attributes keep an empty password from being
  submitted. The model has no such attributes: `SignupThenLogin` shows the
  whole run.

## Model

| member | source | states |
|---|---|---|
| JsRuntime.Trim | components/AiAssistant.tsx:73 | defines `String.prototype.trim` (also used at VideoGenerator.tsx:72); stated in TrimEmptyIffBlank, SendBlocked and GenerateBlockedIffBlank |
| JsRuntime.StartsWith | components/VideoGenerator.tsx:88 | defines `startsWith`; stated in Unwrap and ErrorText |
| JsRuntime.EndsWith | components/VideoGenerator.tsx:88 | defines `endsWith`; stated in Unwrap |
| JsRuntime.Includes | components/VideoGenerator.tsx:102-104 | defines `includes`; stated in PhraseFoundAnywhere through EntityNotFound |
| JsRuntime.TrimEmptyIffBlank | components/AiAssistant.tsx:73 | `!s.trim()` holds exactly when every character of s is ECMAScript whitespace |
| JsRuntime.Decimal | components/AiAssistant.tsx:76 | `toString` of a non-negative integer: at least one digit, all characters digits, one digit exactly below 10 |
| JsRuntime.DecimalInjective | components/AiAssistant.tsx:76 | different numbers have different decimal texts, so ids made from different clock readings differ |
| RoomRelay.Added | server.js:50 | `Set.add` on an insertion-ordered set: the element set grows by x, an element already present keeps its place, a new one goes last, no duplicates appear |
| RoomRelay.Deleted | server.js:43 | `Set.delete`: exactly x is removed, no duplicates appear, deleting an absent element changes nothing |
| RoomRelay.DeletedAt | server.js:43 | deleting the element at index i closes the gap and keeps the order of the others |
| RoomRelay.Fanout | server.js:13-17 | the `forEach` send makes no more sends than there are clients |
| RoomRelay.FanoutDistinct | server.js:13-17 | a client listed once receives at most one send, so a room's clients (a set) each get the frame at most once |
| RoomRelay.FanoutSends | server.js:13-17 | every send of the `forEach` carries the frame to an OPEN client of the list, and every OPEN client of the list receives it |
| RoomRelay.FanoutSnoc | server.js:13-17 | one more iteration of the `forEach` appends one send exactly when that client is OPEN |
| RoomRelay.RoomBroadcastSends | server.js:9-19 | `broadcastToRoom`: nothing for a missing room; otherwise exactly the OPEN clients of the room receive the frame |
| RoomRelay.Leave | server.js:42-45 | the first half of a join keeps the state well formed, the connections and the room names; the room's typing set and every other room are untouched |
| RoomRelay.LeaveMembers | server.js:42-45 | the first half of a join takes the connection out of its recorded room only, and changes no other membership |
| RoomRelay.LeaveClears | server.js:42-45 | under the invariant, after the first half of a join the connection is a client of no named room |
| RoomRelay.LeaveBroadcastSends | server.js:42-45 | the list sent to the room left goes only to its OPEN remaining clients, never the joiner, and to every one of them, and names the clients left |
| RoomRelay.LeaveBroadcastTargets | server.js:42-45 | every receiver of the list sent to the room left is an OPEN remaining client, not the joiner, and the list names the clients left |
| RoomRelay.LeaveBroadcastReach | server.js:42-45 | every OPEN client left in the old room receives its member list |
| RoomRelay.Enter | server.js:47-52 | the second half of a join: the target room is created empty if absent; the connection is added to its clients; the payload's room and e-mail are recorded; the other rooms are unchanged |
| RoomRelay.EnterMembers | server.js:47-51 | the second half of a join adds exactly the joiner to the target room |
| RoomRelay.EnterAppends | server.js:47-51 | a connection not yet in the target room becomes its last client |
| RoomRelay.Depart | server.js:85-93 | the state change of `close`: the socket is CLOSED; other rooms are unchanged; no room is created |
| RoomRelay.DepartMembers | server.js:85-93 | `close` takes the connection out of its recorded room and changes no other membership |
| RoomRelay.Users | server.js:24 | defines the e-mails of a room's clients in member order; its length and last entry are stated in JoinSends |
| RoomRelay.RoomBroadcast | server.js:9-19 | defines `broadcastToRoom`; what it sends is stated in RoomBroadcastSends |
| RoomRelay.UserListBroadcast | server.js:21-27 | defines `broadcastUserList`; what it sends is stated in JoinDelivery, JoinSends and CloseSends |
| RoomRelay.LeaveBroadcast | server.js:42-45 | defines the list a join sends to the room it leaves; stated in LeaveBroadcastSends |
| RoomRelay.JoinStep | server.js:40-56 | defines `case 'join'`; stated in JoinMembership, JoinSends, JoinKeepsOldRoom, RejoinMovesToEnd and JoinPreservesInv |
| RoomRelay.MessageStep | server.js:57-62 | defines `case 'message'`; stated in MessageDelivery |
| RoomRelay.TypingStep | server.js:63-78 | defines `case 'start-typing'` and `case 'stop-typing'`; stated in TypingEffect, TypingIdempotent and TypingPreservesInv |
| RoomRelay.FrameStep | server.js:34-83 | defines the dispatch on `type`; stated in IgnoredFrames and FramePreservesInv |
| RoomRelay.CloseStep | server.js:85-99 | defines the `close` handler; stated in CloseLeaves, CloseSends and ClosePreservesInv |
| RoomRelay.OneRoomAtATime | server.js:42-52 | in every state satisfying the invariant, a connection is a client of at most one named room, the one it has recorded |
| RoomRelay.JoinPreservesInv | server.js:40-56 | `join` keeps the room invariant: clients are known and distinct, a live connection with a recorded room is its client, a client of a named room has it recorded |
| RoomRelay.TypingPreservesInv | server.js:63-78 | typing events keep the room invariant |
| RoomRelay.ClosePreservesInv | server.js:85-99 | `close` keeps the room invariant |
| RoomRelay.FramePreservesInv | server.js:34-83 | every inbound frame keeps the room invariant |
| RoomRelay.IgnoredFrames | server.js:36-82 | an unparseable frame, a join without payload and an unknown type change nothing and send nothing |
| RoomRelay.JoinMembership | server.js:42-52 | after a join to a named room the joiner is the last client of the target, the payload's room and e-mail are recorded, no other connection changes, and the joiner is in no other named room |
| RoomRelay.JoinDelivery | server.js:40-55 | in any well-formed state a join first sends the old room its list, then every OPEN client of the target room, joiner included, gets the target's member list |
| RoomRelay.JoinSends | server.js:40-55 | a join first sends the old room its list, then every OPEN client of the target room, the joiner included, gets the e-mails of all its clients in member order, the joiner's last |
| RoomRelay.JoinKeepsOldRoom | server.js:42-45 | a join elsewhere removes the connection from the old room but keeps that room and its typing set, even if empty |
| RoomRelay.RejoinMovesToEnd | server.js:42-50 | rejoining the current room moves the connection to the end of the member order; the member count and typing set stay the same; the intermediate list goes only to the others |
| RoomRelay.MessageDelivery | server.js:57-62 | a chat message changes no state. With no room it sends nothing. Otherwise the unchanged payload reaches exactly the OPEN clients of the sender's room, the sender included, and nobody in another room |
| RoomRelay.TypingEffect | server.js:63-78 | without room or e-mail nothing happens; otherwise the e-mail is added to or removed from the typing set, nothing else changes, and the whole set goes to every OPEN client of the room and to nobody else |
| RoomRelay.TypingIdempotent | server.js:63-78 | repeating a typing event leaves the state as the first one left it |
| RoomRelay.FanoutSameRecipients | server.js:13-17 | two broadcasts to the same clients reach the same connections in the same order |
| RoomRelay.CloseWithoutRoom | server.js:85-99 | a socket that never joined a named room is only marked CLOSED: it sends nothing and leaves every room as it was |
| RoomRelay.CloseLeaves | server.js:85-93 | `close` removes the connection and its e-mail from the room; the room is deleted exactly when no client is left; other rooms are unchanged |
| RoomRelay.CloseSends | server.js:91-97 | after a close the remaining OPEN clients get the member list and then, after all of those, the typing list; the closed connection gets nothing; an emptied room sends nothing |
| RoomRelay.PairedFanout | server.js:95-96 | two successive broadcasts to one room: the first half of the sends carries the first frame, the second half the second, to the same clients in the same order |
| RoomRelay.PairedFanoutOrder | server.js:95-96 | of two successive broadcasts to one room, the halves carry the first and second frame to the same clients in the same order |
| RoomRelay.PairedFanoutReach | server.js:95-96 | of two successive broadcasts to one room, every OPEN client gets the first frame in the first half and the second in the second |
| RoomRelay.FreshRoomAfterLastLeave | server.js:85-93 | once the last client closes, the room is gone and the next join starts it with only the joiner and no typing entries |
| RoomRelay.SessionJoinA | server.js:40-56 | a first join to a room gives a one-member room and sends the joiner its own e-mail |
| RoomRelay.SessionJoinB | server.js:40-56 | a second join appends the joiner and sends both clients the two e-mails in join order |
| RoomRelay.SessionTyping | server.js:63-70 | start-typing records the e-mail and sends the typing list to both clients |
| RoomRelay.SessionMessage | server.js:57-62 | a message reaches both clients, sender included, in member order |
| RoomRelay.SessionCloseA | server.js:85-97 | a close sends the remaining client the member list, then the typing list |
| RoomRelay.EmptyNameRoomKeepsClient | server.js:42-52 | a connection that joins room "" stays a client of `rooms[""]` after joining "X" and after closing |
| RoomRelay.SwitchLeavesTypingBehind | server.js:42-45 | moving from room X to Y leaves the e-mail in X's typing set and X in the map with no clients |
| RoomRelay.JoinX | server.js:40-52 | a first join to X gives X with the joiner as its only client |
| RoomRelay.TypeInX | server.js:63-70 | start-typing in X records the e-mail in X's typing set |
| RoomRelay.MoveToY | server.js:42-52 | joining Y from X leaves X with no clients and the e-mail still typing |
| RoomRelay.Server.constructor | server.js:5 | the server starts with no rooms, no connections and nothing sent, and satisfies the invariant |
| RoomRelay.Server.Connect | server.js:29-32 | a new connection is OPEN with no room and no e-mail; nothing else changes; the invariant holds |
| RoomRelay.Server.StartClosing | server.js:14 | a socket that starts closing is no longer OPEN; nothing else changes; the invariant holds |
| RoomRelay.Server.BroadcastToRoom | server.js:9-19 | the send loop appends exactly the sends of `RoomBroadcast` to the outbox |
| RoomRelay.Server.BroadcastUserList | server.js:21-27 | appends the member-list broadcast of the room |
| RoomRelay.Server.Join | server.js:40-56 | the imperative join leaves the state and outbox of `JoinStep` |
| RoomRelay.Server.LeaveRecordedRoom | server.js:42-45 | leaves the state of `Leave` and appends `LeaveBroadcast` |
| RoomRelay.Server.EnterRoom | server.js:47-54 | leaves the state of `Enter` and appends the new room's member list |
| RoomRelay.Server.SetTyping | server.js:63-78 | leaves the state and outbox of `TypingStep` |
| RoomRelay.Server.OnMessage | server.js:34-83 | the `message` handler leaves the state and outbox of `FrameStep` and keeps the invariant |
| RoomRelay.Server.OnClose | server.js:85-99 | the `close` handler leaves the state and outbox of `CloseStep` and keeps the invariant |
| RoomRelay.Server.OnError | server.js:101-103 | the `error` handler changes nothing and keeps the invariant |
| WaveEncoder.LE16 | components/VoiceLab.tsx:73-76 | a 16-bit little-endian store writes two bytes |
| WaveEncoder.LE32 | components/VoiceLab.tsx:78-81 | a 32-bit little-endian store writes four bytes |
| WaveEncoder.LE16RoundTrip | components/VoiceLab.tsx:73-76 | a stored 16-bit field reads back as the value modulo 2^16 |
| WaveEncoder.LE16SignedRoundTrip | components/VoiceLab.tsx:90 | a sample in [-32768, 32767] stored by `setInt16` reads back unchanged with `getInt16` |
| WaveEncoder.LE32RoundTrip | components/VoiceLab.tsx:78-81 | a stored 32-bit field reads back as the value modulo 2^32 |
| WaveEncoder.Clamp | components/VoiceLab.tsx:88 | the clamped sample lies in [-1, 1] and a sample already there is unchanged |
| WaveEncoder.Truncate | components/VoiceLab.tsx:89 | `| 0` truncates toward zero: within one of the input and never farther from zero |
| WaveEncoder.Quantize | components/VoiceLab.tsx:88-89 | every stored sample lies in [-32768, 32767]; inputs at or beyond -1 and 1 give the extremes; the sign is kept |
| WaveEncoder.QuantizeAccuracy | components/VoiceLab.tsx:88-89 | inside [-1, 1] the stored sample is the input scaled by 32768 (below -0.5) or 32767, less than one step off and never farther from zero |
| WaveEncoder.QuantizeMonotonic | components/VoiceLab.tsx:88-89 | a larger input never gives a smaller stored sample, across the switch of scale at -0.5 |
| WaveEncoder.WaveHeader | components/VoiceLab.tsx:59-71 | the header written field by field is 44 bytes |
| WaveEncoder.Header | components/VoiceLab.tsx:59-71 | the header of a buffer is 44 bytes |
| WaveEncoder.FrameBytes | components/VoiceLab.tsx:87-92 | the samples of one frame take two bytes per channel |
| WaveEncoder.Samples | components/VoiceLab.tsx:86-94 | defines the interleaved sample bytes, frame after frame; stated in SamplesLength, SamplesPrefix and SampleLocation |
| WaveEncoder.WavFile | components/VoiceLab.tsx:49-96 | defines the whole file as header then samples; stated in WavFileLength, HeaderTags, HeaderSizes, SampleLocation and AudioBufferToWav |
| WaveEncoder.SamplesLength | components/VoiceLab.tsx:86-94 | the sample data of f frames is f·channels·2 bytes |
| WaveEncoder.FileLength | components/VoiceLab.tsx:51 | defines the file length `length * numOfChan * 2 + 44`; stated in WavFileLength |
| WaveEncoder.WavFileLength | components/VoiceLab.tsx:50-53 | the file is frames·channels·2 + 44 bytes long |
| WaveEncoder.TagConstants | components/VoiceLab.tsx:59-70 | the four numeric tag constants stored little-endian spell "RIFF", "WAVE", "fmt " and "data" |
| WaveEncoder.HeaderTags | components/VoiceLab.tsx:59-70 | bytes 0-3, 8-11, 12-15 and 36-39 of the header are "RIFF", "WAVE", "fmt " and "data" |
| WaveEncoder.HeaderFieldsReadBack | components/VoiceLab.tsx:59-71 | each header field reads back at its offset: RIFF size length-8, fmt size 16, format 1, channels, rate, byte rate, block align, 16 bits, data size length-44 |
| WaveEncoder.HeaderSizes | components/VoiceLab.tsx:60-71 | the RIFF size is the file length less 8 and the data size the number of sample bytes, modulo 2^32 |
| WaveEncoder.HeaderFormat | components/VoiceLab.tsx:62-69 | the header's channel count, sample rate, block align (2 per channel) and byte rate (rate × block align) are the buffer's |
| WaveEncoder.FrameBytesAt | components/VoiceLab.tsx:87-92 | channel c of a frame sits at bytes 2c and 2c+1 of the frame |
| WaveEncoder.SamplesPrefix | components/VoiceLab.tsx:86-94 | the bytes of the first f frames are a prefix of those of any longer run |
| WaveEncoder.SampleLocation | components/VoiceLab.tsx:83-94 | the sample of frame f, channel c is at byte 44 + 2·(f·channels + c) and reads back as its quantized value |
| WaveEncoder.FrameInSamples | components/VoiceLab.tsx:86-94 | frame f follows the frames before it in the sample data |
| WaveEncoder.NoChannelsNoSamples | components/VoiceLab.tsx:86-94 | with zero channels the file is the bare header |
| WaveEncoder.Put16 | components/VoiceLab.tsx:73-76 | `setUint16` appends two little-endian bytes at the cursor and advances it by 2 |
| WaveEncoder.Put32 | components/VoiceLab.tsx:78-81 | `setUint32` appends four little-endian bytes at the cursor and advances it by 4 |
| WaveEncoder.WriteHeader | components/VoiceLab.tsx:58-71 | the header writes leave the cursor at 44 and the first 44 bytes equal to the declared header, the data size computed while the cursor is at 40 |
| WaveEncoder.FrameArithmetic | components/VoiceLab.tsx:86-94 | cursor arithmetic: frame offset+1 ends 2·channels bytes later and never past the last frame |
| WaveEncoder.WriteFrame | components/VoiceLab.tsx:87-92 | the inner loop appends the quantized samples of one frame, channel by channel |
| WaveEncoder.WriteSamples | components/VoiceLab.tsx:86-94 | the data loop ends with the cursor exactly at the end and the bytes after the header equal to the interleaved samples |
| WaveEncoder.AudioBufferToWav | components/VoiceLab.tsx:49-96 | the returned buffer is fresh and holds exactly the declared WAVE file |
| Conversations.ChatId | components/AiAssistant.tsx:64 | defines the id `convo-<now>`; stated in ChatIdsDiffer and NewChatIsActive |
| Conversations.NewConversation | components/AiAssistant.tsx:63-67 | defines the empty "New Chat" conversation; stated in NewChatIsActive, NewChat and LoadUser |
| Conversations.ChatIdsDiffer | components/AiAssistant.tsx:64 | chats created at different times have different ids |
| Conversations.Find | components/AiAssistant.tsx:30 | `find` gives nothing exactly when no conversation has the id, otherwise the first conversation with that id |
| Conversations.NewChatIsActive | components/AiAssistant.tsx:62-70 | after a new chat the active id finds the new conversation, when no stored one had its id |
| Conversations.SendBlocked | components/AiAssistant.tsx:73 | send does nothing exactly when there is no chat, a send runs, no conversation is active, or the prompt is blank and no image is attached |
| Conversations.DataUrl | components/AiAssistant.tsx:79 | defines the `data:` URL of an attached image; stated in DataUrlRoundTrip |
| Conversations.DataUrlRoundTrip | components/AiAssistant.tsx:79 | the stored `data:` text of an image gives back its MIME type and data |
| Conversations.UserMessage | components/AiAssistant.tsx:75-80 | defines the user's message; stated in PlaceholderIdDiffers and Send |
| Conversations.Placeholder | components/AiAssistant.tsx:82-83 | defines the empty model message with id `now + 1`; stated in PlaceholderIdDiffers and Send |
| Conversations.PlaceholderIdDiffers | components/AiAssistant.tsx:76-82 | the placeholder's id differs from the user message's when the clock does not run backwards between the two readings |
| Conversations.UpdateConversation | components/AiAssistant.tsx:85-122 | an update keeps the conversation's id and title; a chunk or an error changes only messages with the placeholder's id |
| Conversations.UpdateActive | components/AiAssistant.tsx:85-122 | only conversations with the active id change; the list keeps its length and ids |
| Conversations.ParseDataUrl | components/AiAssistant.tsx:79 | reads a `data:` text back into MIME type and data; stated in DataUrlRoundTrip |
| Conversations.WithChunk | components/AiAssistant.tsx:103-107 | defines one chunk added to the placeholder; stated in StreamedStep |
| Conversations.ApplyChunks | components/AiAssistant.tsx:96-114 | defines the list after the chunks of a stream; stated in ApplyChunksAt, SendThenStream and SendThenFail |
| Conversations.Streamed | components/AiAssistant.tsx:101-109 | defines a message after a whole stream in closed form; stated in StreamedStep |
| Conversations.StreamedStep | components/AiAssistant.tsx:97-113 | adding chunks one at a time gives the closed form: all texts appended, all sources appended when any chunk had some |
| Conversations.StreamInto | components/AiAssistant.tsx:101-109 | streaming into a message list keeps its length |
| Conversations.ApplyChunksAt | components/AiAssistant.tsx:96-114 | after a stream each active conversation has its placeholder streamed in closed form and every other conversation is unchanged |
| Conversations.SendThenStream | components/AiAssistant.tsx:85-114 | a completed send leaves the old messages, the user message, and a model message holding the whole reply text and all sources |
| Conversations.SendThenFail | components/AiAssistant.tsx:85-122 | a send whose stream throws after some chunks leaves the old messages, the user message, and a model message whose streamed text is replaced by the error text while the streamed sources stay |
| Conversations.ErrorMessage | components/AiAssistant.tsx:116 | defines the message of a thrown value, with the fallback for a non-`Error`; stated in Stream, which shows it as the error and inside ErrorText |
| Conversations.ErrorText | components/AiAssistant.tsx:116-120 | the text shown starts with "Sorry, something went wrong: " |
| Conversations.Assistant.constructor | components/AiAssistant.tsx:23-27 | the first render has the stored list, no active conversation, no chat, not loading, no error |
| Conversations.Assistant.StartChat | components/AiAssistant.tsx:51-54 | a chat session exists after the active conversation changes |
| Conversations.Assistant.NewChat | components/AiAssistant.tsx:62-70 | the new chat is appended after the unchanged old list and made active |
| Conversations.Assistant.LoadUser | components/AiAssistant.tsx:32-43 | the stored list is loaded with its last conversation active; an empty list gets one new chat, active |
| Conversations.Assistant.Send | components/AiAssistant.tsx:72-92 | starts exactly when not blocked; then the user message and placeholder are appended to the active conversation only, loading starts and the error clears; otherwise nothing changes |
| Conversations.Assistant.Stream | components/AiAssistant.tsx:94-125 | every chunk is applied in order; on failure the error is set and the placeholder shows it; loading ends on both paths |
| MockAuth.Key | components/Auth.tsx:34 | defines the storage key `user-<email>`; stated in KeyInjective |
| MockAuth.Step | components/Auth.tsx:25-93 | defines the allowed mode changes; stated in OtpIsFinal and the mode-changing methods |
| MockAuth.KeyInjective | components/Auth.tsx:34 | different e-mails are stored under different keys |
| MockAuth.LoginAccepted | components/Auth.tsx:44-45 | an accepted login never has an empty password |
| MockAuth.OtpIsFinal | components/Auth.tsx:20-96 | once in otp mode, no allowed mode change leaves it |
| MockAuth.OtherAccountsUnaffected | components/Auth.tsx:34 | storing one account does not change whether any other e-mail can log in |
| MockAuth.StoredAccountLogsIn | components/Auth.tsx:34-45 | after storing an account, a login attempt succeeds exactly when the stored password is non-empty and typed |
| MockAuth.AuthForm.constructor | components/Auth.tsx:10-14 | the screen starts in login mode with empty fields and no error |
| MockAuth.AuthForm.EditEmail | components/Auth.tsx:70 | typing sets the e-mail |
| MockAuth.AuthForm.EditPassword | components/Auth.tsx:74 | typing sets the password |
| MockAuth.AuthForm.EditOtp | components/Auth.tsx:60 | typing in otp mode sets the code |
| MockAuth.AuthForm.GuestLogin | components/Auth.tsx:16-18 | guest login always logs in guest@example.com as a guest |
| MockAuth.AuthForm.ShowSignup | components/Auth.tsx:93 | the link moves from login to signup, an allowed step |
| MockAuth.AuthForm.ShowLogin | components/Auth.tsx:77 | the link moves from signup to login, an allowed step |
| MockAuth.AuthForm.SubmitSignup | components/Auth.tsx:20-26 | signup moves to otp and clears the error without storing anything |
| MockAuth.AuthForm.SubmitOtp | components/Auth.tsx:28-39 | code "123456" stores the password under `user-<email>` and logs in a non-guest; any other code sets the OTP error and changes nothing else; the mode stays otp |
| MockAuth.AuthForm.SubmitLogin | components/Auth.tsx:41-50 | logs in exactly when the stored password is set, non-empty and equal; otherwise sets "Invalid credentials." |
| MockAuth.SignupThenLogin | components/Auth.tsx:20-50 | a complete signup followed by a login with the same credentials succeeds exactly when the password is non-empty |
| VideoGeneration.Prepend | components/VideoGenerator.tsx:82 | the new history is the new item followed by the first up-to-four old items in order, at most five long |
| VideoGeneration.Replay | components/VideoGenerator.tsx:82 | defines the history after a run of successes; stated in ReplayKeepsNewest |
| VideoGeneration.ReplayKeepsNewest | components/VideoGenerator.tsx:82 | from an empty history, any run of successes leaves the five newest items, newest first |
| VideoGeneration.Unwrap | components/VideoGenerator.tsx:85-99 | the message is never empty. An empty message becomes the unknown-error text. Non-brace or unparseable text is kept. Parsed JSON gives `error.message`, else `message`, else the text |
| VideoGeneration.Diagnose | components/VideoGenerator.tsx:85-107 | the shown message is never empty; a quota problem shows the quota text; otherwise a missing entity shows the key text; the key is marked invalid exactly when the unwrapped text names a missing entity and no quota problem |
| VideoGeneration.QuotaExceeded | components/VideoGenerator.tsx:102 | defines the two quota phrases; stated in Diagnose and QuotaTakesPrecedence |
| VideoGeneration.EntityNotFound | components/VideoGenerator.tsx:104 | defines the missing-key phrase; stated in Diagnose and PhraseFoundAnywhere |
| VideoGeneration.QuotaTakesPrecedence | components/VideoGenerator.tsx:102-107 | a message naming both a quota problem and a missing entity is reported as a quota problem and keeps the key |
| VideoGeneration.OtherMessagesPassThrough | components/VideoGenerator.tsx:102-107 | a message naming neither problem is shown as unwrapped and keeps the key |
| VideoGeneration.PhraseFoundAnywhere | components/VideoGenerator.tsx:104 | the missing-entity phrase is recognised wherever it occurs in the message |
| VideoGeneration.GenerateBlocked | components/VideoGenerator.tsx:72 | defines the guard of `handleGenerate`; stated in GenerateBlockedIffBlank and StartGenerate |
| VideoGeneration.GenerateBlockedIffBlank | components/VideoGenerator.tsx:72 | generation is refused exactly for a prompt of whitespace only or while another generation runs |
| VideoGeneration.VideoGenerator.constructor | components/VideoGenerator.tsx:28-36 | the first render: empty prompt, not loading, no error, no video, no key, the stored history, no submitted prompt |
| VideoGeneration.VideoGenerator.EditPrompt | components/VideoGenerator.tsx:166 | typing sets the prompt |
| VideoGeneration.VideoGenerator.CheckedKey | components/VideoGenerator.tsx:55-60 | the key flag becomes what the host reports |
| VideoGeneration.VideoGenerator.SelectedKey | components/VideoGenerator.tsx:64-69 | after the key dialog the key counts as selected |
| VideoGeneration.VideoGenerator.StartGenerate | components/VideoGenerator.tsx:71-76 | generation starts exactly when GenerateBlocked does not hold, that is (by GenerateBlockedIffBlank) when the prompt is not blank and none is running; then loading starts, the error and video clear and the prompt is kept as the submitted one; otherwise nothing changes |
| VideoGeneration.VideoGenerator.Succeeded | components/VideoGenerator.tsx:79-82 | a success shows the video, prepends an item with the prompt submitted at the start (not the current field) to the history and ends loading |
| VideoGeneration.VideoGenerator.Failed | components/VideoGenerator.tsx:83-112 | a failure shows the diagnosed message. Only a missing-entity diagnosis clears the key flag. Loading ends |

## Left out

- Socket I/O in `server.js`: the server setup, `JSON.parse`/`JSON.stringify` of frame text and `client.send` are left out, and so is logging. Inbound frames are a datatype with a `Malformed` case; outbound frames are appended to an outbox.
- Concurrency: Node runs each handler to completion, so each event is one atomic step.
- The readiness of a socket is the three states OPEN, CLOSING and CLOSED. Frames on a CLOSED connection are not modelled, since the transport no longer delivers them.
- Non-string `room`, `email` and message fields, and payloads other than objects, are not modelled. A join whose payload cannot be destructured is `Join(None)`.
- WaveEncoder.Quantize: samples are real numbers, not IEEE doubles. NaN, infinities and rounding are not modelled. `| 0` is truncation toward zero, which agrees with JavaScript for every clamped value.
- WaveEncoder.AudioBufferToWav: the `ArrayBuffer` allocation cannot fail here. The sample rate is a non-negative integer, and the channel data is given as sequences of the buffer's length.
- The `AudioContext`, `Blob` and URL handling around the encoder is left out.
- `services/geminiService.ts` is not part of this model. Chat sessions, streams, generated videos and their errors are arguments: a chunk sequence with an optional thrown value, a URL, or an error message with its JSON reading.
- `JSON.parse` of an error message is an argument (`ErrorJson`). The parser itself and JSON values whose fields are not strings are not modelled.
- `e as Error` applied to a thrown object that is not an `Error` gives an undefined message, modelled as the empty message.
- A thrown `null` or `undefined` is not modelled. Reading `err.message` on it throws inside the `catch`, so no error is shown, the rejection escapes `handleGenerate`, and only the `finally` resets the loading flag.
- Clock readings (`Date.now()`) are parameters. Two readings in one handler are two parameters.
- `localStorage` is modelled only as the Auth store. The effects that persist conversations and video history, and the loading of stored lists, are left out; the stored lists are parameters.
- Conversations.Assistant.Stream: the `for await` updates go to the conversation active when the send started, as the closure captures it. A stream interleaved with other user actions is not modelled.
- React rendering, scrolling, timers and the rotating loading messages are left out. So are the `disabled` and `required` attributes of buttons and inputs, and `components/LiveChat.tsx` with the other presentation components.

/**
 The AI Assistant's conversation list (components/AiAssistant.tsx): new
 chats, the choice of the active conversation when a user's stored list is
 loaded, and the updates a send makes: the user message and a model
 placeholder are appended, streamed chunks are added to the placeholder,
 and an error replaces its text.

 Each update is a pure function on the list, as the component's
 `setConversations(prev => ...)` callbacks are; the component's state and
 `handleSend` are the class `Assistant`. `null` and `undefined` strings are
 modelled as "", which every use in the component treats alike.
 */
module Conversations {
  import opened JsRuntime

  datatype Source = Source(uri: string, title: string)

  datatype Role = User | Model

  /** A `ConversationMessage`; `image` and `sources` are optional fields. */
  datatype Message = Message(id: string, role: Role, content: string, image: Option<string>, sources: Option<seq<Source>>)

  datatype Conversation = Conversation(id: string, title: string, messages: seq<Message>)

  /** An `ImagePart`: base64 `data` with its `mimeType`. */
  datatype ImagePart = ImagePart(data: string, mimeType: string)

  /** One item of the reply stream: `textChunk` ("" when absent) and
      `sources` when present (an empty array is present). */
  datatype Chunk = Chunk(text: string, sources: Option<seq<Source>>)

  /** What the stream may throw: an `Error` with its message, or anything else. */
  datatype Thrown = ErrorInstance(message: string) | NonError

  /** A change `handleSend` makes to the active conversation. */
  datatype Update =
    | AppendExchange(user: Message, placeholder: Message)
    | AddChunk(chunk: Chunk)
    | ShowError(text: string)

  // ---------------------------------------------------------------------
  // New chats and the initial selection

  /** `convo-${Date.now()}`. */
  function ChatId(now: nat): string {
    "convo-" + Decimal(now)
  }

  /** The conversation `handleNewChat` creates (AiAssistant.tsx:63-67). */
  function NewConversation(now: nat): Conversation {
    Conversation(ChatId(now), "New Chat", [])
  }

  /** Chats created at different times have different ids. */
  lemma ChatIdsDiffer(t1: nat, t2: nat)
    requires t1 != t2
    ensures ChatId(t1) != ChatId(t2)
  {
    if ChatId(t1) == ChatId(t2) {
      assert Decimal(t1) == ChatId(t1)[6..];
      assert Decimal(t2) == ChatId(t2)[6..];
      DecimalInjective(t1, t2);
    }
  }

  /** The first conversation with the given id (`conversations.find`). */
  function Find(convs: seq<Conversation>, id: string): (r: Option<Conversation>)
    ensures r.None? <==> forall i :: 0 <= i < |convs| ==> convs[i].id != id
    ensures r.Some? ==> r.value.id == id
    ensures r.Some? ==>
      exists i :: 0 <= i < |convs| && convs[i] == r.value && forall j :: 0 <= j < i ==> convs[j].id != id
  {
    if convs == [] then None
    else if convs[0].id == id then Some(convs[0])
    else
      var r := Find(convs[1..], id);
      assert r.Some? ==> exists i :: 0 <= i < |convs| && convs[i] == r.value && forall j :: 0 <= j < i ==> convs[j].id != id by {
        if r.Some? {
          var i :| 0 <= i < |convs[1..]| && convs[1..][i] == r.value && forall j :: 0 <= j < i ==> convs[1..][j].id != id;
          assert convs[i + 1] == r.value;
          assert forall j :: 1 <= j < i + 1 ==> convs[j] == convs[1..][j - 1];
        }
      }
      r
  }

  /** The new chat is the conversation found under the new active id, as
      long as no stored conversation already had that id. */
  lemma NewChatIsActive(convs: seq<Conversation>, now: nat)
    requires forall i :: 0 <= i < |convs| ==> convs[i].id != ChatId(now)
    ensures Find(convs + [NewConversation(now)], ChatId(now)) == Some(NewConversation(now))
  {
    var all := convs + [NewConversation(now)];
    if convs != [] {
      assert all[1..] == convs[1..] + [NewConversation(now)];
      NewChatIsActive(convs[1..], now);
    }
  }

  // ---------------------------------------------------------------------
  // The send guard and the user message

  /** The guard of `handleSend` (AiAssistant.tsx:73); `activeId` "" is no
      active conversation. */
  function SendBlocked(chatReady: bool, isLoading: bool, prompt: string, image: Option<ImagePart>, activeId: string): (r: bool)
    ensures r <==> !chatReady || isLoading || activeId == "" || (IsBlank(prompt) && image.None?)
  {
    TrimEmptyIffBlank(prompt);
    !chatReady || isLoading || (Trim(prompt) == "" && image.None?) || activeId == ""
  }

  /** `data:${mimeType};base64,${data}` (AiAssistant.tsx:79). */
  function DataUrl(image: ImagePart): string {
    "data:" + image.mimeType + ";base64," + image.data
  }

  /** The index of the first `c` in `s`, or |s|. */
  function IndexOf(s: string, c: char): (k: nat)
    ensures k <= |s| && c !in s[..k] && (k < |s| ==> s[k] == c)
  {
    if s == [] then 0
    else if s[0] == c then 0
    else
      var k := IndexOf(s[1..], c);
      assert s[..k + 1] == [s[0]] + s[1..][..k];
      k + 1
  }

  /** Reads a `data:` URL back into its MIME type and data. */
  function ParseDataUrl(url: string): Option<ImagePart> {
    if !StartsWith(url, "data:") then None
    else
      var rest := url[5..];
      var k := IndexOf(rest, ';');
      if StartsWith(rest[k..], ";base64,") then Some(ImagePart(rest[k + 8..], rest[..k])) else None
  }

  /** The stored image text gives back the attached image whenever its MIME
      type holds no ';' (as no registered MIME type does). */
  lemma DataUrlRoundTrip(image: ImagePart)
    requires ';' !in image.mimeType
    ensures ParseDataUrl(DataUrl(image)) == Some(image)
  {
    var url := DataUrl(image);
    var rest := url[5..];
    var m := image.mimeType;
    assert rest == m + ";base64," + image.data;
    assert rest[..|m|] == m;
    assert rest[|m|] == ';';
    var k := IndexOf(rest, ';');
    assert k == |m|;
    assert rest[k..] == ";base64," + image.data;
  }

  /** The message for the user's prompt (AiAssistant.tsx:75-80). */
  function UserMessage(now: nat, prompt: string, image: Option<ImagePart>): Message {
    Message(Decimal(now), User, prompt, if image.Some? then Some(DataUrl(image.value)) else None, None)
  }

  /** The empty model message the reply streams into (AiAssistant.tsx:82-83). */
  function Placeholder(now: nat): Message {
    Message(Decimal(now + 1), Model, "", None, None)
  }

  /** The placeholder's id differs from the user message's id, even when
      the clock moved on between the two `Date.now()` calls. */
  lemma PlaceholderIdDiffers(t1: nat, t2: nat, prompt: string, image: Option<ImagePart>)
    requires t1 <= t2
    ensures UserMessage(t1, prompt, image).id != Placeholder(t2).id
  {
    if Decimal(t1) == Decimal(t2 + 1) {
      DecimalInjective(t1, t2 + 1);
    }
  }

  // ---------------------------------------------------------------------
  // Conversation updates

  /** One chunk added to a message (AiAssistant.tsx:103-107): its text is
      appended, and present sources are appended to the message's sources
      (none yet counting as an empty list). */
  function WithChunk(m: Message, chunk: Chunk): Message {
    m.(content := m.content + chunk.text,
       sources := if chunk.sources.Some? then Some(SourcesOf(m.sources) + chunk.sources.value) else m.sources)
  }

  /** `msg.sources || []`. */
  function SourcesOf(s: Option<seq<Source>>): seq<Source> {
    if s.Some? then s.value else []
  }

  /** An update applied to one conversation: the exchange is appended, a
      chunk or an error changes every message whose id is `modelId`. */
  function UpdateConversation(c: Conversation, modelId: string, u: Update): (r: Conversation)
    ensures r.id == c.id && r.title == c.title
    ensures !u.AppendExchange? ==> |r.messages| == |c.messages|
    ensures !u.AppendExchange? ==>
      forall j :: 0 <= j < |c.messages| && c.messages[j].id != modelId ==> r.messages[j] == c.messages[j]
  {
    match u
    case AppendExchange(user, placeholder) => c.(messages := c.messages + [user, placeholder])
    case AddChunk(chunk) =>
      c.(messages := seq(|c.messages|, j requires 0 <= j < |c.messages| =>
        if c.messages[j].id == modelId then WithChunk(c.messages[j], chunk) else c.messages[j]))
    case ShowError(text) =>
      c.(messages := seq(|c.messages|, j requires 0 <= j < |c.messages| =>
        if c.messages[j].id == modelId then c.messages[j].(content := text) else c.messages[j]))
  }

  /** `prev.map(c => c.id === activeConversationId ? ... : c)`: only the
      conversations with the active id change. */
  function UpdateActive(convs: seq<Conversation>, activeId: string, modelId: string, u: Update): (r: seq<Conversation>)
    ensures |r| == |convs|
    ensures forall i :: 0 <= i < |convs| && convs[i].id != activeId ==> r[i] == convs[i]
    ensures forall i :: 0 <= i < |convs| ==> r[i].id == convs[i].id
  {
    seq(|convs|, i requires 0 <= i < |convs| =>
      if convs[i].id == activeId then UpdateConversation(convs[i], modelId, u) else convs[i])
  }

  /** The list after the chunks of a stream, one update per chunk. */
  function ApplyChunks(convs: seq<Conversation>, activeId: string, modelId: string, chunks: seq<Chunk>): seq<Conversation> {
    if chunks == [] then convs
    else UpdateActive(ApplyChunks(convs, activeId, modelId, chunks[..|chunks| - 1]), activeId, modelId, AddChunk(chunks[|chunks| - 1]))
  }

  /** The text of a stream: its chunks' texts in order. */
  function Texts(chunks: seq<Chunk>): string {
    if chunks == [] then "" else Texts(chunks[..|chunks| - 1]) + chunks[|chunks| - 1].text
  }

  /** The sources of a stream: those of the chunks that carry any, in order. */
  function AllSources(chunks: seq<Chunk>): seq<Source> {
    if chunks == [] then [] else AllSources(chunks[..|chunks| - 1]) + SourcesOf(chunks[|chunks| - 1].sources)
  }

  /** Some chunk of the stream carries sources. */
  predicate AnySources(chunks: seq<Chunk>) {
    exists k :: 0 <= k < |chunks| && chunks[k].sources.Some?
  }

  /** A message after a whole stream, in closed form: the stream's text
      appended; the stream's sources appended when some chunk had any,
      the sources untouched otherwise. */
  function Streamed(m: Message, chunks: seq<Chunk>): Message {
    m.(content := m.content + Texts(chunks),
       sources := if AnySources(chunks) then Some(SourcesOf(m.sources) + AllSources(chunks)) else m.sources)
  }

  /** Adding the chunks one at a time gives the closed form. */
  lemma {:induction false} StreamedStep(m: Message, chunks: seq<Chunk>)
    requires chunks != []
    ensures Streamed(m, chunks) == WithChunk(Streamed(m, chunks[..|chunks| - 1]), chunks[|chunks| - 1])
  {
    var init, last := chunks[..|chunks| - 1], chunks[|chunks| - 1];
    assert AnySources(chunks) <==> AnySources(init) || last.sources.Some? by {
      if AnySources(chunks) && !last.sources.Some? {
        var k :| 0 <= k < |chunks| && chunks[k].sources.Some?;
        assert init[k] == chunks[k];
      }
      if AnySources(init) {
        var k :| 0 <= k < |init| && init[k].sources.Some?;
        assert chunks[k] == init[k];
      }
    }
    assert Texts(chunks) == Texts(init) + last.text;
    assert m.content + Texts(chunks) == m.content + Texts(init) + last.text;
    assert AllSources(chunks) == AllSources(init) + SourcesOf(last.sources);
    if !AnySources(init) {
      NoSourcesNone(init);
      assert AllSources(chunks) == SourcesOf(last.sources);
    }
    if last.sources.None? {
      assert AllSources(chunks) == AllSources(init);
    } else {
      assert SourcesOf(m.sources) + AllSources(chunks) == SourcesOf(m.sources) + AllSources(init) + last.sources.value;
    }
  }

  /** A stream without sources contributes none. */
  lemma {:induction false} NoSourcesNone(chunks: seq<Chunk>)
    requires !AnySources(chunks)
    ensures AllSources(chunks) == []
  {
    if chunks != [] {
      NoSourcesNone(chunks[..|chunks| - 1]);
    }
  }

  /** `messages` with every message whose id is `modelId` streamed. */
  function StreamInto(msgs: seq<Message>, modelId: string, chunks: seq<Chunk>): (r: seq<Message>)
    ensures |r| == |msgs|
  {
    seq(|msgs|, j requires 0 <= j < |msgs| => if msgs[j].id == modelId then Streamed(msgs[j], chunks) else msgs[j])
  }

  /** After a stream, each active conversation holds its messages with the
      placeholder streamed in closed form, and every other conversation is
      as it was. */
  lemma {:induction false} ApplyChunksAt(convs: seq<Conversation>, activeId: string, modelId: string, chunks: seq<Chunk>, i: nat)
    requires i < |convs|
    ensures |ApplyChunks(convs, activeId, modelId, chunks)| == |convs|
    ensures ApplyChunks(convs, activeId, modelId, chunks)[i] ==
      if convs[i].id == activeId then convs[i].(messages := StreamInto(convs[i].messages, modelId, chunks)) else convs[i]
  {
    var c := convs[i];
    if chunks == [] {
      if c.id == activeId {
        forall j | 0 <= j < |c.messages| ensures StreamInto(c.messages, modelId, chunks)[j] == c.messages[j] {
          assert c.messages[j].content + "" == c.messages[j].content;
        }
        assert StreamInto(c.messages, modelId, chunks) == c.messages;
      }
    } else {
      var init, last := chunks[..|chunks| - 1], chunks[|chunks| - 1];
      ApplyChunksAt(convs, activeId, modelId, init, i);
      if c.id == activeId {
        var before := StreamInto(c.messages, modelId, init);
        var after := UpdateConversation(c.(messages := before), modelId, AddChunk(last)).messages;
        forall j | 0 <= j < |c.messages|
          ensures after[j] == StreamInto(c.messages, modelId, chunks)[j]
        {
          if c.messages[j].id == modelId {
            StreamedStep(c.messages[j], chunks);
          }
        }
      }
    }
  }

  /** What a send leaves in the active conversation when the reply streams
      to the end: its old messages, the user message, and the placeholder
      holding the whole reply text and every source the reply carried. */
  lemma SendThenStream(c: Conversation, user: Message, modelId: string, chunks: seq<Chunk>)
    requires user.id != modelId
    requires forall j :: 0 <= j < |c.messages| ==> c.messages[j].id != modelId
    ensures var placeholder := Message(modelId, Model, "", None, None);
      var convs := ApplyChunks(UpdateActive([c], c.id, modelId, AppendExchange(user, placeholder)), c.id, modelId, chunks);
      convs == [c.(messages := c.messages + [user,
        Message(modelId, Model, Texts(chunks), None, if AnySources(chunks) then Some(AllSources(chunks)) else None)])]
  {
    var placeholder := Message(modelId, Model, "", None, None);
    var start := UpdateActive([c], c.id, modelId, AppendExchange(user, placeholder));
    var sent := c.(messages := c.messages + [user, placeholder]);
    assert start == [sent];
    ApplyChunksAt(start, c.id, modelId, chunks, 0);
    var streamed := StreamInto(sent.messages, modelId, chunks);
    var n := |c.messages|;
    forall j | 0 <= j < n + 2
      ensures streamed[j] == (c.messages + [user, Streamed(placeholder, chunks)])[j]
    {
      assert sent.messages[j] == (c.messages + [user, placeholder])[j];
    }
    assert streamed == c.messages + [user, Streamed(placeholder, chunks)];
    assert Streamed(placeholder, chunks).content == Texts(chunks);
    assert SourcesOf(placeholder.sources) + AllSources(chunks) == AllSources(chunks);
  }

  /** What a send leaves in the active conversation when the reply stream
      throws after some chunks: its old messages, the user message, and the
      placeholder whose streamed text is replaced by the error text while
      the sources the chunks carried stay. */
  lemma SendThenFail(c: Conversation, user: Message, modelId: string, chunks: seq<Chunk>, e: Thrown)
    requires user.id != modelId
    requires forall j :: 0 <= j < |c.messages| ==> c.messages[j].id != modelId
    ensures var placeholder := Message(modelId, Model, "", None, None);
      var convs := ApplyChunks(UpdateActive([c], c.id, modelId, AppendExchange(user, placeholder)), c.id, modelId, chunks);
      UpdateActive(convs, c.id, modelId, ShowError(ErrorText(e))) == [c.(messages := c.messages + [user,
        Message(modelId, Model, ErrorText(e), None, if AnySources(chunks) then Some(AllSources(chunks)) else None)])]
  {
    var placeholder := Message(modelId, Model, "", None, None);
    SendThenStream(c, user, modelId, chunks);
    var sources := if AnySources(chunks) then Some(AllSources(chunks)) else None;
    var msgs := c.messages + [user, Message(modelId, Model, Texts(chunks), None, sources)];
    var failed := UpdateConversation(c.(messages := msgs), modelId, ShowError(ErrorText(e)));
    var want := c.messages + [user, Message(modelId, Model, ErrorText(e), None, sources)];
    forall j | 0 <= j < |msgs| ensures failed.messages[j] == want[j] {
      if j < |c.messages| {
        assert msgs[j] == c.messages[j] && want[j] == c.messages[j];
      }
    }
    assert failed.messages == want;
  }

  /** The text an error shows (AiAssistant.tsx:116, 120). */
  function ErrorText(e: Thrown): (r: string)
    ensures StartsWith(r, "Sorry, something went wrong: ")
  {
    "Sorry, something went wrong: " + ErrorMessage(e)
  }

  /** `e instanceof Error ? e.message : 'An unknown error occurred.'`. */
  function ErrorMessage(e: Thrown): string {
    if e.ErrorInstance? then e.message else "An unknown error occurred."
  }

  // ---------------------------------------------------------------------
  // The component

  /** The state of the AiAssistant component. `chatReady` is `chat !==
      null`; `activeId` and `error` are "" when null. */
  class Assistant {
    var chatReady: bool
    var conversations: seq<Conversation>
    var activeId: string
    var isLoading: bool
    var error: string

    /** The first render: the stored list, no active conversation and no
        chat yet (AiAssistant.tsx:23-27). */
    constructor (stored: seq<Conversation>)
      ensures conversations == stored && activeId == "" && !chatReady && !isLoading && error == ""
    {
      chatReady, conversations, activeId, isLoading, error := false, stored, "", false, "";
    }

    /** The effect on `activeConversationId` (AiAssistant.tsx:51-54): a chat
        session is started. */
    method StartChat()
      modifies this`chatReady
      ensures chatReady
    {
      chatReady := true;
    }

    /** `handleNewChat` (AiAssistant.tsx:62-70). */
    method NewChat(now: nat)
      modifies this`conversations, this`activeId
      ensures conversations == old(conversations) + [NewConversation(now)]
      ensures activeId == ChatId(now)
    {
      var c := Conversation("convo-" + Decimal(now), "New Chat", []);
      conversations := conversations + [c];
      activeId := c.id;
    }

    /** The effect on `user` (AiAssistant.tsx:32-43): the user's stored list
        is loaded and its last conversation made active, or a new chat is
        started when the list is empty. */
    method LoadUser(stored: seq<Conversation>, now: nat)
      modifies this`conversations, this`activeId
      ensures stored != [] ==> conversations == stored && activeId == stored[|stored| - 1].id
      ensures stored == [] ==> conversations == [NewConversation(now)] && activeId == ChatId(now)
    {
      conversations := stored;
      if |stored| > 0 {
        activeId := stored[|stored| - 1].id;
      } else {
        NewChat(now);
      }
    }

    /** The synchronous part of `handleSend` (AiAssistant.tsx:72-92), with
        the two clock readings it takes. When the guard lets it through, the
        user message and the placeholder are appended to the active
        conversation and loading starts; the placeholder's id is returned
        for the stream. */
    method Send(prompt: string, image: Option<ImagePart>, t1: nat, t2: nat) returns (started: bool, modelId: string)
      modifies this`conversations, this`isLoading, this`error
      ensures started == !SendBlocked(old(chatReady), old(isLoading), prompt, image, activeId)
      ensures !started ==> conversations == old(conversations) && isLoading == old(isLoading) && error == old(error)
      ensures started ==> modelId == Placeholder(t2).id && isLoading && error == ""
      ensures started ==>
        conversations == UpdateActive(old(conversations), activeId, modelId,
                                      AppendExchange(UserMessage(t1, prompt, image), Placeholder(t2)))
    {
      modelId := "";
      if !chatReady || isLoading || (Trim(prompt) == "" && image.None?) || activeId == "" {
        started := false;
        return;
      }
      var userMessage := Message(Decimal(t1), User, prompt, if image.Some? then Some(DataUrl(image.value)) else None, None);
      modelId := Decimal(t2 + 1);
      var placeholder := Message(modelId, Model, "", None, None);
      conversations := UpdateActive(conversations, activeId, modelId, AppendExchange(userMessage, placeholder));
      isLoading := true;
      error := "";
      started := true;
    }

    /** The `for await` loop, the `catch` and the `finally` of `handleSend`
        (AiAssistant.tsx:94-125) for a stream that yields `chunks` and then
        either ends or throws `failure`. The updates go to the conversation
        that was active when the send started, `convId`. */
    method Stream(convId: string, modelId: string, chunks: seq<Chunk>, failure: Option<Thrown>)
      modifies this`conversations, this`isLoading, this`error
      ensures !isLoading
      ensures failure.None? ==> conversations == ApplyChunks(old(conversations), convId, modelId, chunks)
      ensures failure.None? ==> error == old(error)
      ensures failure.Some? ==> error == ErrorMessage(failure.value)
      ensures failure.Some? ==>
        conversations == UpdateActive(ApplyChunks(old(conversations), convId, modelId, chunks), convId, modelId,
                                      ShowError(ErrorText(failure.value)))
    {
      for i := 0 to |chunks|
        invariant conversations == ApplyChunks(old(conversations), convId, modelId, chunks[..i])
        invariant error == old(error)
      {
        assert chunks[..i + 1][..i] == chunks[..i];
        conversations := UpdateActive(conversations, convId, modelId, AddChunk(chunks[i]));
      }
      assert chunks[..|chunks|] == chunks;
      if failure.Some? {
        var errorMessage := if failure.value.ErrorInstance? then failure.value.message else "An unknown error occurred.";
        error := errorMessage;
        conversations := UpdateActive(conversations, convId, modelId, ShowError("Sorry, something went wrong: " + errorMessage));
      }
      isLoading := false;
    }
  }
}

/** The transcript operations of components/chat/Chat.tsx. The clock,
    `FileReader` and `localStorage` are parameters: a send takes the time it
    starts at and the outcome of its request, persistence takes the outcome
    of each data-URL read and of the storage write, and the stored
    transcript is an optional value. */
module Chat {

  import opened Wrappers
  import opened Text
  import opened AiService
  import opened FileUploadZone
  import opened ChatMessage

  /** The component's state that these operations touch: the transcript,
      the input box, the listed uploads and the single pending file. */
  datatype ChatState = ChatState(
    messages: seq<Message>,
    input: string,
    uploaded: seq<File>,
    pending: Option<File>)

  const StorageKey := "taxpadi_chat_messages"
  const GreetingText := "Hello! I'm TaxPadi, your AI tax assistant. How can I help you with your tax needs today?"
  const FallbackText := "Sorry, I'm having trouble connecting right now. Please try again in a moment."

  /** The paperclip in the upload marker, as the file's bytes decode: the
      four characters U+00F0 U+0178 U+201C U+017D. */
  const Clip := "\U{00F0}\U{0178}\U{201C}\U{017D}"

  function Greeting(now: int): Message {
    Message(Assistant, GreetingText, Some(now), None)
  }

  /** The transcript the component starts with: the stored one when there is
      one, otherwise a single greeting. */
  function LoadInitial(saved: Option<seq<Message>>, now: int): (r: seq<Message>)
    ensures saved.Some? ==> r == saved.value
    ensures saved.None? ==> |r| == 1 && r[0].role == Assistant && r[0].content == GreetingText && r[0].file.None?
  {
    if saved.Some? then saved.value else [Greeting(now)]
  }

  /** One message as `serializeMessages` stores it. */
  function SerializeOne(m: Message, toDataUrl: File -> string): Message {
    if m.file.Some? && m.file.value.LiveFile? then
      var f := m.file.value.file;
      m.(file := Some(Stored(FileData(f.name, f.mimeType, toDataUrl(f)))))
    else m
  }

  /** `serializeMessages` before `JSON.stringify`. */
  function Serialize(ms: seq<Message>, toDataUrl: File -> string): (r: seq<Message>)
    ensures |r| == |ms|
    ensures forall i :: 0 <= i < |ms| ==> r[i] == SerializeOne(ms[i], toDataUrl)
  {
    if |ms| == 0 then [] else [SerializeOne(ms[0], toDataUrl)] + Serialize(ms[1..], toDataUrl)
  }

  /** No message still holds a live `File`. */
  predicate AllStored(ms: seq<Message>) {
    forall i :: 0 <= i < |ms| ==> !(ms[i].file.Some? && ms[i].file.value.LiveFile?)
  }

  /** Serialising keeps each message's role, content, timestamp, and the
      attachment's name and type; it changes only live files, leaves no live
      file behind, and a second serialisation changes nothing. */
  lemma SerializeFaithful(ms: seq<Message>, toDataUrl: File -> string)
    ensures var r := Serialize(ms, toDataUrl);
      && AllStored(r)
      && Serialize(r, toDataUrl) == r
      && (forall i :: 0 <= i < |ms| ==>
            && r[i].role == ms[i].role && r[i].content == ms[i].content
            && r[i].timestamp == ms[i].timestamp
            && r[i].file.Some? == ms[i].file.Some?
            && (ms[i].file.Some? && ms[i].file.value.LiveFile? ==>
                  r[i].file.value.stored.name == ms[i].file.value.file.name
                  && r[i].file.value.stored.mimeType == ms[i].file.value.file.mimeType)
            && (!(ms[i].file.Some? && ms[i].file.value.LiveFile?) ==> r[i] == ms[i]))
  {
    var r := Serialize(ms, toDataUrl);
    assert forall i :: 0 <= i < |r| ==> Serialize(r, toDataUrl)[i] == r[i];
  }

  /** A stored attachment previews as the live one did, provided the
      encoder writes `data:<type>;base64,<payload>` with a type and payload
      the parser can take apart. */
  lemma SerializedPreviewMatches(f: File, toDataUrl: File -> string, payload: string, reg: Registry)
    requires Fresh(reg)
    requires toDataUrl(f) == "data:" + f.mimeType + ";base64," + payload
    requires ',' !in f.mimeType && ':' !in f.mimeType && ';' !in f.mimeType && ',' !in payload
    ensures var stored := SerializeOne(Message(User, "", None, Some(LiveFile(f))), toDataUrl).file;
      var live := RunEffect(Some(LiveFile(f)), NoDisplay, reg);
      var restored := RunEffect(stored, NoDisplay, reg);
      && restored.Ok?
      && restored.value.display.name == live.value.display.name
      && restored.value.display.mimeType == live.value.display.mimeType
      && RenderAttachment(stored, restored.value.display)
           == RenderAttachment(Some(LiveFile(f)), live.value.display)
  {
    DataUrlRoundTrip(f.mimeType, payload);
  }

  /** What each `fileToBase64` resolves with, given the reads' outcomes (a
      rejected read never reaches the serialised transcript). */
  function DataUrls(read: File -> Result<string>): File -> string {
    f => if read(f).Ok? then read(f).value else ""
  }

  /** Every live attachment in the transcript was read: `Promise.all`
      resolves only then. */
  predicate ReadsSucceed(ms: seq<Message>, read: File -> Result<string>) {
    forall i :: 0 <= i < |ms| && ms[i].file.Some? && ms[i].file.value.LiveFile? ==>
      read(ms[i].file.value.file).Ok?
  }

  /** The persistence effect on a non-empty transcript: every live
      attachment is read as a data URL (`read`), then the serialised
      transcript is written (`written` is whether `setItem` accepted it; it
      throws once the transcript exceeds the storage quota). A rejected
      read or a refused write stores nothing, and so does an empty
      transcript. */
  function Persist(ms: seq<Message>, store: Option<seq<Message>>,
                   read: File -> Result<string>, written: bool): (r: Option<seq<Message>>)
    ensures |ms| > 0 && ReadsSucceed(ms, read) && written ==>
      r.Some? && AllStored(r.value) && |r.value| == |ms|
    ensures !(|ms| > 0 && ReadsSucceed(ms, read) && written) ==> r == store
  {
    if |ms| > 0 && ReadsSucceed(ms, read) && written then
      SerializeFaithful(ms, DataUrls(read));
      Some(Serialize(ms, DataUrls(read)))
    else store
  }

  /** A reload reads back what was persisted, each attachment carrying the
      data URL its read produced. */
  lemma PersistThenLoad(ms: seq<Message>, store: Option<seq<Message>>,
                        read: File -> Result<string>, written: bool, now: int)
    requires |ms| > 0 && ReadsSucceed(ms, read) && written
    ensures var loaded := LoadInitial(Persist(ms, store, read, written), now);
      && loaded == Serialize(ms, DataUrls(read))
      && forall i :: 0 <= i < |ms| && ms[i].file.Some? && ms[i].file.value.LiveFile? ==>
           loaded[i].file == Some(Stored(FileData(ms[i].file.value.file.name, ms[i].file.value.file.mimeType,
                                                  read(ms[i].file.value.file).value)))
  {
  }

  /** The message a pending file adds: the input (or `""`), the marker and
      the file's name. */
  function UploadContent(input: string, f: File): string {
    (if input != "" then input else "") + " " + Clip + " Uploaded: " + f.name
  }

  /** `handleSendMessage` up to its request. */
  datatype SendStart = SendStart(state: ChatState, request: Option<ChatRequest>)

  function BeginSend(s: ChatState, t: int): (r: SendStart)
    ensures IsBlank(s.input) && s.pending.None? ==> r == SendStart(s, None)
    ensures !(IsBlank(s.input) && s.pending.None?) ==>
      && r.state.input == "" && r.state.uploaded == [] && r.state.pending.None?
      && r.request == Some(ChatRequest(s.input, None, s.pending))
      && |r.state.messages| == |s.messages| + (if IsBlank(s.input) then 0 else 1) + (if s.pending.Some? then 1 else 0)
      && r.state.messages[..|s.messages|] == s.messages
  {
    TrimEmptyIffBlank(s.input);
    if |Trim(s.input)| == 0 && s.pending.None? then SendStart(s, None)
    else
      var user := if |Trim(s.input)| != 0 then [Message(User, s.input, Some(t), None)] else [];
      var upload := match s.pending
        case Some(f) => [Message(User, UploadContent(s.input, f), Some(t + 1), Some(LiveFile(f)))]
        case None => [];
      SendStart(ChatState(s.messages + user + upload, "", [], None), Some(ChatRequest(s.input, None, s.pending)))
  }

  /** The optimistic messages a send appends, in order: the typed text at
      `t` when it is not blank, then the upload notice at `t + 1` when a
      file is pending, whose content starts with the typed text and ends
      with the file's name. */
  lemma SendAppendsInOrder(s: ChatState, t: int)
    requires !(IsBlank(s.input) && s.pending.None?)
    ensures var added := BeginSend(s, t).state.messages[|s.messages|..];
      && (!IsBlank(s.input) ==> added[0] == Message(User, s.input, Some(t), None))
      && (s.pending.Some? ==>
            var m := added[|added| - 1];
            && m.role == User && m.timestamp == Some(t + 1)
            && m.file == Some(LiveFile(s.pending.value))
            && StartsWith(m.content, s.input)
            && m.content[|m.content| - |s.pending.value.name|..] == s.pending.value.name)
  {
    TrimEmptyIffBlank(s.input);
  }

  /** The rest of `handleSendMessage`: exactly one assistant message, the
      reply or the fallback, appended to whatever the transcript is by then. */
  function CompleteSend(s: ChatState, outcome: Result<ChatResponse>, now: int): (r: ChatState)
    ensures |r.messages| == |s.messages| + 1 && r.messages[..|s.messages|] == s.messages
    ensures r.messages[|s.messages|].role == Assistant
    ensures r.messages[|s.messages|].content == (if outcome.Ok? then outcome.value.response else FallbackText)
    ensures r.input == s.input && r.uploaded == s.uploaded && r.pending == s.pending
  {
    var content := match outcome
      case Ok(response) => response.response
      case Err(_) => FallbackText;
    s.(messages := s.messages + [Message(Assistant, content, Some(now), None)])
  }

  /** The chat puts its attachment under `file`, and `sendMessage` only goes
      multipart when `files` is non-empty: every chat request is a JSON post
      of the request object. The attachment stays under `file`, where JSON
      serialisation reduces a browser `File` to `{}`, so its contents are
      never uploaded. */
  lemma ChatRequestsArePostedAsJson(s: ChatState, t: int)
    ensures var r := BeginSend(s, t).request;
      r.Some? ==> SendMessage(r.value) == PostJson(ChatEndpoint, ChatRequest(s.input, None, s.pending))
  {
  }

  /** `handleFileUpload(files)`: the first file becomes the pending one (an
      empty selection clears it) and every file is listed. */
  function HandleFileUpload(s: ChatState, files: seq<File>): (r: ChatState)
    ensures r.pending == (if |files| > 0 then Some(files[0]) else None)
    ensures r.uploaded == OnDrop(s.uploaded, files)
    ensures r.messages == s.messages && r.input == s.input
  {
    s.(pending := if |files| > 0 then Some(files[0]) else None, uploaded := s.uploaded + files)
  }

  /** `removeFile(index)`: the listed file goes, the pending one stays. */
  function RemoveFile(s: ChatState, index: int): (r: ChatState)
    ensures r.messages == s.messages && r.input == s.input && r.pending == s.pending
    ensures 0 <= index < |s.uploaded| ==> r.uploaded == s.uploaded[..index] + s.uploaded[index + 1..]
    ensures !(0 <= index < |s.uploaded|) ==> r.uploaded == s.uploaded
  {
    s.(uploaded := RemoveAt(s.uploaded, index))
  }

  /** Removing a file only affects the list, by exactly that one entry. */
  lemma RemoveFileTakesOne(s: ChatState, index: int)
    requires 0 <= index < |s.uploaded|
    ensures multiset(RemoveFile(s, index).uploaded) + multiset{s.uploaded[index]} == multiset(s.uploaded)
    ensures RemoveFile(s, index).pending == s.pending
  {
    RemoveAtTakesOneOut(s.uploaded, index);
  }

  /** `clearChatHistory`, given the user's answer to the confirmation: the
      transcript becomes the greeting and the stored key is removed. */
  function ClearChatHistory(s: ChatState, store: Option<seq<Message>>, confirmed: bool, now: int):
    (r: (ChatState, Option<seq<Message>>))
    ensures !confirmed ==> r == (s, store)
    ensures confirmed ==> r.0.messages == [Greeting(now)] && r.1.None?
    ensures r.0.input == s.input && r.0.uploaded == s.uploaded && r.0.pending == s.pending
  {
    if confirmed then (s.(messages := [Greeting(now)]), None) else (s, store)
  }

  /** The removal does not stick: the persistence effect that follows the
      new transcript writes the greeting back, unless the write is refused. */
  lemma ClearedHistoryIsStoredAgain(s: ChatState, store: Option<seq<Message>>, now: int,
                                    read: File -> Result<string>, written: bool)
    ensures var (s', store') := ClearChatHistory(s, store, true, now);
      Persist(s'.messages, store', read, written) == if written then Some([Greeting(now)]) else None
  {
    var (s', store') := ClearChatHistory(s, store, true, now);
    var stored := Serialize(s'.messages, DataUrls(read));
    assert |stored| == 1 && stored[0] == SerializeOne(Greeting(now), DataUrls(read)) == Greeting(now);
    assert stored == [Greeting(now)];
  }
}

/** The chat types and `aiService.sendMessage` of services/ai.service.ts.
    The HTTP client is not part of this model: `sendMessage` is modelled as
    the call it hands to the client, a multipart upload or a JSON post. */
module AiService {

  import opened Wrappers

  /** A browser `File`: only the properties the chat reads. */
  datatype File = File(name: string, mimeType: string, size: nat)

  /** `FileData`: a file as it is persisted, its bytes as a data URL. */
  datatype FileData = FileData(name: string, mimeType: string, data: string)

  /** `ChatMessage.file`: a live `File` or a stored `FileData`. */
  datatype Attachment = LiveFile(file: File) | Stored(stored: FileData)

  datatype Role = User | Assistant

  /** `ChatMessage` (the unused `fileType` property is not modelled). */
  datatype Message = Message(role: Role, content: string, timestamp: Option<int>, file: Option<Attachment>)

  /** `ChatRequest`, together with the undeclared `file` property the chat
      component sets on the object it sends. */
  datatype ChatRequest = ChatRequest(message: string, files: Option<seq<File>>, file: Option<File>)

  /** `ChatResponse.data.response` */
  datatype ChatResponse = ChatResponse(response: string)

  /** `ENDPOINTS.CHAT` */
  const ChatEndpoint := "/ai/chat"

  /** One entry of a multipart body. */
  datatype FormEntry = MessageField(text: string) | FilesField(file: File)

  /** What `sendMessage` asks the HTTP client to do. */
  datatype Call = Upload(endpoint: string, form: seq<FormEntry>) | PostJson(endpoint: string, body: ChatRequest)

  /** The `files` entries the `forEach` appends, one per file in order. */
  function FileEntries(files: seq<File>): (r: seq<FormEntry>)
    ensures |r| == |files|
    ensures forall i :: 0 <= i < |files| ==> r[i] == FilesField(files[i])
  {
    if |files| == 0 then [] else [FilesField(files[0])] + FileEntries(files[1..])
  }

  /** `sendMessage(request)` */
  function SendMessage(req: ChatRequest): (c: Call)
    ensures c.endpoint == ChatEndpoint
    ensures c.Upload? <==> req.files.Some? && |req.files.value| > 0
    ensures c.PostJson? ==> c.body == req
    ensures c.Upload? ==>
      && |c.form| == 1 + |req.files.value|
      && c.form[0] == MessageField(req.message)
      && forall i :: 0 <= i < |req.files.value| ==> c.form[i + 1] == FilesField(req.files.value[i])
  {
    if req.files.Some? && |req.files.value| > 0 then
      Upload(ChatEndpoint, [MessageField(req.message)] + FileEntries(req.files.value))
    else
      PostJson(ChatEndpoint, req)
  }

  /** The files a multipart body carries, in order. */
  function UploadedFiles(form: seq<FormEntry>): seq<File> {
    if |form| == 0 then []
    else (if form[0].FilesField? then [form[0].file] else []) + UploadedFiles(form[1..])
  }

  /** The message fields a multipart body carries, in order. */
  function MessageFields(form: seq<FormEntry>): seq<string> {
    if |form| == 0 then []
    else (if form[0].MessageField? then [form[0].text] else []) + MessageFields(form[1..])
  }

  lemma {:induction false} FileEntriesCarryFiles(files: seq<File>)
    ensures UploadedFiles(FileEntries(files)) == files
    ensures MessageFields(FileEntries(files)) == []
  {
    if |files| > 0 {
      FileEntriesCarryFiles(files[1..]);
      assert FileEntries(files)[1..] == FileEntries(files[1..]);
    }
  }

  /** The multipart body reads back as exactly one `message` field holding
      the request's message and the request's files in their order; the JSON
      body is the request itself. */
  lemma SendMessageCarriesRequest(req: ChatRequest)
    ensures var c := SendMessage(req);
      c.Upload? ==>
        MessageFields(c.form) == [req.message] && UploadedFiles(c.form) == req.files.value
  {
    var c := SendMessage(req);
    if c.Upload? {
      FileEntriesCarryFiles(req.files.value);
      assert c.form[1..] == FileEntries(req.files.value);
    }
  }
}

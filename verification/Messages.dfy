/**
 The values that travel between an MCP client and an MCP server: JSON-RPC 2.0 messages, their
 decoded parameters, and the capability records exchanged during initialization.

 JSON text is not modelled.  `Params` stands for the decoded parameters of a message, and its field
 `decodes` says whether decoding into the parameter type of the message's method succeeds.
 */
module Messages {

  datatype Option<+T> = None | Some(value: T)

  type Id = string
  type SessionId = string
  type Token = string
  type Uri = string

  const JSONRPC_VERSION := "2.0"
  const INVALID_PARAMS_CODE := -32602
  const INTERNAL_ERROR_CODE := -32603

  /** The method field.  `NoMethod` is the empty string, which marks a response. */
  datatype Method =
    | NoMethod
    | Ping | Initialize
    | PromptsList | PromptsGet
    | ResourcesList | ResourcesRead | ResourcesTemplatesList | ResourcesSubscribe | ResourcesUnsubscribe
    | ToolsList | ToolsCall
    | CompletionComplete
    | LoggingSetLevel
    | RootsList | SamplingCreateMessage
    | NotifyInitialized | NotifyCancelled | NotifyRootsListChanged
    | NotifyPromptsListChanged | NotifyResourcesListChanged | NotifyResourcesUpdated
    | NotifyToolsListChanged | NotifyProgress | NotifyMessage
    | Unknown(name: string)

  /** A method with a name, as every request and notification has. */
  type NamedMethod = m: Method | m != NoMethod witness Ping

  datatype PromptsCapability = PromptsCapability(listChanged: bool)
  datatype ResourcesCapability = ResourcesCapability(subscribe: bool, listChanged: bool)
  datatype ToolsCapability = ToolsCapability(listChanged: bool)
  datatype RootsCapability = RootsCapability(listChanged: bool)

  datatype ServerCapabilities = ServerCapabilities(
    prompts: Option<PromptsCapability>,
    resources: Option<ResourcesCapability>,
    tools: Option<ToolsCapability>,
    logging: bool)

  datatype ClientCapabilities = ClientCapabilities(
    roots: Option<RootsCapability>,
    sampling: bool)

  datatype RefType = RefPrompt | RefResource | RefOther

  datatype Params = Params(
    decodes: bool,
    token: Token,
    uri: Uri,
    refType: RefType,
    version: string,
    capabilities: ClientCapabilities,
    progress: nat,
    total: real,
    requestId: Id,
    tool: string,
    text: string)

  const NO_PARAMS :=
    Params(true, "", "", RefOther, "", ClientCapabilities(None, false), 0, 0.0, "", "", "")

  /**
   The result member of a response.  `Null` is what a handler without a result sends; `Object` is a JSON
   object with none of the members that the end of `initialize` reads, and `Data` any other result.
   */
  datatype Value =
    | Null
    | Object
    | InitializeResult(version: string, capabilities: ServerCapabilities)
    | Data(text: string)

  datatype RpcError = RpcError(code: int, message: string)

  datatype Message = Message(
    jsonrpc: string,
    id: Id,
    verb: Method,
    params: Params,
    result: Option<Value>,
    error: Option<RpcError>)

  /** What a handler decides to answer, before it becomes a message. */
  datatype Reply = Success(value: Value) | Failure(error: RpcError)

  function Request(id: Id, verb: NamedMethod, params: Params): Message {
    Message(JSONRPC_VERSION, id, verb, params, None, None)
  }

  function Notice(verb: NamedMethod, params: Params): Message {
    Message(JSONRPC_VERSION, "", verb, params, None, None)
  }

  function Response(id: Id, reply: Reply): Message {
    match reply
    case Success(v) => Message(JSONRPC_VERSION, id, NoMethod, NO_PARAMS, Some(v), None)
    case Failure(e) => Message(JSONRPC_VERSION, id, NoMethod, NO_PARAMS, None, Some(e))
  }

  /** What the receiver of a response reads out of it; an error takes precedence over a result. */
  function ReplyOf(msg: Message): (reply: Reply)
  {
    match (msg.error, msg.result)
    case (Some(e), _) => Failure(e)
    case (None, Some(v)) => Success(v)
    case (None, None) => Success(Null)
  }

  /** A response is what its receiver reads out of it, and carries exactly one of result and error. */
  lemma ResponseRoundTrip(id: Id, reply: Reply)
    ensures ReplyOf(Response(id, reply)) == reply
    ensures Response(id, reply).result.Some? != Response(id, reply).error.Some?
  {
  }
  /** Requests, notifications and responses in the form that JSON-RPC 2.0 gives them. */
  lemma WireForm(id: Id, verb: NamedMethod, params: Params, reply: Reply)
    ensures Request(id, verb, params) == Message("2.0", id, verb, params, None, None)
    ensures Notice(verb, params) == Message("2.0", "", verb, params, None, None)
    ensures var msg := Response(id, reply);
            msg.jsonrpc == "2.0" && msg.id == id && msg.verb.NoMethod? && (msg.result.Some? != msg.error.Some?)
  {
  }
}

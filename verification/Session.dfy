/**
 One server session: the messages it has received, the task spawned for each of them, the requests
 its tasks have sent back to the client, and everything it has written to its transport.

 A session moves by the steps of `Step`.  Each step is one atomic action of a goroutine of the
 server; which goroutine moves next, what arrives and which writes succeed is left to the label, so
 the labelled runs are all the interleavings.  Received and sent messages are kept as histories: a
 task is named by the position of the message it serves, and a sent message by its position in `sent`.
 */
module Session {
  import opened Messages
  import opened Negotiation
  import Sets

  /** What a handler supplied by the user does next, given everything it has seen so far. */
  datatype Action =
    | Report(token: Token, progress: nat, total: real)
    | Ask(verb: NamedMethod, params: Params)
    | Return(value: Value)
    | Fail

  datatype Event = Reported | Answered(reply: Reply) | Unanswered

  type Handler = (Method, Params, seq<Event>) -> Action

  datatype ServerConfig = ServerConfig(
    version: string,
    parts: set<ServerSlot>,
    needs: ClientRequirement,
    handler: Handler)

  const INTERNAL_ERROR := RpcError(INTERNAL_ERROR_CODE, "Internal error")

  // ----- dispatch

  datatype Routed = Reject | Launch(storesToken: bool) | RootsChanged | Ignore

  /** Requests answered by a handler that the user supplies. */
  predicate UserVerb(verb: Method) {
    verb.PromptsList? || verb.PromptsGet? || verb.ResourcesList? || verb.ResourcesRead?
    || verb.ResourcesTemplatesList? || verb.ToolsList? || verb.ToolsCall? || verb.CompletionComplete?
  }

  /** Requests that are served only once the session is initialized. */
  predicate NeedsInitialized(verb: Method) {
    UserVerb(verb) || verb.ResourcesSubscribe? || verb.ResourcesUnsubscribe? || verb.LoggingSetLevel?
  }

  predicate RequestVerb(verb: Method) {
    NeedsInitialized(verb) || verb.Ping? || verb.Initialize?
  }

  /** The notifications a server sends. */
  predicate NoticeVerb(verb: Method) {
    verb.NotifyPromptsListChanged? || verb.NotifyResourcesListChanged? || verb.NotifyResourcesUpdated?
    || verb.NotifyToolsListChanged? || verb.NotifyProgress? || verb.NotifyMessage?
  }

  function Family(cfg: ServerConfig, provider: ServerSlot, msg: Message, hasMeta: bool): Routed {
    if provider !in cfg.parts then Ignore
    else if !msg.params.decodes then Reject
    else Launch(hasMeta && msg.params.token != "")
  }

  /** Dispatch as one flat lookup on the method. */
  function Route(cfg: ServerConfig, msg: Message): Routed {
    match msg.verb
    case NoMethod => Launch(false)
    case Ping => Launch(false)
    case Initialize => if msg.params.decodes then Launch(false) else Reject
    case PromptsList => Family(cfg, PromptServer, msg, true)
    case PromptsGet => Family(cfg, PromptServer, msg, true)
    case ResourcesList => Family(cfg, ResourceServer, msg, true)
    case ResourcesRead => Family(cfg, ResourceServer, msg, true)
    case ResourcesTemplatesList => Family(cfg, ResourceServer, msg, true)
    case ResourcesSubscribe => Family(cfg, ResourceServer, msg, false)
    case ResourcesUnsubscribe => Family(cfg, ResourceServer, msg, false)
    case ToolsList => Family(cfg, ToolServer, msg, true)
    case ToolsCall => Family(cfg, ToolServer, msg, true)
    case CompletionComplete =>
      if !msg.params.decodes then Reject
      else if msg.params.refType.RefOther? then Ignore else Launch(false)
    case LoggingSetLevel => Family(cfg, LogHandler, msg, false)
    case NotifyInitialized => Launch(false)
    case NotifyCancelled => if msg.params.decodes then Launch(false) else Reject
    case NotifyRootsListChanged => if RootsListWatcher in cfg.parts then RootsChanged else Ignore
    case _ => Ignore
  }

  /** A completion request needs the prompt or resource server that its reference names. */
  predicate Provided(cfg: ServerConfig, msg: Message) {
    msg.verb.CompletionComplete? ==>
      && (msg.params.refType.RefPrompt? ==> PromptServer in cfg.parts)
      && (msg.params.refType.RefResource? ==> ResourceServer in cfg.parts)
  }

  /** The server's answer to `initialize`. */
  function InitializeReply(cfg: ServerConfig, params: Params): Reply {
    if params.version != cfg.version then
      Failure(RpcError(INVALID_PARAMS_CODE, "Unsupported protocol version"))
    else if CheckClient(RequiredByServer(cfg.parts, cfg.needs), params.capabilities).Some? then
      Failure(RpcError(INVALID_PARAMS_CODE, "Insufficient client capabilities"))
    else
      Success(InitializeResult(cfg.version, OfferedByServer(cfg.parts)))
  }

  /**
   The answer to `initialize` is a success exactly when the versions are equal and the client covers what
   the server requires; then it names the server's version and what it offers.  Otherwise it is an
   invalid-parameters error.
   */
  lemma InitializeReplyIs(cfg: ServerConfig, params: Params)
    ensures var reply := InitializeReply(cfg, params);
            && (reply.Success? <==> params.version == cfg.version
                                    && ClientCovers(params.capabilities, RequiredByServer(cfg.parts, cfg.needs)))
            && (reply.Success? ==> reply.value == InitializeResult(cfg.version, OfferedByServer(cfg.parts)))
            && (reply.Failure? ==> reply.error.code == -32602)
  {
    CheckClientIsOrder(RequiredByServer(cfg.parts, cfg.needs), params.capabilities);
  }

  /** The part of a server that serves a request. */
  predicate Serves(part: ServerSlot, verb: Method) {
    match part
    case PromptServer => verb.PromptsList? || verb.PromptsGet?
    case ResourceServer =>
      verb.ResourcesList? || verb.ResourcesRead? || verb.ResourcesTemplatesList?
      || verb.ResourcesSubscribe? || verb.ResourcesUnsubscribe?
    case ToolServer => verb.ToolsList? || verb.ToolsCall?
    case LogHandler => verb.LoggingSetLevel?
    case _ => false
  }

  /** A request starts a handler exactly when the part that serves it is there and it decodes. */
  lemma RoutedByPart(cfg: ServerConfig, msg: Message, part: ServerSlot)
    requires Serves(part, msg.verb)
    ensures Route(cfg, msg).Launch? <==> part in cfg.parts && msg.params.decodes
    ensures Route(cfg, msg).Reject? <==> part in cfg.parts && !msg.params.decodes
    ensures Route(cfg, msg).Ignore? <==> part !in cfg.parts
  {
  }

  /** Messages that no part of the server is needed for. */
  lemma RoutedWithoutPart(cfg: ServerConfig, msg: Message)
    ensures msg.verb.Ping? || msg.verb.NoMethod? || msg.verb.NotifyInitialized? ==> Route(cfg, msg) == Launch(false)
    ensures msg.verb.Initialize? || msg.verb.NotifyCancelled? ==>
              Route(cfg, msg) == if msg.params.decodes then Launch(false) else Reject
    ensures msg.verb.CompletionComplete? ==>
              && (Route(cfg, msg) == Launch(false) <==> msg.params.decodes && !msg.params.refType.RefOther?)
              && (Route(cfg, msg) == Reject <==> !msg.params.decodes)
    ensures msg.verb.NotifyRootsListChanged? ==> (Route(cfg, msg) == RootsChanged <==> RootsListWatcher in cfg.parts)
    ensures msg.verb.Unknown? || msg.verb.RootsList? || msg.verb.SamplingCreateMessage? || NoticeVerb(msg.verb) ==>
              Route(cfg, msg) == Ignore
  {
  }

  // ----- the state

  /** Where the goroutine of one received message stands. */
  datatype Phase =
    | Spawned
    | Running(seen: seq<Event>)
    | Awaiting(seen: seq<Event>, call: Id)
    | Replied(seen: seq<Event>, reply: Reply, at: Option<nat>)
    | Dropped
    | Done
  {
    predicate Live() { Spawned? || Running? || Awaiting? }
  }

  /** `from` is the received message whose task handed the answer over. */
  datatype CallbackStatus = Sending | Waiting | Given(from: nat, reply: Reply) | Abandoned

  /** A request of the server to the client, and the task that waits for it (none for a ping). */
  datatype Callback = Callback(
    verb: NamedMethod, params: Params, owner: Option<nat>, at: Option<nat>, status: CallbackStatus)
  {
    predicate Open() { status.Sending? || status.Waiting? }
  }

  datatype Update =
    | PromptsChanged | ResourcesChanged | ResourceUpdated(uri: Uri) | ToolsChanged
    | Logged(text: string) | Progressed(token: Token, progress: nat, total: real)

  datatype Sent = Answer(task: nat, msg: Message) | Query(call: Id, msg: Message) | Tell(msg: Message)

  /** `inbox` is what the listen loop is working on: its channels are unbuffered, so at most one update. */
  datatype State = State(
    initialized: bool,
    subscribed: set<Uri>,
    changes: seq<Setting<Uri>>,
    inbox: seq<Update>,
    callbacks: map<Id, Callback>,
    recv: seq<Message>,
    tasks: map<nat, Phase>,
    sent: seq<Sent>)

  const FRESH := State(false, {}, [], [], map[], [], map[], [])

  datatype Step =
    | Receive(msg: Message)
    | Begin(task: nat, delivered: bool)
    | Act(task: nat, call: Id, delivered: bool)
    | SendDone(call: Id, ok: bool)
    | HandOver(task: nat)
    | Discard(task: nat)
    | Expire(call: Id)
    | PingClient(call: Id, delivered: bool)
    | Take(update: Update)
    | Emit(delivered: bool)

  // ----- the steps

  function Put(delivered: bool, out: seq<Sent>, item: Sent): seq<Sent> {
    if delivered then out + [item] else out
  }

  function Place(delivered: bool, out: seq<Sent>): Option<nat> {
    if delivered then Some(|out|) else None
  }

  /** The task answers its request and ends. */
  function Settle(s: State, k: nat, seen: seq<Event>, reply: Reply, delivered: bool): State
    requires k < |s.recv|
  {
    s.(tasks := s.tasks[k := Replied(seen, reply, Place(delivered, s.sent))],
       sent := Put(delivered, s.sent, Answer(k, Response(s.recv[k].id, reply))))
  }

  function Record(s: State, uri: Uri, on: bool): State {
    s.(subscribed := if on then s.subscribed + {uri} else s.subscribed - {uri},
       changes := s.changes + [Setting(uri, on)])
  }

  function BeginTask(cfg: ServerConfig, s: State, k: nat, delivered: bool): State
    requires k < |s.recv|
  {
    var msg := s.recv[k];
    if NeedsInitialized(msg.verb) && !s.initialized then s.(tasks := s.tasks[k := Dropped])
    else match msg.verb
      case Ping => Settle(s, k, [], Success(Null), delivered)
      case Initialize => Settle(s, k, [], InitializeReply(cfg, msg.params), delivered)
      case ResourcesSubscribe => Settle(Record(s, msg.params.uri, true), k, [], Success(Null), delivered)
      case ResourcesUnsubscribe => Settle(Record(s, msg.params.uri, false), k, [], Success(Null), delivered)
      case LoggingSetLevel => Settle(s, k, [], Success(Null), delivered)
      case NotifyInitialized => s.(initialized := true, tasks := s.tasks[k := Done])
      case NotifyCancelled => s.(tasks := s.tasks[k := Done])
      case _ => s.(tasks := s.tasks[k := Running([])])
  }

  function ActTask(cfg: ServerConfig, s: State, k: nat, call: Id, delivered: bool): State
    requires k < |s.recv| && k in s.tasks && s.tasks[k].Running?
  {
    var msg, seen := s.recv[k], s.tasks[k].seen;
    match cfg.handler(msg.verb, msg.params, seen)
    case Report(_, _, _) => s.(tasks := s.tasks[k := Running(seen + [Reported])])
    case Ask(verb, params) =>
      s.(callbacks := s.callbacks[call := Callback(verb, params, Some(k), Place(delivered, s.sent), Sending)],
         tasks := s.tasks[k := Awaiting(seen, call)],
         sent := Put(delivered, s.sent, Query(call, Request(call, verb, params))))
    case Return(value) => Settle(s, k, seen, Success(value), delivered)
    case Fail => Settle(s, k, seen, Failure(INTERNAL_ERROR), delivered)
  }

  /** Closes a callback and lets the task that waits for it go on. */
  function Resume(s: State, call: Id, status: CallbackStatus, event: Event): State
    requires call in s.callbacks
  {
    var c := s.callbacks[call];
    var s' := s.(callbacks := s.callbacks[call := c.(status := status)]);
    if c.owner.Some? && c.owner.value in s.tasks && s.tasks[c.owner.value].Awaiting? then
      s'.(tasks := s.tasks[c.owner.value := Running(s.tasks[c.owner.value].seen + [event])])
    else s'
  }

  function NoticeOf(u: Update): Message {
    match u
    case PromptsChanged => Notice(NotifyPromptsListChanged, NO_PARAMS)
    case ResourcesChanged => Notice(NotifyResourcesListChanged, NO_PARAMS)
    case ResourceUpdated(uri) => Notice(NotifyResourcesUpdated, NO_PARAMS.(uri := uri))
    case ToolsChanged => Notice(NotifyToolsListChanged, NO_PARAMS)
    case Logged(text) => Notice(NotifyMessage, NO_PARAMS.(text := text))
    case Progressed(t, p, n) => Notice(NotifyProgress, NO_PARAMS.(token := t, progress := p, total := n))
  }

  /** Whether the session's listen loop passes an update on to the client. */
  predicate PassesOn(s: State, u: Update) {
    u.ResourceUpdated? ==> u.uri in s.subscribed
  }

  predicate Unused(s: State, call: Id) {
    call != "" && call !in s.callbacks
  }

  predicate Enabled(cfg: ServerConfig, s: State, step: Step) {
    match step
    case Receive(_) => true
    case Begin(k, _) =>
      k in s.tasks && k < |s.recv| && s.tasks[k].Spawned? && !s.recv[k].verb.NoMethod? && Provided(cfg, s.recv[k])
    case Act(k, call, _) => k in s.tasks && k < |s.recv| && s.tasks[k].Running? && Unused(s, call)
    case SendDone(call, _) => call in s.callbacks && s.callbacks[call].status.Sending?
    case HandOver(k) =>
      k in s.tasks && k < |s.recv| && s.tasks[k].Spawned? && s.recv[k].verb.NoMethod?
      && s.recv[k].id in s.callbacks && s.callbacks[s.recv[k].id].status.Waiting?
    case Discard(k) =>
      k in s.tasks && k < |s.recv| && s.tasks[k].Spawned? && s.recv[k].verb.NoMethod?
      && s.recv[k].id !in s.callbacks
    case Expire(call) => call in s.callbacks && s.callbacks[call].status.Waiting?
    case PingClient(call, _) => Unused(s, call)
    case Take(_) => s.inbox == []
    case Emit(_) => s.inbox != []
  }

  function Next(cfg: ServerConfig, s: State, step: Step): State
    requires Enabled(cfg, s, step)
  {
    match step
    case Receive(msg) =>
      s.(recv := s.recv + [msg],
         tasks := if Route(cfg, msg).Launch? then s.tasks[|s.recv| := Spawned] else s.tasks)
    case Begin(k, delivered) => BeginTask(cfg, s, k, delivered)
    case Act(k, call, delivered) => ActTask(cfg, s, k, call, delivered)
    case SendDone(call, ok) =>
      if ok then s.(callbacks := s.callbacks[call := s.callbacks[call].(status := Waiting)])
      else Resume(s, call, Abandoned, Unanswered)
    case HandOver(k) =>
      var reply := ReplyOf(s.recv[k]);
      Resume(s.(tasks := s.tasks[k := Done]), s.recv[k].id, Given(k, reply), Answered(reply))
    case Discard(k) => s.(tasks := s.tasks[k := Done])
    case Expire(call) => Resume(s, call, Abandoned, Unanswered)
    case PingClient(call, delivered) =>
      s.(callbacks := s.callbacks[call := Callback(Ping, NO_PARAMS, None, Place(delivered, s.sent), Sending)],
         sent := Put(delivered, s.sent, Query(call, Request(call, Ping, NO_PARAMS))))
    case Take(update) => s.(inbox := s.inbox + [update])
    case Emit(delivered) =>
      s.(inbox := s.inbox[1..],
         sent := Put(delivered && PassesOn(s, s.inbox[0]), s.sent, Tell(NoticeOf(s.inbox[0]))))
  }

  // ----- the invariant of a session, for any behaviour of its client

  /** The reply a task may give to `msg` after the events `seen`. */
  ghost predicate Explains(cfg: ServerConfig, msg: Message, seen: seq<Event>, reply: Reply) {
    if msg.verb.Initialize? then reply == InitializeReply(cfg, msg.params)
    else if UserVerb(msg.verb) then
      match cfg.handler(msg.verb, msg.params, seen)
      case Return(value) => reply == Success(value)
      case Fail => reply == Failure(INTERNAL_ERROR)
      case _ => false
    else reply == Success(Null)
  }

  ghost predicate TaskOk(cfg: ServerConfig, s: State, k: nat)
    requires k in s.tasks
  {
    k < |s.recv| &&
    var msg := s.recv[k];
    Route(cfg, msg).Launch? &&
    match s.tasks[k]
    case Spawned => true
    case Running(seen) => UserVerb(msg.verb) && s.initialized
    case Awaiting(seen, call) =>
      && UserVerb(msg.verb) && s.initialized
      && call in s.callbacks && s.callbacks[call].owner == Some(k) && s.callbacks[call].Open()
      && cfg.handler(msg.verb, msg.params, seen) == Ask(s.callbacks[call].verb, s.callbacks[call].params)
    case Replied(seen, reply, at) =>
      && RequestVerb(msg.verb) && (NeedsInitialized(msg.verb) ==> s.initialized)
      && Explains(cfg, msg, seen, reply)
      && (at.Some? ==> at.value < |s.sent| && s.sent[at.value] == Answer(k, Response(msg.id, reply)))
    case Dropped => NeedsInitialized(msg.verb)
    case Done => msg.verb.NoMethod? || msg.verb.NotifyInitialized? || msg.verb.NotifyCancelled?
  }

  /** The requests that reach a prompt, resource, tool, completion or log-level handler of the server. */
  predicate Guarded(verb: Method) {
    match verb
    case PromptsList => true
    case PromptsGet => true
    case ResourcesList => true
    case ResourcesRead => true
    case ResourcesTemplatesList => true
    case ResourcesSubscribe => true
    case ResourcesUnsubscribe => true
    case ToolsList => true
    case ToolsCall => true
    case CompletionComplete => true
    case LoggingSetLevel => true
    case _ => false
  }

  /** The task at `k` serves a request that needs an initialized session, and was let through. */
  ghost predicate PastFirstCheck(s: State, k: nat) {
    && k in s.tasks && k < |s.recv| && Guarded(s.recv[k].verb)
    && !s.tasks[k].Spawned? && !s.tasks[k].Dropped?
  }

  ghost predicate CallbackOk(s: State, call: Id)
    requires call in s.callbacks
  {
    var c := s.callbacks[call];
    && (c.at.Some? ==> c.at.value < |s.sent|
                       && s.sent[c.at.value] == Query(call, Request(call, c.verb, c.params)))
    && (c.owner.Some? && c.Open() ==>
          c.owner.value in s.tasks && s.tasks[c.owner.value].Awaiting? && s.tasks[c.owner.value].call == call)
  }

  ghost predicate SentOk(s: State, j: nat)
    requires j < |s.sent|
  {
    match s.sent[j]
    case Answer(k, msg) =>
      && k in s.tasks && k < |s.recv| && s.tasks[k].Replied? && s.tasks[k].at == Some(j)
      && msg == Response(s.recv[k].id, s.tasks[k].reply)
    case Query(call, msg) =>
      && call in s.callbacks && s.callbacks[call].at == Some(j)
      && msg == Request(call, s.callbacks[call].verb, s.callbacks[call].params)
    case Tell(msg) => NoticeVerb(msg.verb)
  }

  ghost predicate Inv(cfg: ServerConfig, s: State) {
    && (forall k :: k in s.tasks ==> TaskOk(cfg, s, k))
    && (forall call :: call in s.callbacks ==> CallbackOk(s, call))
    && (forall j :: 0 <= j < |s.sent| ==> SentOk(s, j))
  }

  lemma InvReceive(cfg: ServerConfig, s: State, msg: Message)
    requires Inv(cfg, s)
    ensures Inv(cfg, Next(cfg, s, Receive(msg)))
  {
    var s' := Next(cfg, s, Receive(msg));
    forall k | k in s'.tasks ensures TaskOk(cfg, s', k) {
      if k in s.tasks { assert TaskOk(cfg, s, k); }
    }
    forall call | call in s'.callbacks ensures CallbackOk(s', call) {
      assert CallbackOk(s, call);
    }
    forall j | 0 <= j < |s'.sent| ensures SentOk(s', j) {
      assert SentOk(s, j);
    }
  }

  lemma InvSettle(cfg: ServerConfig, s: State, k: nat, seen: seq<Event>, reply: Reply, delivered: bool)
    requires Inv(cfg, s) && k in s.tasks && k < |s.recv|
    requires s.tasks[k].Spawned? || s.tasks[k].Running?
    requires RequestVerb(s.recv[k].verb) && (NeedsInitialized(s.recv[k].verb) ==> s.initialized)
    requires Explains(cfg, s.recv[k], seen, reply)
    ensures Inv(cfg, Settle(s, k, seen, reply, delivered))
  {
    var s' := Settle(s, k, seen, reply, delivered);
    forall k' | k' in s'.tasks ensures TaskOk(cfg, s', k') {
      assert TaskOk(cfg, s, k');
    }
    forall call | call in s'.callbacks ensures CallbackOk(s', call) {
      assert CallbackOk(s, call);
    }
    forall j | 0 <= j < |s'.sent| ensures SentOk(s', j) {
      if j < |s.sent| { assert SentOk(s, j); }
    }
  }

  /** The task moves on without sending anything. */
  lemma InvPhase(cfg: ServerConfig, s: State, k: nat, phase: Phase, initialized: bool)
    requires Inv(cfg, s) && k in s.tasks && s.tasks[k].Spawned? && (s.initialized ==> initialized)
    requires !phase.Replied? && TaskOk(cfg, s.(initialized := initialized, tasks := s.tasks[k := phase]), k)
    ensures Inv(cfg, s.(initialized := initialized, tasks := s.tasks[k := phase]))
  {
    var s' := s.(initialized := initialized, tasks := s.tasks[k := phase]);
    forall k' | k' in s'.tasks ensures TaskOk(cfg, s', k') {
      assert TaskOk(cfg, s, k');
    }
    forall call | call in s'.callbacks ensures CallbackOk(s', call) {
      assert CallbackOk(s, call);
    }
    forall j | 0 <= j < |s'.sent| ensures SentOk(s', j) {
      assert SentOk(s, j);
    }
  }

  lemma InvBegin(cfg: ServerConfig, s: State, k: nat, delivered: bool)
    requires Inv(cfg, s) && Enabled(cfg, s, Begin(k, delivered))
    ensures Inv(cfg, BeginTask(cfg, s, k, delivered))
  {
    var msg := s.recv[k];
    assert TaskOk(cfg, s, k);
    if NeedsInitialized(msg.verb) && !s.initialized {
      InvPhase(cfg, s, k, Dropped, s.initialized);
    } else if UserVerb(msg.verb) {
      InvPhase(cfg, s, k, Running([]), s.initialized);
    } else if msg.verb.ResourcesSubscribe? || msg.verb.ResourcesUnsubscribe? {
      var r := Record(s, msg.params.uri, msg.verb.ResourcesSubscribe?);
      InvFrame(cfg, s, r);
      InvSettle(cfg, r, k, [], Success(Null), delivered);
    } else if RequestVerb(msg.verb) {
      var reply := if msg.verb.Initialize? then InitializeReply(cfg, msg.params) else Success(Null);
      InvSettle(cfg, s, k, [], reply, delivered);
    } else {
      InvPhase(cfg, s, k, Done, s.initialized || msg.verb.NotifyInitialized?);
    }
  }

  /** The invariant does not speak of subscriptions and of the updates waiting in the inbox. */
  lemma InvFrame(cfg: ServerConfig, s: State, s': State)
    requires Inv(cfg, s)
    requires s' == s.(subscribed := s'.subscribed, changes := s'.changes, inbox := s'.inbox)
    ensures Inv(cfg, s')
  {
    forall k | k in s'.tasks ensures TaskOk(cfg, s', k) {
      assert TaskOk(cfg, s, k);
    }
    forall call | call in s'.callbacks ensures CallbackOk(s', call) {
      assert CallbackOk(s, call);
    }
    forall j | 0 <= j < |s'.sent| ensures SentOk(s', j) {
      assert SentOk(s, j);
    }
  }

  lemma InvAct(cfg: ServerConfig, s: State, k: nat, call: Id, delivered: bool)
    requires Inv(cfg, s) && Enabled(cfg, s, Act(k, call, delivered))
    ensures Inv(cfg, ActTask(cfg, s, k, call, delivered))
  {
    var s' := ActTask(cfg, s, k, call, delivered);
    assert TaskOk(cfg, s, k);
    var action := cfg.handler(s.recv[k].verb, s.recv[k].params, s.tasks[k].seen);
    if action.Return? || action.Fail? {
      InvSettle(cfg, s, k, s.tasks[k].seen,
                if action.Return? then Success(action.value) else Failure(INTERNAL_ERROR), delivered);
    } else {
      forall k' | k' in s'.tasks ensures TaskOk(cfg, s', k') {
        assert TaskOk(cfg, s, k');
      }
      forall c | c in s'.callbacks ensures CallbackOk(s', c) {
        if c in s.callbacks { assert CallbackOk(s, c); }
      }
      forall j | 0 <= j < |s'.sent| ensures SentOk(s', j) {
        if j < |s.sent| { assert SentOk(s, j); }
      }
    }
  }

  lemma ResumeTaskOk(cfg: ServerConfig, s: State, call: Id, status: CallbackStatus, event: Event, k: nat)
    requires Inv(cfg, s) && call in s.callbacks && s.callbacks[call].Open()
    requires status.Given? || status.Abandoned?
    requires k in s.tasks
    ensures k in Resume(s, call, status, event).tasks
    ensures TaskOk(cfg, Resume(s, call, status, event), k)
  {
    assert CallbackOk(s, call);
    assert TaskOk(cfg, s, k);
    var owner := s.callbacks[call].owner;
    if owner == Some(k) {
      assert s.tasks[k].Awaiting?;
    } else if s.tasks[k].Awaiting? {
      assert s.tasks[k].call != call;
    }
  }

  lemma ResumeCallbackOk(cfg: ServerConfig, s: State, call: Id, status: CallbackStatus, event: Event, c: Id)
    requires Inv(cfg, s) && call in s.callbacks && s.callbacks[call].Open()
    requires status.Given? || status.Abandoned?
    requires c in s.callbacks
    ensures CallbackOk(Resume(s, call, status, event), c)
  {
    assert CallbackOk(s, call);
    assert CallbackOk(s, c);
  }

  lemma InvResume(cfg: ServerConfig, s: State, call: Id, status: CallbackStatus, event: Event)
    requires Inv(cfg, s) && call in s.callbacks && s.callbacks[call].Open()
    requires status.Given? || status.Abandoned?
    ensures Inv(cfg, Resume(s, call, status, event))
  {
    var s' := Resume(s, call, status, event);
    assert CallbackOk(s, call);
    forall k | k in s'.tasks ensures TaskOk(cfg, s', k) {
      ResumeTaskOk(cfg, s, call, status, event, k);
    }
    forall c | c in s'.callbacks ensures CallbackOk(s', c) {
      ResumeCallbackOk(cfg, s, call, status, event, c);
    }
    forall j | 0 <= j < |s'.sent| ensures SentOk(s', j) {
      assert SentOk(s, j);
    }
  }

  lemma InvFinishTask(cfg: ServerConfig, s: State, k: nat)
    requires Inv(cfg, s) && k in s.tasks && k < |s.recv| && s.tasks[k].Spawned? && s.recv[k].verb.NoMethod?
    ensures Inv(cfg, s.(tasks := s.tasks[k := Done]))
  {
    var s' := s.(tasks := s.tasks[k := Done]);
    forall k' | k' in s'.tasks ensures TaskOk(cfg, s', k') {
      assert TaskOk(cfg, s, k');
    }
    forall c | c in s'.callbacks ensures CallbackOk(s', c) {
      assert CallbackOk(s, c);
    }
    forall j | 0 <= j < |s'.sent| ensures SentOk(s', j) {
      assert SentOk(s, j);
    }
  }

  lemma InvSent(cfg: ServerConfig, s: State, call: Id)
    requires Inv(cfg, s) && Enabled(cfg, s, SendDone(call, true))
    ensures Inv(cfg, Next(cfg, s, SendDone(call, true)))
  {
    var s' := Next(cfg, s, SendDone(call, true));
    forall k | k in s'.tasks ensures TaskOk(cfg, s', k) {
      assert TaskOk(cfg, s, k);
    }
    forall c | c in s'.callbacks ensures CallbackOk(s', c) {
      assert CallbackOk(s, c);
    }
    forall j | 0 <= j < |s'.sent| ensures SentOk(s', j) {
      assert SentOk(s, j);
    }
  }

  lemma InvPing(cfg: ServerConfig, s: State, call: Id, delivered: bool)
    requires Inv(cfg, s) && Unused(s, call)
    ensures Inv(cfg, Next(cfg, s, PingClient(call, delivered)))
  {
    var s' := Next(cfg, s, PingClient(call, delivered));
    forall k | k in s'.tasks ensures TaskOk(cfg, s', k) {
      assert TaskOk(cfg, s, k);
    }
    forall c | c in s'.callbacks ensures CallbackOk(s', c) {
      if c in s.callbacks { assert CallbackOk(s, c); }
    }
    forall j | 0 <= j < |s'.sent| ensures SentOk(s', j) {
      if j < |s.sent| { assert SentOk(s, j); }
    }
  }

  lemma InvTell(cfg: ServerConfig, s: State, msg: Message)
    requires Inv(cfg, s) && NoticeVerb(msg.verb)
    ensures Inv(cfg, s.(sent := s.sent + [Tell(msg)]))
  {
    var s' := s.(sent := s.sent + [Tell(msg)]);
    forall k | k in s'.tasks ensures TaskOk(cfg, s', k) {
      assert TaskOk(cfg, s, k);
    }
    forall c | c in s'.callbacks ensures CallbackOk(s', c) {
      assert CallbackOk(s, c);
    }
    forall j | 0 <= j < |s'.sent| ensures SentOk(s', j) {
      if j < |s.sent| { assert SentOk(s, j); }
    }
  }

  /** Every step of a session keeps its invariant. */
  lemma InvNext(cfg: ServerConfig, s: State, step: Step)
    requires Inv(cfg, s) && Enabled(cfg, s, step)
    ensures Inv(cfg, Next(cfg, s, step))
  {
    match step
    case Receive(msg) => InvReceive(cfg, s, msg);
    case Begin(k, delivered) => InvBegin(cfg, s, k, delivered);
    case Act(k, call, delivered) => InvAct(cfg, s, k, call, delivered);
    case SendDone(call, ok) =>
      if ok { InvSent(cfg, s, call); } else { InvResume(cfg, s, call, Abandoned, Unanswered); }
    case HandOver(k) =>
      InvFinishTask(cfg, s, k);
      InvResume(cfg, s.(tasks := s.tasks[k := Done]), s.recv[k].id,
                Given(k, ReplyOf(s.recv[k])), Answered(ReplyOf(s.recv[k])));
    case Discard(k) => InvFinishTask(cfg, s, k);
    case Expire(call) => InvResume(cfg, s, call, Abandoned, Unanswered);
    case PingClient(call, delivered) => InvPing(cfg, s, call, delivered);
    case Take(_) => InvFrame(cfg, s, Next(cfg, s, step));
    case Emit(delivered) =>
      var popped := s.(inbox := s.inbox[1..]);
      InvFrame(cfg, s, popped);
      InvTell(cfg, popped, NoticeOf(s.inbox[0]));
  }

  // ----- runs

  ghost predicate Legal(cfg: ServerConfig, s: State, steps: seq<Step>)
    decreases |steps|
  {
    steps == [] || (Enabled(cfg, s, steps[0]) && Legal(cfg, Next(cfg, s, steps[0]), steps[1..]))
  }

  ghost function Exec(cfg: ServerConfig, s: State, steps: seq<Step>): State
    requires Legal(cfg, s, steps)
    decreases |steps|
  {
    if steps == [] then s else Exec(cfg, Next(cfg, s, steps[0]), steps[1..])
  }

  lemma InvExec(cfg: ServerConfig, s: State, steps: seq<Step>)
    requires Inv(cfg, s) && Legal(cfg, s, steps)
    ensures Inv(cfg, Exec(cfg, s, steps))
    decreases |steps|
  {
    if steps != [] {
      InvNext(cfg, s, steps[0]);
      InvExec(cfg, Next(cfg, s, steps[0]), steps[1..]);
    }
  }

  // ----- conservation of replies

  ghost function ResponsesFor(s: State, id: Id): set<nat> {
    set j: nat | j < |s.sent| && s.sent[j].msg.verb.NoMethod? && s.sent[j].msg.id == id
  }

  ghost function LiveFor(s: State, id: Id): set<nat> {
    set k: nat | k < |s.recv| && k in s.tasks && s.tasks[k].Live() && RequestVerb(s.recv[k].verb) && s.recv[k].id == id
  }

  ghost function RequestsFor(s: State, id: Id): set<nat> {
    set k: nat | k < |s.recv| && RequestVerb(s.recv[k].verb) && s.recv[k].id == id
  }

  /** Responses and live tasks for `id` are covered by requests, each response in one of two forms. */
  ghost predicate Conserved(s: State, id: Id) {
    && |ResponsesFor(s, id)| + |LiveFor(s, id)| <= |RequestsFor(s, id)|
    && (forall j :: 0 <= j < |s.sent| && s.sent[j].msg.verb.NoMethod? ==>
          (s.sent[j].msg.result.Some? <==> s.sent[j].msg.error.None?))
  }

  lemma ResponsesAreExclusive(cfg: ServerConfig, s: State)
    requires Inv(cfg, s)
    ensures forall j :: 0 <= j < |s.sent| && s.sent[j].msg.verb.NoMethod? ==>
                          s.sent[j].Answer? && (s.sent[j].msg.result.Some? <==> s.sent[j].msg.error.None?)
  {
    forall j: nat | j < |s.sent| && s.sent[j].msg.verb.NoMethod?
      ensures s.sent[j].Answer? && (s.sent[j].msg.result.Some? <==> s.sent[j].msg.error.None?)
    {
      assert SentOk(s, j);
    }
  }

  lemma InvConserves(cfg: ServerConfig, s: State, id: Id)
    requires Inv(cfg, s)
    ensures Conserved(s, id)
  {
    var responses, live, requests := ResponsesFor(s, id), LiveFor(s, id), RequestsFor(s, id);
    ResponsesAreExclusive(cfg, s);
    var cause := map j | j in responses :: s.sent[j].task;
    forall j | j in responses ensures j in cause && cause[j] in requests - live {
      assert SentOk(s, j) && TaskOk(cfg, s, s.sent[j].task);
    }
    forall x, y | x in responses && y in responses && cause[x] == cause[y] ensures x == y {
      assert SentOk(s, x) && SentOk(s, y);
    }
    Sets.InjectionBounds(responses, requests - live, cause);
    assert live <= requests;
  }

  /**
   Whatever the client sends, and however tasks interleave, the responses written for an id and the
   tasks still working on that id are together no more than the requests received with that id, and
   every response carries exactly one of a result and an error.
   */
  lemma RepliesConserved(cfg: ServerConfig, steps: seq<Step>, id: Id)
    requires Legal(cfg, FRESH, steps)
    ensures Conserved(Exec(cfg, FRESH, steps), id)
  {
    InvExec(cfg, FRESH, steps);
    InvConserves(cfg, Exec(cfg, FRESH, steps), id);
  }

  // ----- what never changes back

  /** Histories only grow, the initialized flag is never cleared, and an ended task stays as it ended. */
  ghost predicate Extends(s: State, s': State) {
    && s.recv <= s'.recv && s.sent <= s'.sent && s.changes <= s'.changes
    && (s.initialized ==> s'.initialized)
    && (forall k :: k in s.tasks ==> k in s'.tasks && (!s.tasks[k].Live() ==> s'.tasks[k] == s.tasks[k]))
    && (forall c :: c in s.callbacks ==>
          && c in s'.callbacks
          && s'.callbacks[c] == s.callbacks[c].(status := s'.callbacks[c].status)
          && (!s.callbacks[c].Open() ==> s'.callbacks[c] == s.callbacks[c]))
  }

  lemma ResumeExtends(s: State, call: Id, status: CallbackStatus, event: Event)
    requires call in s.callbacks && s.callbacks[call].Open()
    ensures Extends(s, Resume(s, call, status, event))
  {
  }

  /** What the first run of a task leaves alone. */
  ghost predicate BeginShape(s: State, k: nat, s': State) {
    && k in s'.tasks && s' == s.(initialized := s'.initialized, subscribed := s'.subscribed, changes := s'.changes,
                                 tasks := s.tasks[k := s'.tasks[k]], sent := s'.sent)
    && s.changes <= s'.changes && (s.initialized ==> s'.initialized)
    && (s'.sent == s.sent || (|s'.sent| == |s.sent| + 1 && s.sent <= s'.sent))
  }

  lemma BeginShapes(cfg: ServerConfig, s: State, k: nat, delivered: bool)
    requires k < |s.recv|
    ensures BeginShape(s, k, BeginTask(cfg, s, k, delivered))
  {
    var msg := s.recv[k];
    if RequestVerb(msg.verb) && !UserVerb(msg.verb) && (NeedsInitialized(msg.verb) ==> s.initialized) {
      var reply := if msg.verb.Initialize? then InitializeReply(cfg, msg.params) else Success(Null);
      SettleShape(s, s, k, reply, delivered);
      if msg.verb.ResourcesSubscribe? || msg.verb.ResourcesUnsubscribe? {
        SettleShape(s, Record(s, msg.params.uri, msg.verb.ResourcesSubscribe?), k, reply, delivered);
      }
    }
  }

  lemma SettleShape(s: State, r: State, k: nat, reply: Reply, delivered: bool)
    requires k < |s.recv| && r == s.(subscribed := r.subscribed, changes := r.changes) && s.changes <= r.changes
    ensures BeginShape(s, k, Settle(r, k, [], reply, delivered))
  {
  }

  lemma BeginExtends(cfg: ServerConfig, s: State, k: nat, delivered: bool)
    requires Enabled(cfg, s, Begin(k, delivered))
    ensures Extends(s, BeginTask(cfg, s, k, delivered))
  {
    BeginShapes(cfg, s, k, delivered);
    ShapeExtends(s, k, BeginTask(cfg, s, k, delivered));
  }

  lemma ShapeExtends(s: State, k: nat, s': State)
    requires k in s.tasks && s.tasks[k].Spawned? && BeginShape(s, k, s')
    ensures Extends(s, s')
  {
  }

  lemma ActExtends(cfg: ServerConfig, s: State, k: nat, call: Id, delivered: bool)
    requires Enabled(cfg, s, Act(k, call, delivered))
    ensures Extends(s, ActTask(cfg, s, k, call, delivered))
  {
  }

  lemma NextExtends(cfg: ServerConfig, s: State, step: Step)
    requires Enabled(cfg, s, step)
    requires forall k :: k in s.tasks ==> k < |s.recv|
    ensures Extends(s, Next(cfg, s, step))
  {
    match step
    case Begin(k, delivered) => BeginExtends(cfg, s, k, delivered);
    case Act(k, call, delivered) => ActExtends(cfg, s, k, call, delivered);
    case SendDone(call, ok) => if !ok { ResumeExtends(s, call, Abandoned, Unanswered); }
    case HandOver(k) =>
      var done := s.(tasks := s.tasks[k := Done]);
      ResumeExtends(done, s.recv[k].id, Given(k, ReplyOf(s.recv[k])), Answered(ReplyOf(s.recv[k])));
    case Expire(call) => ResumeExtends(s, call, Abandoned, Unanswered);
    case _ =>
  }

  // ----- the effect of a step, one task and one callback at a time

  /** How a step other than `Receive` can change the task `k`. */
  ghost predicate TaskMoves(cfg: ServerConfig, s: State, step: Step, s': State, k: nat)
    requires k in s.tasks && k in s'.tasks && k < |s.recv|
  {
    var msg, oldPhase, phase := s.recv[k], s.tasks[k], s'.tasks[k];
    || (phase == oldPhase && !(step.Act? && step.task == k))
    || (step.Begin? && step.task == k && oldPhase.Spawned? && BeginMoves(s, k, step.delivered, phase))
    || (step.Act? && step.task == k && oldPhase.Running? && ActMoves(cfg, s, step, msg, oldPhase.seen, phase))
    || (step.HandOver? && step.task == k && oldPhase.Spawned? && phase.Done?)
    || (step.Discard? && step.task == k && oldPhase.Spawned? && phase.Done?)
    || (oldPhase.Awaiting? && phase.Running? && oldPhase.call in s.callbacks
        && ((step.HandOver? && step.task < |s.recv| && s.recv[step.task].id == oldPhase.call
             && phase.seen == oldPhase.seen + [Answered(ReplyOf(s.recv[step.task]))])
            || (step.SendDone? && !step.ok && phase.seen == oldPhase.seen + [Unanswered])
            || (step.Expire? && phase.seen == oldPhase.seen + [Unanswered])))
  }

  ghost predicate BeginMoves(s: State, k: nat, delivered: bool, phase: Phase)
    requires k < |s.recv|
  {
    var verb := s.recv[k].verb;
    if NeedsInitialized(verb) && !s.initialized then phase.Dropped?
    else if UserVerb(verb) then phase == Running([])
    else if RequestVerb(verb) then phase.Replied? && phase.seen == [] && phase.at == Place(delivered, s.sent)
    else phase.Done?
  }

  ghost predicate ActMoves(
    cfg: ServerConfig, s: State, step: Step, msg: Message, seen: seq<Event>, phase: Phase)
    requires step.Act?
  {
    match cfg.handler(msg.verb, msg.params, seen)
    case Report(_, _, _) => phase == Running(seen + [Reported])
    case Ask(_, _) => phase == Awaiting(seen, step.call)
    case _ => phase.Replied? && phase.seen == seen && phase.at == Place(step.delivered, s.sent)
  }

  /** How a step other than `Receive` can change, or make, the callback `c`. */
  ghost predicate CallbackMoves(s: State, step: Step, s': State, c: Id)
    requires c in s'.callbacks
  {
    || (c in s.callbacks && s'.callbacks[c] == s.callbacks[c])
    || (c !in s.callbacks && (step.Act? || step.PingClient?) && step.call == c
        && s'.callbacks[c].status.Sending? && s'.callbacks[c].at == Place(step.delivered, s.sent)
        && (if step.PingClient? then s'.callbacks[c].verb == Ping
            else s'.callbacks[c].owner == Some(step.task)))
    || (c in s.callbacks && s'.callbacks[c] == s.callbacks[c].(status := s'.callbacks[c].status)
        && ((step.SendDone? && step.call == c && s.callbacks[c].status.Sending?
             && s'.callbacks[c].status == if step.ok then Waiting else Abandoned)
            || (step.Expire? && step.call == c && s.callbacks[c].status.Waiting? && s'.callbacks[c].status.Abandoned?)
            || (step.HandOver? && step.task < |s.recv| && s.recv[step.task].id == c && s.callbacks[c].status.Waiting?
                && s'.callbacks[c].status == Given(step.task, ReplyOf(s.recv[step.task])))))
  }

  ghost predicate Moves(cfg: ServerConfig, s: State, step: Step, s': State) {
    && s'.recv == s.recv && s'.tasks.Keys == s.tasks.Keys
    && (forall k :: k in s.tasks ==> k < |s.recv| && TaskMoves(cfg, s, step, s', k))
    && (forall c :: c in s'.callbacks ==> CallbackMoves(s, step, s', c))
    && (s'.initialized && !s.initialized ==>
          step.Begin? && step.task < |s.recv| && s.recv[step.task].verb.NotifyInitialized?)
    && (s'.sent == s.sent || (|s'.sent| == |s.sent| + 1 && s.sent <= s'.sent))
    && (step.HandOver? && step.task < |s.recv| && s.recv[step.task].id in s'.callbacks ==>
          s'.callbacks[s.recv[step.task].id].status.Given?)
  }

  lemma TasksNumbered(cfg: ServerConfig, s: State)
    requires Inv(cfg, s)
    ensures forall k :: k in s.tasks ==> k < |s.recv|
  {
    forall k | k in s.tasks ensures k < |s.recv| {
      assert TaskOk(cfg, s, k);
    }
  }

  lemma BeginMovesOn(cfg: ServerConfig, s: State, k: nat, delivered: bool)
    requires Inv(cfg, s) && Enabled(cfg, s, Begin(k, delivered))
    ensures Moves(cfg, s, Begin(k, delivered), BeginTask(cfg, s, k, delivered))
  {
    BeginPhase(cfg, s, k, delivered);
    BeginFrame(cfg, s, k, delivered);
    var step, s' := Begin(k, delivered), BeginTask(cfg, s, k, delivered);
    forall k' | k' in s.tasks ensures k' < |s.recv| && TaskMoves(cfg, s, step, s', k') {
      assert TaskOk(cfg, s, k');
    }
  }

  lemma BeginPhase(cfg: ServerConfig, s: State, k: nat, delivered: bool)
    requires Inv(cfg, s) && Enabled(cfg, s, Begin(k, delivered))
    ensures BeginMoves(s, k, delivered, BeginTask(cfg, s, k, delivered).tasks[k])
  {
    assert TaskOk(cfg, s, k);
  }

  lemma BeginFrame(cfg: ServerConfig, s: State, k: nat, delivered: bool)
    requires Enabled(cfg, s, Begin(k, delivered))
    ensures var s' := BeginTask(cfg, s, k, delivered);
            && s'.recv == s.recv && s'.callbacks == s.callbacks && s'.inbox == s.inbox
            && s'.tasks.Keys == s.tasks.Keys && (forall k' :: k' in s.tasks && k' != k ==> s'.tasks[k'] == s.tasks[k'])
            && (s'.initialized && !s.initialized ==> s.recv[k].verb.NotifyInitialized?)
            && (s'.sent == s.sent || (|s'.sent| == |s.sent| + 1 && s.sent <= s'.sent))
  {
    BeginShapes(cfg, s, k, delivered);
  }

  lemma ActMovesOn(cfg: ServerConfig, s: State, k: nat, call: Id, delivered: bool)
    requires Inv(cfg, s) && Enabled(cfg, s, Act(k, call, delivered))
    ensures Moves(cfg, s, Act(k, call, delivered), ActTask(cfg, s, k, call, delivered))
  {
    TasksNumbered(cfg, s);
  }

  lemma ResumeMoves(cfg: ServerConfig, s: State, step: Step)
    requires Inv(cfg, s) && Enabled(cfg, s, step)
    requires step.Expire? || (step.SendDone? && !step.ok)
    ensures Moves(cfg, s, step, Next(cfg, s, step))
  {
    TasksNumbered(cfg, s);
    assert CallbackOk(s, step.call);
  }

  lemma HandOverMoves(cfg: ServerConfig, s: State, k: nat)
    requires Inv(cfg, s) && Enabled(cfg, s, HandOver(k))
    ensures Moves(cfg, s, HandOver(k), Next(cfg, s, HandOver(k)))
  {
    var step, s' := HandOver(k), Next(cfg, s, HandOver(k));
    assert CallbackOk(s, s.recv[k].id);
    forall k' | k' in s.tasks ensures k' < |s.recv| && TaskMoves(cfg, s, step, s', k') {
      assert TaskOk(cfg, s, k');
    }
    forall c | c in s'.callbacks ensures CallbackMoves(s, step, s', c) {
    }
  }

  /** Steps that change no task. */
  lemma OtherMoves(cfg: ServerConfig, s: State, step: Step)
    requires Inv(cfg, s) && Enabled(cfg, s, step)
    requires step.PingClient? || step.Take? || step.Emit? || (step.SendDone? && step.ok)
    ensures Moves(cfg, s, step, Next(cfg, s, step))
  {
    TasksNumbered(cfg, s);
  }

  /** The effect of every step other than `Receive`. */
  lemma NextMoves(cfg: ServerConfig, s: State, step: Step)
    requires Inv(cfg, s) && Enabled(cfg, s, step) && !step.Receive?
    ensures Moves(cfg, s, step, Next(cfg, s, step))
  {
    match step
    case Begin(k, delivered) => BeginMovesOn(cfg, s, k, delivered);
    case Act(k, call, delivered) => ActMovesOn(cfg, s, k, call, delivered);
    case SendDone(_, ok) => if ok { OtherMoves(cfg, s, step); } else { ResumeMoves(cfg, s, step); }
    case HandOver(k) => HandOverMoves(cfg, s, k);
    case Discard(_) => TasksNumbered(cfg, s);
    case Expire(_) => ResumeMoves(cfg, s, step);
    case _ => OtherMoves(cfg, s, step);
  }

  // ----- subscriptions

  ghost predicate SubscriptionsOk(s: State) {
    forall uri :: uri in s.subscribed <==> FilledBy(s.changes, uri)
  }

  lemma SubscriptionsNext(cfg: ServerConfig, s: State, step: Step)
    requires SubscriptionsOk(s) && Enabled(cfg, s, step)
    ensures SubscriptionsOk(Next(cfg, s, step))
  {
    var s' := Next(cfg, s, step);
    if s'.changes != s.changes {
      var uri := s.recv[step.task].params.uri;
      var on := s.recv[step.task].verb.ResourcesSubscribe?;
      assert s'.changes == s.changes + [Setting(uri, on)];
      forall u ensures u in s'.subscribed <==> FilledBy(s'.changes, u) {
        FilledByOneMore(s.changes, Setting(uri, on), u);
      }
    }
  }

  lemma SubscriptionsExec(cfg: ServerConfig, s: State, steps: seq<Step>)
    requires SubscriptionsOk(s) && Legal(cfg, s, steps)
    ensures SubscriptionsOk(Exec(cfg, s, steps))
    decreases |steps|
  {
    if steps != [] {
      SubscriptionsNext(cfg, s, steps[0]);
      SubscriptionsExec(cfg, Next(cfg, s, steps[0]), steps[1..]);
    }
  }

  /** What a step of a run settles: an initialized session that begins a subscribe or an unsubscribe. */
  ghost function SettingOf(s: State, step: Step): seq<Setting<Uri>> {
    if step.Begin? && s.initialized && step.task < |s.recv| then
      match s.recv[step.task].verb
      case ResourcesSubscribe => [Setting(s.recv[step.task].params.uri, true)]
      case ResourcesUnsubscribe => [Setting(s.recv[step.task].params.uri, false)]
      case _ => []
    else []
  }

  /** The subscribes and unsubscribes that a run completes, in order. */
  ghost function SettingsOf(cfg: ServerConfig, s: State, steps: seq<Step>): seq<Setting<Uri>>
    requires Legal(cfg, s, steps)
    decreases |steps|
  {
    if steps == [] then []
    else SettingOf(s, steps[0]) + SettingsOf(cfg, Next(cfg, s, steps[0]), steps[1..])
  }

  lemma ChangesNext(cfg: ServerConfig, s: State, step: Step)
    requires Enabled(cfg, s, step)
    ensures Next(cfg, s, step).changes == s.changes + SettingOf(s, step)
  {
  }

  lemma ChangesAreSettings(cfg: ServerConfig, s: State, steps: seq<Step>)
    requires Legal(cfg, s, steps)
    ensures Exec(cfg, s, steps).changes == s.changes + SettingsOf(cfg, s, steps)
    decreases |steps|
  {
    if steps != [] {
      ChangesNext(cfg, s, steps[0]);
      ChangesAreSettings(cfg, Next(cfg, s, steps[0]), steps[1..]);
    }
  }

  // ----- what the client is told of an update

  /** The notification that an update has to become, member by member. */
  predicate Announces(msg: Message, u: Update) {
    && msg.jsonrpc == "2.0" && msg.id == "" && msg.result.None? && msg.error.None?
    && match u
       case PromptsChanged => msg.verb.NotifyPromptsListChanged?
       case ResourcesChanged => msg.verb.NotifyResourcesListChanged?
       case ResourceUpdated(uri) => msg.verb.NotifyResourcesUpdated? && msg.params.uri == uri
       case ToolsChanged => msg.verb.NotifyToolsListChanged?
       case Logged(text) => msg.verb.NotifyMessage? && msg.params.text == text
       case Progressed(token, progress, total) =>
         && msg.verb.NotifyProgress? && msg.params.token == token
         && msg.params.progress == progress && msg.params.total == total
  }

  /** An update that the listen loop passes on is written as the one notification that announces it. */
  lemma EmitAnnounces(cfg: ServerConfig, s: State)
    requires s.inbox != [] && PassesOn(s, s.inbox[0])
    ensures var sent := Next(cfg, s, Emit(true)).sent;
            && |sent| == |s.sent| + 1 && sent[..|s.sent|] == s.sent
            && sent[|s.sent|].Tell? && Announces(sent[|s.sent|].msg, s.inbox[0])
  {
  }

  lemma NoticeAnnounces(u: Update)
    ensures Announces(NoticeOf(u), u)
  {
  }

  /**
   In every run, when the listen loop handles an update of a resource, it writes the notification that
   announces it exactly when the last subscribe or unsubscribe that the run completed for that
   resource was a subscribe, and nothing otherwise.
   */
  lemma NoticeIffSubscribed(cfg: ServerConfig, steps: seq<Step>)
    requires Legal(cfg, FRESH, steps)
    requires Exec(cfg, FRESH, steps).inbox != [] && Exec(cfg, FRESH, steps).inbox[0].ResourceUpdated?
    ensures var s := Exec(cfg, FRESH, steps);
            var u, sent := s.inbox[0], Next(cfg, s, Emit(true)).sent;
            if FilledBy(SettingsOf(cfg, FRESH, steps), u.uri)
            then |sent| == |s.sent| + 1 && sent[..|s.sent|] == s.sent
                 && sent[|s.sent|].Tell? && Announces(sent[|s.sent|].msg, u)
            else sent == s.sent
  {
    SubscriptionsExec(cfg, FRESH, steps);
    ChangesAreSettings(cfg, FRESH, steps);
    var s := Exec(cfg, FRESH, steps);
    assert [] + SettingsOf(cfg, FRESH, steps) == SettingsOf(cfg, FRESH, steps);
    if PassesOn(s, s.inbox[0]) { EmitAnnounces(cfg, s); }
  }
}

/**
 The client: its table of pending calls, the goroutines waiting on them, and the reader that handles
 incoming messages one at a time.  As for a session, steps are atomic actions of goroutines and the
 label of a step settles every choice.  An entry of `calls` is never removed, as in the source.
 */
module Client {
  import opened Messages
  import opened Negotiation
  import Sets

  /** `answer` stands for the user's roots and sampling handlers; `None` is an error they return. */
  datatype ClientConfig = ClientConfig(
    version: string,
    parts: set<ClientSlot>,
    needs: ServerRequirement,
    answer: (Method, Params) -> Option<Value>)

  datatype CallStatus =
    | Sending
    | Waiting
    | Returned(from: nat, msg: Message)
    | TimedOut
    | SendFailed
    | Cancelled(notice: Option<nat>)

  datatype Call = Call(verb: NamedMethod, params: Params, at: Option<nat>, acked: bool, status: CallStatus) {
    predicate Open() { status.Sending? || status.Waiting? }
  }

  datatype Sent =
    | Ask(call: Id, msg: Message)
    | Reply(to: nat, msg: Message)
    | Stray(call: Id, msg: Message)
    | Cancel(call: Id, msg: Message)
    | Note(msg: Message)

  /** A response the reader holds until the call it belongs to takes it. */
  datatype Held = Held(from: nat, msg: Message)

  datatype State = State(
    initialized: bool,
    calls: map<Id, Call>,
    held: Option<Held>,
    concluded: set<Id>,
    sent: seq<Sent>,
    heard: seq<Message>)

  const FRESH := State(false, map[], None, {}, [], [])

  datatype Step =
    | StartCall(call: Id, verb: NamedMethod, params: Params, delivered: bool)
    | SendReturn(call: Id, ok: bool)
    | Read(from: nat, msg: Message, delivered: bool)
    | HandBack
    | Timeout(call: Id)
    | CancelCall(call: Id, delivered: bool)
    | Conclude(call: Id, delivered: bool)
    | NotifyRoots(delivered: bool)

  /** The requests a program can make through the client. */
  predicate ApiVerb(verb: Method) {
    verb.Ping? || verb.PromptsList? || verb.PromptsGet? || verb.ResourcesList? || verb.ResourcesRead?
    || verb.ResourcesTemplatesList? || verb.ResourcesSubscribe? || verb.ResourcesUnsubscribe?
    || verb.ToolsList? || verb.ToolsCall? || verb.CompletionComplete? || verb.LoggingSetLevel?
  }

  function InitializeParams(cfg: ClientConfig): Params {
    NO_PARAMS.(version := cfg.version, capabilities := OfferedByClient(cfg.parts))
  }

  // ----- the reader

  datatype Reaction = Respond(reply: Messages.Reply) | Hold | Hear | Nothing

  function UserReply(cfg: ClientConfig, verb: Method, params: Params): Messages.Reply {
    match cfg.answer(verb, params)
    case Some(value) => Success(value)
    case None => Failure(RpcError(INTERNAL_ERROR_CODE, "Internal error"))
  }

  function IfWatched(cfg: ClientConfig, slot: ClientSlot, ok: bool): Reaction {
    if slot in cfg.parts && ok then Hear else Nothing
  }

  /** What the reader does with a message, as one flat lookup on the method. */
  function React(cfg: ClientConfig, calls: map<Id, Call>, msg: Message): Reaction {
    if msg.jsonrpc != JSONRPC_VERSION then Nothing
    else match msg.verb
      case Ping => Respond(Success(Null))
      case RootsList =>
        if RootsListHandler in cfg.parts then Respond(UserReply(cfg, RootsList, NO_PARAMS)) else Nothing
      case SamplingCreateMessage =>
        if SamplingHandler in cfg.parts && msg.params.decodes
        then Respond(UserReply(cfg, SamplingCreateMessage, msg.params)) else Nothing
      case NotifyPromptsListChanged => IfWatched(cfg, PromptListWatcher, true)
      case NotifyResourcesListChanged => IfWatched(cfg, ResourceListWatcher, true)
      case NotifyResourcesUpdated => IfWatched(cfg, ResourceSubscribedWatcher, msg.params.decodes)
      case NotifyToolsListChanged => IfWatched(cfg, ToolListWatcher, true)
      case NotifyProgress => IfWatched(cfg, ProgressListener, msg.params.decodes)
      case NotifyMessage => IfWatched(cfg, LogReceiver, msg.params.decodes)
      case NoMethod => if msg.id in calls then Hold else Nothing
      case _ => Nothing
  }

  /**
   Whether handling a message ends with an error, which the reader acknowledges it with; `failed` says
   whether the write of an answer reports one.
   */
  predicate ReadFails(cfg: ClientConfig, calls: map<Id, Call>, msg: Message, failed: bool) {
    || msg.jsonrpc != JSONRPC_VERSION
    || (msg.verb.SamplingCreateMessage? && SamplingHandler in cfg.parts && !msg.params.decodes)
    || match React(cfg, calls, msg)
       case Respond(reply) => failed || reply.Failure?
       case _ => false
  }

  /** The notification that a part of the client is there to hear. */
  predicate Watches(slot: ClientSlot, verb: Method) {
    match slot
    case PromptListWatcher => verb.NotifyPromptsListChanged?
    case ResourceListWatcher => verb.NotifyResourcesListChanged?
    case ResourceSubscribedWatcher => verb.NotifyResourcesUpdated?
    case ToolListWatcher => verb.NotifyToolsListChanged?
    case ProgressListener => verb.NotifyProgress?
    case LogReceiver => verb.NotifyMessage?
    case _ => false
  }

  /** Notifications whose parameters are decoded before they are passed on. */
  predicate HasParams(verb: Method) {
    verb.NotifyResourcesUpdated? || verb.NotifyProgress? || verb.NotifyMessage?
  }

  /** The client hears a notification exactly when it has the part that watches for it, and can decode it. */
  ghost predicate IsHeard(cfg: ClientConfig, msg: Message) {
    && msg.jsonrpc == "2.0" && (exists slot :: slot in cfg.parts && Watches(slot, msg.verb))
    && (HasParams(msg.verb) ==> msg.params.decodes)
  }

  lemma HeardByItsWatcher(cfg: ClientConfig, s: State, from: nat, msg: Message, delivered: bool)
    requires Enabled(cfg, s, Read(from, msg, delivered))
    ensures Next(cfg, s, Read(from, msg, delivered)).heard == s.heard + (if IsHeard(cfg, msg) then [msg] else [])
  {
    assert Watches(PromptListWatcher, NotifyPromptsListChanged);
    assert Watches(ResourceListWatcher, NotifyResourcesListChanged);
    assert Watches(ResourceSubscribedWatcher, NotifyResourcesUpdated);
    assert Watches(ToolListWatcher, NotifyToolsListChanged);
    assert Watches(ProgressListener, NotifyProgress) && Watches(LogReceiver, NotifyMessage);
  }

  // ----- the end of `initialize`

  datatype Verdict = Accepted | Refused(error: RpcError) | Broken

  /** What `initialize` makes of the response to its request. */
  function Judge(cfg: ClientConfig, msg: Message): Verdict {
    if msg.error.Some? || msg.result.None? || msg.result.value.Data? then Broken
    else if msg.result.value.Null? || msg.result.value.Object? || msg.result.value.version != cfg.version then
      Refused(RpcError(INVALID_PARAMS_CODE, "Unsupported protocol version"))
    else if CheckServer(RequiredByClient(cfg.parts, cfg.needs), msg.result.value.capabilities).Some? then
      Refused(RpcError(INVALID_PARAMS_CODE, "Insufficient client capabilities"))
    else Accepted
  }

  /**
   The end of `initialize` accepts exactly an error-free result with the client's own version and with
   capabilities that cover what the client requires; a refusal is an invalid-parameters error.
   */
  lemma JudgeAccepts(cfg: ClientConfig, msg: Message)
    ensures Judge(cfg, msg).Accepted?
            <==> msg.error.None? && msg.result.Some? && msg.result.value.InitializeResult?
                 && msg.result.value.version == cfg.version
                 && ServerCovers(msg.result.value.capabilities, RequiredByClient(cfg.parts, cfg.needs))
    ensures Judge(cfg, msg).Refused? ==> Judge(cfg, msg).error.code == -32602
  {
    if msg.result.Some? && msg.result.value.InitializeResult? {
      CheckServerIsOrder(RequiredByClient(cfg.parts, cfg.needs), msg.result.value.capabilities);
    }
  }

  // ----- the steps

  function Put(delivered: bool, out: seq<Sent>, item: Sent): seq<Sent> {
    if delivered then out + [item] else out
  }

  function Place(delivered: bool, out: seq<Sent>): Option<nat> {
    if delivered then Some(|out|) else None
  }

  predicate Enabled(cfg: ClientConfig, s: State, step: Step) {
    match step
    case StartCall(call, verb, params, _) =>
      call != "" && call !in s.calls && (ApiVerb(verb) || (verb.Initialize? && params == InitializeParams(cfg)))
    case SendReturn(call, _) => call in s.calls && s.calls[call].status.Sending?
    case Read(_, _, _) => s.held.None?
    case HandBack => s.held.Some? && s.held.value.msg.id in s.calls && s.calls[s.held.value.msg.id].status.Waiting?
    case Timeout(call) => call in s.calls && s.calls[call].status.Waiting?
    case CancelCall(call, _) => call in s.calls && s.calls[call].status.Waiting?
    case Conclude(call, _) =>
      call in s.calls && s.calls[call].verb.Initialize? && s.calls[call].status.Returned? && call !in s.concluded
    case NotifyRoots(_) => RootsListUpdater in cfg.parts
  }

  function WithStatus(s: State, call: Id, status: CallStatus): State
    requires call in s.calls
  {
    s.(calls := s.calls[call := s.calls[call].(status := status)])
  }

  function Next(cfg: ClientConfig, s: State, step: Step): State
    requires Enabled(cfg, s, step)
  {
    match step
    case StartCall(call, verb, params, delivered) =>
      s.(calls := s.calls[call := Call(verb, params, Place(delivered, s.sent), false, Sending)],
         sent := Put(delivered, s.sent, Ask(call, Request(call, verb, params))))
    case SendReturn(call, ok) =>
      s.(calls := s.calls[call := s.calls[call].(acked := ok, status := if ok then Waiting else SendFailed)])
    case Read(from, msg, delivered) =>
      (match React(cfg, s.calls, msg)
       case Respond(reply) => s.(sent := Put(delivered, s.sent, Reply(from, Response(msg.id, reply))))
       case Hold => s.(held := Some(Held(from, msg)))
       case Hear => s.(heard := s.heard + [msg])
       case Nothing => s)
    case HandBack =>
      var h := s.held.value;
      WithStatus(s, h.msg.id, Returned(h.from, h.msg)).(held := None)
    case Timeout(call) => WithStatus(s, call, TimedOut)
    case CancelCall(call, delivered) =>
      WithStatus(s, call, Cancelled(Place(delivered, s.sent)))
      .(sent := Put(delivered, s.sent, Cancel(call, Notice(NotifyCancelled, NO_PARAMS.(requestId := call)))))
    case Conclude(call, delivered) =>
      var s' := s.(concluded := s.concluded + {call});
      (match Judge(cfg, s.calls[call].status.msg)
       case Accepted =>
         s'.(initialized := true, sent := Put(delivered, s.sent, Note(Notice(NotifyInitialized, NO_PARAMS))))
       case Refused(error) =>
         s'.(sent := Put(delivered, s.sent, Stray(call, Response(s.calls[call].status.msg.id, Failure(error)))))
       case Broken => s')
    case NotifyRoots(delivered) =>
      s.(sent := Put(delivered, s.sent, Note(Notice(NotifyRootsListChanged, NO_PARAMS))))
  }

  // ----- the invariant of the client, for any behaviour of the server

  ghost predicate CallOk(cfg: ClientConfig, s: State, id: Id)
    requires id in s.calls
  {
    var c := s.calls[id];
    && (ApiVerb(c.verb) || (c.verb.Initialize? && c.params == InitializeParams(cfg)))
    && (c.at.Some? ==> c.at.value < |s.sent| && s.sent[c.at.value] == Ask(id, Request(id, c.verb, c.params)))
    && (c.status.Waiting? || c.status.Returned? || c.status.Cancelled? ==> c.acked)
    && (c.status.Returned? ==> c.status.msg.id == id && c.status.msg.verb.NoMethod?)
    && (c.status.Cancelled? && c.status.notice.Some? ==>
          && c.status.notice.value < |s.sent| && s.sent[c.status.notice.value].Cancel?
          && (c.at.Some? ==> c.at.value < c.status.notice.value))
  }

  ghost predicate SentOk(cfg: ClientConfig, s: State, i: nat)
    requires i < |s.sent|
  {
    match s.sent[i]
    case Ask(call, msg) =>
      call in s.calls && s.calls[call].at == Some(i)
      && msg == Request(call, s.calls[call].verb, s.calls[call].params)
    case Reply(_, msg) => msg.verb.NoMethod?
    case Stray(call, msg) => call in s.calls && msg.verb.NoMethod? && msg.id == call
    case Cancel(call, msg) =>
      call in s.calls && s.calls[call].status == Cancelled(Some(i)) && msg.verb.NotifyCancelled?
      && msg.params.requestId == call
    case Note(msg) => (msg.verb.NotifyInitialized? && s.initialized) || msg.verb.NotifyRootsListChanged?
  }

  ghost predicate Inv(cfg: ClientConfig, s: State) {
    && (forall id :: id in s.calls ==> CallOk(cfg, s, id))
    && (forall i :: 0 <= i < |s.sent| ==> SentOk(cfg, s, i))
    && (s.held.Some? ==> s.held.value.msg.id in s.calls && s.held.value.msg.verb.NoMethod?)
  }

  lemma InvCallStep(cfg: ClientConfig, s: State, step: Step)
    requires Inv(cfg, s) && Enabled(cfg, s, step)
    requires step.SendReturn? || step.Timeout? || step.HandBack?
    ensures Inv(cfg, Next(cfg, s, step))
  {
    var s' := Next(cfg, s, step);
    forall id | id in s'.calls ensures CallOk(cfg, s', id) {
      assert CallOk(cfg, s, id);
    }
    forall i | 0 <= i < |s'.sent| ensures SentOk(cfg, s', i) {
      assert SentOk(cfg, s, i);
    }
  }

  lemma InvStartCall(cfg: ClientConfig, s: State, step: Step)
    requires Inv(cfg, s) && Enabled(cfg, s, step) && step.StartCall?
    ensures Inv(cfg, Next(cfg, s, step))
  {
    var s' := Next(cfg, s, step);
    forall id | id in s'.calls ensures CallOk(cfg, s', id) {
      if id in s.calls { assert CallOk(cfg, s, id); }
    }
    forall i | 0 <= i < |s'.sent| ensures SentOk(cfg, s', i) {
      if i < |s.sent| { assert SentOk(cfg, s, i); }
    }
  }

  lemma CancelCalls(cfg: ClientConfig, s: State, call: Id, delivered: bool, id: Id)
    requires Enabled(cfg, s, CancelCall(call, delivered)) && id in s.calls
    requires CallOk(cfg, s, id) && CallOk(cfg, s, call)
    ensures CallOk(cfg, Next(cfg, s, CancelCall(call, delivered)), id)
  {
  }

  lemma CancelSent(cfg: ClientConfig, s: State, call: Id, delivered: bool, i: nat)
    requires Enabled(cfg, s, CancelCall(call, delivered)) && i < |s.sent| && SentOk(cfg, s, i)
    ensures SentOk(cfg, Next(cfg, s, CancelCall(call, delivered)), i)
  {
  }

  lemma InvCancel(cfg: ClientConfig, s: State, call: Id, delivered: bool)
    requires Inv(cfg, s) && Enabled(cfg, s, CancelCall(call, delivered))
    ensures Inv(cfg, Next(cfg, s, CancelCall(call, delivered)))
  {
    var s' := Next(cfg, s, CancelCall(call, delivered));
    assert CallOk(cfg, s, call);
    forall id | id in s'.calls ensures CallOk(cfg, s', id) {
      assert CallOk(cfg, s, id);
      CancelCalls(cfg, s, call, delivered, id);
    }
    forall i | 0 <= i < |s'.sent| ensures SentOk(cfg, s', i) {
      if i < |s.sent| {
        assert SentOk(cfg, s, i);
        CancelSent(cfg, s, call, delivered, i);
      }
    }
  }

  lemma InvAppend(cfg: ClientConfig, s: State, s': State)
    requires Inv(cfg, s) && s'.calls == s.calls && (s.initialized ==> s'.initialized)
    requires s'.sent == s.sent
             || (|s'.sent| == |s.sent| + 1 && s.sent <= s'.sent && SentOk(cfg, s', |s.sent|))
    requires s'.held.Some? ==> s'.held.value.msg.id in s'.calls && s'.held.value.msg.verb.NoMethod?
    ensures Inv(cfg, s')
  {
    forall id | id in s'.calls ensures CallOk(cfg, s', id) {
      assert CallOk(cfg, s, id);
    }
    forall i | 0 <= i < |s'.sent| ensures SentOk(cfg, s', i) {
      if i < |s.sent| { assert SentOk(cfg, s, i); }
    }
  }

  lemma InvRead(cfg: ClientConfig, s: State, from: nat, msg: Message, delivered: bool)
    requires Inv(cfg, s) && Enabled(cfg, s, Read(from, msg, delivered))
    ensures Inv(cfg, Next(cfg, s, Read(from, msg, delivered)))
  {
    InvAppend(cfg, s, Next(cfg, s, Read(from, msg, delivered)));
  }

  lemma InvConclude(cfg: ClientConfig, s: State, call: Id, delivered: bool)
    requires Inv(cfg, s) && Enabled(cfg, s, Conclude(call, delivered))
    ensures Inv(cfg, Next(cfg, s, Conclude(call, delivered)))
  {
    assert CallOk(cfg, s, call);
    InvAppend(cfg, s, Next(cfg, s, Conclude(call, delivered)));
  }

  /** Every step of the client keeps its invariant, whatever it reads. */
  lemma InvNext(cfg: ClientConfig, s: State, step: Step)
    requires Inv(cfg, s) && Enabled(cfg, s, step)
    ensures Inv(cfg, Next(cfg, s, step))
  {
    match step
    case StartCall(_, _, _, _) => InvStartCall(cfg, s, step);
    case SendReturn(_, _) => InvCallStep(cfg, s, step);
    case Timeout(_) => InvCallStep(cfg, s, step);
    case HandBack => InvCallStep(cfg, s, step);
    case CancelCall(call, delivered) => InvCancel(cfg, s, call, delivered);
    case Read(from, msg, delivered) => InvRead(cfg, s, from, msg, delivered);
    case Conclude(call, delivered) => InvConclude(cfg, s, call, delivered);
    case NotifyRoots(_) => InvAppend(cfg, s, Next(cfg, s, step));
  }

  // ----- runs

  ghost predicate Legal(cfg: ClientConfig, s: State, steps: seq<Step>)
    decreases |steps|
  {
    steps == [] || (Enabled(cfg, s, steps[0]) && Legal(cfg, Next(cfg, s, steps[0]), steps[1..]))
  }

  ghost function Exec(cfg: ClientConfig, s: State, steps: seq<Step>): State
    requires Legal(cfg, s, steps)
    decreases |steps|
  {
    if steps == [] then s else Exec(cfg, Next(cfg, s, steps[0]), steps[1..])
  }

  /** A call that has ended stays as it ended, and what was sent stays sent. */
  ghost predicate Extends(s: State, s': State) {
    && s.sent <= s'.sent && s.heard <= s'.heard && (s.initialized ==> s'.initialized)
    && (forall id :: id in s.calls ==>
          id in s'.calls && s'.calls[id].verb == s.calls[id].verb && s'.calls[id].params == s.calls[id].params
          && s'.calls[id].at == s.calls[id].at && (!s.calls[id].Open() ==> s'.calls[id] == s.calls[id]))
  }

  lemma NextExtends(cfg: ClientConfig, s: State, step: Step)
    requires Enabled(cfg, s, step)
    ensures Extends(s, Next(cfg, s, step))
  {
  }

  lemma ExecKeeps(cfg: ClientConfig, s: State, steps: seq<Step>)
    requires Inv(cfg, s) && Legal(cfg, s, steps)
    ensures Inv(cfg, Exec(cfg, s, steps)) && Extends(s, Exec(cfg, s, steps))
    decreases |steps|
  {
    if steps != [] {
      InvNext(cfg, s, steps[0]);
      NextExtends(cfg, s, steps[0]);
      ExecKeeps(cfg, Next(cfg, s, steps[0]), steps[1..]);
    }
  }

  ghost function CancelsOf(s: State, id: Id): set<nat> {
    set i: nat | i < |s.sent| && s.sent[i].Cancel? && s.sent[i].call == id
  }

  /** The message at `i` is a cancelled notice that names the request of the call. */
  ghost predicate CancelsCall(s: State, i: nat, id: Id) {
    i < |s.sent| && s.sent[i].msg.verb.NotifyCancelled? && s.sent[i].msg.params.requestId == id
  }

  /**
   Across any run and whatever the server sends: the responses returned for an id and the
   cancellations sent for it are together at most one; a cancellation names the request and follows it,
   and its sending was reported successful; a returned response carries the id of its own call; and once a
   call has ended, no continuation of the run ends it again.
   */
  lemma OutcomesAreExclusive(cfg: ClientConfig, steps: seq<Step>, more: seq<Step>, id: Id)
    requires Legal(cfg, FRESH, steps) && Legal(cfg, Exec(cfg, FRESH, steps), more)
    requires id in Exec(cfg, FRESH, steps).calls
    ensures var s := Exec(cfg, FRESH, steps);
            var c := s.calls[id];
            && |CancelsOf(s, id)| + (if c.status.Returned? then 1 else 0) <= 1
            && (forall i :: i in CancelsOf(s, id) ==>
                              c.acked && (c.at.Some? ==> c.at.value < i) && CancelsCall(s, i, id))
            && (c.status.Returned? ==> c.status.msg.id == id)
            && (!c.Open() ==>
                  && id in Exec(cfg, s, more).calls && Exec(cfg, s, more).calls[id] == c
                  && CancelsOf(Exec(cfg, s, more), id) == CancelsOf(s, id))
  {
    var s := Exec(cfg, FRESH, steps);
    ExecKeeps(cfg, FRESH, steps);
    var c := s.calls[id];
    assert CallOk(cfg, s, id);
    var cancels := CancelsOf(s, id);
    OneCancel(cfg, s, id);
    forall i | i in cancels ensures c.acked && (c.at.Some? ==> c.at.value < i) && CancelsCall(s, i, id) {
      assert SentOk(cfg, s, i);
    }
    ExecKeeps(cfg, s, more);
    var t := Exec(cfg, s, more);
    if !c.Open() {
      assert t.calls[id] == c;
      OneCancel(cfg, t, id);
      forall i ensures i in CancelsOf(t, id) <==> i in cancels {
        if i in CancelsOf(t, id) {
          assert SentOk(cfg, t, i);
          assert s.sent[i] == t.sent[i];
        }
        if i in cancels { assert s.sent[i] == t.sent[i]; }
      }
    }
  }

  lemma OneCancel(cfg: ClientConfig, s: State, id: Id)
    requires Inv(cfg, s) && id in s.calls
    ensures var st := s.calls[id].status;
            CancelsOf(s, id) <= (if st.Cancelled? && st.notice.Some? then {st.notice.value} else {})
    ensures |CancelsOf(s, id)| <= (if s.calls[id].status.Cancelled? then 1 else 0)
  {
    var st := s.calls[id].status;
    var all: set<nat> := if st.Cancelled? && st.notice.Some? then {st.notice.value} else {};
    forall i | i in CancelsOf(s, id) ensures i in all {
      assert SentOk(cfg, s, i);
    }
    Sets.SubsetSize(CancelsOf(s, id), all);
  }
}

/** The client as the source has it: fields updated in place, handler family by handler family. */
module ClientObjects {
  import opened Messages
  import opened Negotiation
  import opened Client

  class ClientObject {
    const cfg: ClientConfig
    var initialized: bool
    var calls: map<Id, Call>
    var held: Option<Held>
    var concluded: set<Id>
    var sent: seq<Sent>
    var heard: seq<Message>

    constructor (cfg: ClientConfig)
      ensures this.cfg == cfg && View() == FRESH
    {
      this.cfg := cfg;
      initialized, calls, held, concluded, sent, heard := false, map[], None, {}, [], [];
    }

    ghost function View(): State
      reads this
    {
      State(initialized, calls, held, concluded, sent, heard)
    }

    /** Writes to the transport; `delivered` says whether the message gets out. */
    method Write(item: Sent, delivered: bool) returns (at: Option<nat>)
      modifies this
      ensures View() == old(View()).(sent := Put(delivered, old(sent), item)) && at == Place(delivered, old(sent))
    {
      at := None;
      if delivered {
        at := Some(|sent|);
        sent := sent + [item];
      }
    }

    /** Registers a call under a fresh id and sends its request. */
    method BeginRequest(call: Id, verb: NamedMethod, params: Params, delivered: bool)
      requires Enabled(cfg, View(), StartCall(call, verb, params, delivered))
      modifies this
      ensures View() == Next(cfg, old(View()), StartCall(call, verb, params, delivered))
    {
      var at := Write(Ask(call, Request(call, verb, params)), delivered);
      calls := calls[call := Call(verb, params, at, false, Sending)];
    }

    /**
     What a family does with a message that is its own, and the error it hands back; it leaves other
     messages alone.  `failed` says whether the write of an answer reports an error.
     */
    ghost predicate Handled(
      before: State, from: nat, msg: Message, delivered: bool, failed: bool, mine: bool, err: bool)
      requires before.held.None?
      reads this
    {
      && View() == (if mine then Next(cfg, before, Read(from, msg, delivered)) else before)
      && err == (mine && ReadFails(cfg, before.calls, msg, failed))
    }

    method HandleBasicMessages(from: nat, msg: Message, delivered: bool, failed: bool) returns (err: bool)
      requires held.None? && msg.jsonrpc == JSONRPC_VERSION
      modifies this
      ensures Handled(old(View()), from, msg, delivered, failed, msg.verb.Ping?, err)
    {
      if !msg.verb.Ping? { return false; }
      var _ := Write(Reply(from, Response(msg.id, Success(Null))), delivered);
      return failed;
    }

    method HandleRootMessages(from: nat, msg: Message, delivered: bool, failed: bool) returns (err: bool)
      requires held.None? && msg.jsonrpc == JSONRPC_VERSION
      modifies this
      ensures Handled(old(View()), from, msg, delivered, failed, msg.verb.RootsList?, err)
    {
      if RootsListHandler !in cfg.parts { return false; }
      if !msg.verb.RootsList? { return false; }
      var result := cfg.answer(RootsList, NO_PARAMS);
      if result.None? {
        var error := RpcError(INTERNAL_ERROR_CODE, "Internal error");
        var _ := Write(Reply(from, Response(msg.id, Failure(error))), delivered);
        return true;
      }
      var _ := Write(Reply(from, Response(msg.id, Success(result.value))), delivered);
      return failed;
    }

    method HandleSamplingMessages(from: nat, msg: Message, delivered: bool, failed: bool) returns (err: bool)
      requires held.None? && msg.jsonrpc == JSONRPC_VERSION
      modifies this
      ensures Handled(old(View()), from, msg, delivered, failed, msg.verb.SamplingCreateMessage?, err)
    {
      if SamplingHandler !in cfg.parts { return false; }
      if !msg.verb.SamplingCreateMessage? { return false; }
      if !msg.params.decodes { return true; }
      var result := cfg.answer(SamplingCreateMessage, msg.params);
      if result.None? {
        var error := RpcError(INTERNAL_ERROR_CODE, "Internal error");
        var _ := Write(Reply(from, Response(msg.id, Failure(error))), delivered);
        return true;
      }
      var _ := Write(Reply(from, Response(msg.id, Success(result.value))), delivered);
      return failed;
    }

    predicate IsNotice(verb: Method) {
      !verb.NoMethod? && !verb.Ping? && !verb.RootsList? && !verb.SamplingCreateMessage?
    }

    method HandleNotificationMessages(from: nat, msg: Message, delivered: bool, failed: bool) returns (err: bool)
      requires held.None? && msg.jsonrpc == JSONRPC_VERSION
      modifies this
      ensures Handled(old(View()), from, msg, delivered, failed, IsNotice(msg.verb), err)
    {
      match msg.verb {
        case NotifyPromptsListChanged =>
          if PromptListWatcher in cfg.parts { heard := heard + [msg]; }
        case NotifyResourcesListChanged =>
          if ResourceListWatcher in cfg.parts { heard := heard + [msg]; }
        case NotifyResourcesUpdated =>
          if ResourceSubscribedWatcher in cfg.parts && msg.params.decodes { heard := heard + [msg]; }
        case NotifyToolsListChanged =>
          if ToolListWatcher in cfg.parts { heard := heard + [msg]; }
        case NotifyProgress =>
          if ProgressListener in cfg.parts && msg.params.decodes { heard := heard + [msg]; }
        case NotifyMessage =>
          if LogReceiver in cfg.parts && msg.params.decodes { heard := heard + [msg]; }
        case _ =>
      }
      return false;
    }

    /** The reader stops at a response to a known id until the call takes it. */
    method HandleResultMessages(from: nat, msg: Message, delivered: bool, failed: bool) returns (err: bool)
      requires held.None? && msg.jsonrpc == JSONRPC_VERSION
      modifies this
      ensures Handled(old(View()), from, msg, delivered, failed, msg.verb.NoMethod?, err)
    {
      if !msg.verb.NoMethod? { return false; }
      if msg.id !in calls { return false; }
      held := Some(Held(from, msg));
      return false;
    }

    /** The families in sequence are one flat lookup on the method, with the error the transport gets back. */
    method HandleMsg(from: nat, msg: Message, delivered: bool, failed: bool) returns (err: bool)
      requires held.None?
      modifies this
      ensures View() == Next(cfg, old(View()), Read(from, msg, delivered))
      ensures err == ReadFails(cfg, old(calls), msg, failed)
    {
      if msg.jsonrpc != JSONRPC_VERSION { return true; }
      ghost var before, after := View(), Next(cfg, View(), Read(from, msg, delivered));
      err := HandleBasicMessages(from, msg, delivered, failed);
      if err { return; }
      assert View() == if msg.verb.Ping? then after else before;
      err := HandleRootMessages(from, msg, delivered, failed);
      if err { return; }
      assert View() == if msg.verb.Ping? || msg.verb.RootsList? then after else before;
      err := HandleSamplingMessages(from, msg, delivered, failed);
      if err { return; }
      assert View() == if msg.verb.NoMethod? || IsNotice(msg.verb) then before else after;
      err := HandleNotificationMessages(from, msg, delivered, failed);
      if err { return; }
      assert View() == if msg.verb.NoMethod? then before else after;
      err := HandleResultMessages(from, msg, delivered, failed);
    }

    /**
     The end of `initialize`, once the response to its request has come back; `ok` is what the program
     that connects learns, and `failed` whether the last write reports an error.
     */
    method FinishInitialize(call: Id, delivered: bool, failed: bool) returns (ok: bool)
      requires Enabled(cfg, View(), Conclude(call, delivered))
      modifies this
      ensures View() == Next(cfg, old(View()), Conclude(call, delivered))
      ensures ok <==> Judge(cfg, old(calls)[call].status.msg).Accepted? && !failed
    {
      var res := calls[call].status.msg;
      concluded := concluded + {call};
      if res.error.Some? || res.result.None? || res.result.value.Data? { return false; }
      if res.result.value.Null? || res.result.value.Object? || res.result.value.version != cfg.version {
        var error := RpcError(INVALID_PARAMS_CODE, "Unsupported protocol version");
        var _ := Write(Stray(call, Response(res.id, Failure(error))), delivered);
        return false;
      }
      var missing := CheckServer(RequiredByClient(cfg.parts, cfg.needs), res.result.value.capabilities);
      if missing.Some? {
        var error := RpcError(INVALID_PARAMS_CODE, "Insufficient client capabilities");
        var _ := Write(Stray(call, Response(res.id, Failure(error))), delivered);
        return false;
      }
      initialized := true;
      var _ := Write(Note(Notice(NotifyInitialized, NO_PARAMS)), delivered);
      return !failed;
    }
  }
}

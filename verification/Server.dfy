/**
 The server: its registry of live sessions, the map from progress tokens to sessions, the queue of
 progress reports, and dispatch.  `ServerObject` updates these in place, handler family by handler
 family; `Next` gives the same steps as a function, with dispatch as one flat lookup, and is what
 runs are made of.
 */
module Server {
  import opened Messages
  import opened Negotiation
  import Session

  type ServerConfig = Session.ServerConfig

  /** A progress report in the reporter's channel; `from` is the session whose task sent it. */
  datatype Report = Report(token: Token, progress: nat, total: real, from: SessionId)

  datatype Stored = Stored(token: Token, session: SessionId)

  /** `stored` is the history of what was ever stored in `progresses`. */
  datatype State = State(
    live: set<SessionId>,
    sessions: map<SessionId, Session.State>,
    progresses: map<Token, SessionId>,
    stored: seq<Stored>,
    reports: seq<Report>)

  const START := State({}, map[], map[], [], [])

  datatype Step =
    | Open(session: SessionId)
    | Close(session: SessionId)
    | Incoming(session: SessionId, msg: Message)
    | Local(session: SessionId, step: Session.Step)
    | Forward(session: SessionId)

  datatype HandleError = InvalidJson | SessionNotFound

  // ----- the steps as functions

  /** What dispatch does to a session that has just received `msg`. */
  function Launched(g: State, id: SessionId, msg: Message, routed: Session.Routed): State
    requires id in g.sessions && |g.sessions[id].recv| > 0
  {
    var s := g.sessions[id];
    if !routed.Launch? then g
    else
      var g' := g.(sessions := g.sessions[id := s.(tasks := s.tasks[|s.recv| - 1 := Session.Spawned])]);
      if routed.storesToken then
        g'.(progresses := g.progresses[msg.params.token := id], stored := g.stored + [Stored(msg.params.token, id)])
      else g'
  }

  /** The verdict of `handleMsg`, which the transport passes back to the sender. */
  function Verdict(cfg: ServerConfig, g: State, id: SessionId, msg: Message): Option<HandleError> {
    if msg.jsonrpc != JSONRPC_VERSION then Some(InvalidJson)
    else if id !in g.live then Some(SessionNotFound)
    else if Session.Route(cfg, msg).Reject? then Some(InvalidJson)
    else None
  }

  function Received(g: State, id: SessionId, msg: Message): State
    requires id in g.sessions
  {
    g.(sessions := g.sessions[id := g.sessions[id].(recv := g.sessions[id].recv + [msg])])
  }

  function Dispatch(cfg: ServerConfig, g: State, id: SessionId, msg: Message): State
    requires g.live <= g.sessions.Keys
  {
    if msg.jsonrpc != JSONRPC_VERSION || id !in g.live then g
    else Launched(Received(g, id, msg), id, msg, Session.Route(cfg, msg))
  }

  /** The report, if any, that a task sends when it takes this step. */
  function ReportOf(cfg: ServerConfig, s: Session.State, id: SessionId, step: Session.Step): seq<Report>
    requires Session.Enabled(cfg, s, step)
  {
    if !step.Act? then []
    else match cfg.handler(s.recv[step.task].verb, s.recv[step.task].params, s.tasks[step.task].seen)
      case Report(token, progress, total) => [Report(token, progress, total, id)]
      case _ => []
  }

  /** Where a report goes: the session that its token leads to, if that session is live. */
  function Destination(g: State, token: Token): Option<SessionId> {
    if token in g.progresses && g.progresses[token] in g.live then Some(g.progresses[token]) else None
  }

  predicate Enabled(cfg: ServerConfig, g: State, step: Step) {
    match step
    case Open(_) => true
    case Close(_) => true
    case Incoming(_, _) => true
    case Local(id, st) =>
      && id in g.sessions && Session.Enabled(cfg, g.sessions[id], st)
      && !st.Receive? && !(st.Take? && st.update.Progressed?)
    case Forward(id) =>
      && g.reports != [] && g.reports[0].from == id
      && match Destination(g, g.reports[0].token)
         case None => true
         case Some(to) => to in g.sessions && g.sessions[to].inbox == []
  }

  function Next(cfg: ServerConfig, g: State, step: Step): (g': State)
    requires g.live <= g.sessions.Keys && Enabled(cfg, g, step)
    ensures g'.live <= g'.sessions.Keys
  {
    match step
    case Open(id) => g.(live := g.live + {id}, sessions := g.sessions[id := Session.FRESH])
    case Close(id) => g.(live := g.live - {id})
    case Incoming(id, msg) => Dispatch(cfg, g, id, msg)
    case Local(id, st) =>
      g.(sessions := g.sessions[id := Session.Next(cfg, g.sessions[id], st)],
         reports := g.reports + ReportOf(cfg, g.sessions[id], id, st))
    case Forward(_) =>
      var r := g.reports[0];
      var g' := g.(reports := g.reports[1..]);
      (match Destination(g, r.token)
       case None => g'
       case Some(to) =>
         var update := Session.Progressed(r.token, r.progress, r.total);
         g'.(sessions := g.sessions[to := Session.Next(cfg, g.sessions[to], Session.Take(update))]))
  }

  /** Dispatch of a message that is let in is the session's `Receive`, plus the token. */
  lemma DispatchReceives(cfg: ServerConfig, g: State, id: SessionId, msg: Message)
    requires g.live <= g.sessions.Keys && msg.jsonrpc == JSONRPC_VERSION && id in g.live
    ensures Dispatch(cfg, g, id, msg).sessions
            == g.sessions[id := Session.Next(cfg, g.sessions[id], Session.Receive(msg))]
  {
    assert Dispatch(cfg, g, id, msg).sessions[id] == Session.Next(cfg, g.sessions[id], Session.Receive(msg));
  }

  // ----- the server as the source has it

  class ServerObject {
    const cfg: ServerConfig
    var live: set<SessionId>
    var sessions: map<SessionId, Session.State>
    var progresses: map<Token, SessionId>
    var reports: seq<Report>
    ghost var stored: seq<Stored>

    constructor (cfg: ServerConfig)
      ensures this.cfg == cfg && View() == START
    {
      this.cfg := cfg;
      live, sessions, progresses := {}, map[], map[];
      stored, reports := [], [];
    }

    ghost function View(): State
      reads this
    {
      State(live, sessions, progresses, stored, reports)
    }

    ghost predicate Valid()
      reads this
    {
      live <= sessions.Keys
    }

    method StartSession(id: SessionId)
      requires Valid()
      modifies this
      ensures Valid() && View() == Next(cfg, old(View()), Open(id))
    {
      sessions := sessions[id := Session.FRESH];
      live := live + {id};
    }

    method StopSession(id: SessionId)
      requires Valid()
      modifies this
      ensures Valid() && View() == Next(cfg, old(View()), Close(id))
    {
      live := live - {id};
    }

    /** One turn of the progress loop: the report goes to the session its token leads to, or nowhere. */
    method ListenProgress()
      requires Valid() && reports != [] && Enabled(cfg, View(), Forward(reports[0].from))
      modifies this
      ensures Valid() && View() == Next(cfg, old(View()), Forward(old(reports)[0].from))
    {
      var params := reports[0];
      reports := reports[1..];
      if params.token !in progresses { return; }
      var sessId := progresses[params.token];
      if sessId !in live { return; }
      var update := Session.Progressed(params.token, params.progress, params.total);
      sessions := sessions[sessId := sessions[sessId].(inbox := sessions[sessId].inbox + [update])];
    }

    /** Starts the goroutine for the message the session received last. */
    method Go(id: SessionId, msg: Message)
      requires id in sessions && |sessions[id].recv| > 0
      modifies this
      ensures View() == Launched(old(View()), id, msg, Session.Launch(false))
    {
      var s := sessions[id];
      sessions := sessions[id := s.(tasks := s.tasks[|s.recv| - 1 := Session.Spawned])];
    }

    /** Stores the progress token of a request, if it has one, and starts its goroutine. */
    method GoWithToken(id: SessionId, msg: Message)
      requires id in sessions && |sessions[id].recv| > 0
      modifies this
      ensures View() == Launched(old(View()), id, msg, Session.Launch(msg.params.token != ""))
    {
      if msg.params.token != "" {
        progresses := progresses[msg.params.token := id];
        stored := stored + [Stored(msg.params.token, id)];
      }
      Go(id, msg);
    }

    /** The place, in the order of the source, of the family that handles a method. */
    static function FamilyOf(verb: Method): nat {
      match verb
      case Ping => 0
      case Initialize => 0
      case PromptsList => 1
      case PromptsGet => 1
      case ResourcesList => 2
      case ResourcesRead => 2
      case ResourcesTemplatesList => 2
      case ResourcesSubscribe => 2
      case ResourcesUnsubscribe => 2
      case ToolsList => 3
      case ToolsCall => 3
      case CompletionComplete => 4
      case NotifyInitialized => 5
      case NotifyCancelled => 5
      case NotifyRootsListChanged => 5
      case NoMethod => 6
      case LoggingSetLevel => 7
      case _ => 8
    }

    /** What a handler family must do: dispatch messages of its own methods, and leave others alone. */
    ghost predicate Handled(before: State, id: SessionId, msg: Message, mine: bool, err: Option<HandleError>)
      requires id in before.sessions && |before.sessions[id].recv| > 0
      reads this
    {
      if mine then
        && View() == Launched(before, id, msg, Session.Route(cfg, msg))
        && err == (if Session.Route(cfg, msg).Reject? then Some(InvalidJson) else None)
      else View() == before && err == None
    }

    method HandleBasicMessages(id: SessionId, msg: Message) returns (err: Option<HandleError>)
      requires id in sessions && |sessions[id].recv| > 0
      modifies this
      ensures Handled(old(View()), id, msg, FamilyOf(msg.verb) == 0, err)
    {
      match msg.verb
      case Ping =>
        Go(id, msg);
        return None;
      case Initialize =>
        if !msg.params.decodes { return Some(InvalidJson); }
        Go(id, msg);
        return None;
      case _ => return None;
    }

    method HandlePromptMessages(id: SessionId, msg: Message) returns (err: Option<HandleError>)
      requires id in sessions && |sessions[id].recv| > 0
      modifies this
      ensures Handled(old(View()), id, msg, FamilyOf(msg.verb) == 1, err)
    {
      if PromptServer !in cfg.parts { return None; }
      if msg.verb.PromptsList? || msg.verb.PromptsGet? {
        if !msg.params.decodes { return Some(InvalidJson); }
        GoWithToken(id, msg);
      }
      return None;
    }

    method HandleResourceMessages(id: SessionId, msg: Message) returns (err: Option<HandleError>)
      requires id in sessions && |sessions[id].recv| > 0
      modifies this
      ensures Handled(old(View()), id, msg, FamilyOf(msg.verb) == 2, err)
    {
      if ResourceServer !in cfg.parts { return None; }
      if msg.verb.ResourcesList? || msg.verb.ResourcesRead? || msg.verb.ResourcesTemplatesList? {
        if !msg.params.decodes { return Some(InvalidJson); }
        GoWithToken(id, msg);
      } else if msg.verb.ResourcesSubscribe? || msg.verb.ResourcesUnsubscribe? {
        if !msg.params.decodes { return Some(InvalidJson); }
        Go(id, msg);
      }
      return None;
    }

    method HandleToolMessages(id: SessionId, msg: Message) returns (err: Option<HandleError>)
      requires id in sessions && |sessions[id].recv| > 0
      modifies this
      ensures Handled(old(View()), id, msg, FamilyOf(msg.verb) == 3, err)
    {
      if ToolServer !in cfg.parts { return None; }
      if msg.verb.ToolsList? || msg.verb.ToolsCall? {
        if !msg.params.decodes { return Some(InvalidJson); }
        GoWithToken(id, msg);
      }
      return None;
    }

    method HandleCompletionMessages(id: SessionId, msg: Message) returns (err: Option<HandleError>)
      requires id in sessions && |sessions[id].recv| > 0
      modifies this
      ensures Handled(old(View()), id, msg, FamilyOf(msg.verb) == 4, err)
    {
      if !msg.verb.CompletionComplete? { return None; }
      if !msg.params.decodes { return Some(InvalidJson); }
      match msg.params.refType
      case RefPrompt =>
        Go(id, msg);
        return None;
      case RefResource =>
        Go(id, msg);
        return None;
      case RefOther => return None;
    }

    /** `OnRootsListChanged` is the user's code and touches none of the server's state. */
    method HandleNotificationMessages(id: SessionId, msg: Message) returns (err: Option<HandleError>)
      requires id in sessions && |sessions[id].recv| > 0
      modifies this
      ensures Handled(old(View()), id, msg, FamilyOf(msg.verb) == 5, err)
    {
      if msg.verb.NotifyInitialized? {
        Go(id, msg);
      } else if msg.verb.NotifyCancelled? {
        if !msg.params.decodes { return Some(InvalidJson); }
        Go(id, msg);
      }
      return None;
    }

    method HandleResultMessages(id: SessionId, msg: Message)
      requires id in sessions && |sessions[id].recv| > 0
      modifies this
      ensures Handled(old(View()), id, msg, FamilyOf(msg.verb) == 6, None)
    {
      if !msg.verb.NoMethod? { return; }
      Go(id, msg);
    }

    method HandleLoggingMessages(id: SessionId, msg: Message) returns (err: Option<HandleError>)
      requires id in sessions && |sessions[id].recv| > 0
      modifies this
      ensures Handled(old(View()), id, msg, FamilyOf(msg.verb) == 7, err)
    {
      if LogHandler !in cfg.parts { return None; }
      if !msg.verb.LoggingSetLevel? { return None; }
      if !msg.params.decodes { return Some(InvalidJson); }
      Go(id, msg);
      return None;
    }

    /** The families in sequence are one flat lookup on the method. */
    method HandleMsg(id: SessionId, msg: Message) returns (err: Option<HandleError>)
      requires Valid()
      modifies this
      ensures Valid() && View() == Dispatch(cfg, old(View()), id, msg)
      ensures err == Verdict(cfg, old(View()), id, msg)
    {
      if msg.jsonrpc != JSONRPC_VERSION { return Some(InvalidJson); }
      if id !in live { return Some(SessionNotFound); }
      sessions := sessions[id := sessions[id].(recv := sessions[id].recv + [msg])];
      err := RunFamilies(id, msg);
    }

    /** The eight families, in the order of the source. */
    method RunFamilies(id: SessionId, msg: Message) returns (err: Option<HandleError>)
      requires id in sessions && |sessions[id].recv| > 0
      modifies this
      ensures Handled(old(View()), id, msg, true, err)
    {
      ghost var before := View();
      ghost var after := Launched(before, id, msg, Session.Route(cfg, msg));
      ghost var n := FamilyOf(msg.verb);
      assert n == 8 ==> after == before;

      err := HandleBasicMessages(id, msg);
      if err.Some? { return; }
      assert View() == if n <= 0 then after else before;
      err := HandlePromptMessages(id, msg);
      if err.Some? { return; }
      assert View() == if n <= 1 then after else before;
      err := HandleResourceMessages(id, msg);
      if err.Some? { return; }
      assert View() == if n <= 2 then after else before;
      err := HandleToolMessages(id, msg);
      if err.Some? { return; }
      assert View() == if n <= 3 then after else before;
      err := HandleCompletionMessages(id, msg);
      if err.Some? { return; }
      assert View() == if n <= 4 then after else before;
      err := HandleNotificationMessages(id, msg);
      if err.Some? { return; }
      assert View() == if n <= 5 then after else before;
      HandleResultMessages(id, msg);
      assert View() == if n <= 6 then after else before;
      err := HandleLoggingMessages(id, msg);
    }
  }
}

/**
 The simple form of a call: the handler run to its end as a plain function, with each callback
 answered on the spot by the client's own handler.
 */
module Evaluation {
  import opened Messages
  import opened Negotiation
  import opened Protocol
  import opened ProtocolTheorems
  import Session

  type Bound = (Method, Params) -> nat

  /** Handlers end within a bound of events, and ask the client only what the client answers. */
  ghost predicate WellBehaved(c: ClientConfig, v: ServerConfig, bound: Bound) {
    && (forall verb, params, seen :: |seen| >= bound(verb, params) ==>
          v.handler(verb, params, seen).Return? || v.handler(verb, params, seen).Fail?)
    && (forall verb, params, seen :: v.handler(verb, params, seen).Ask? ==>
          Answerable(c, v.handler(verb, params, seen)))
  }

  ghost predicate Answerable(c: ClientConfig, ask: Session.Action) {
    ask.Ask? && ClientReply(c, ask.verb, ask.params).Some?
  }

  /** After an agreed handshake, a well-formed ask in a family the server requires is answerable. */
  lemma RequiredIsAnswerable(c: ClientConfig, v: ServerConfig, ask: Session.Action)
    requires Agreement(c, v) && ask.Ask? && ask.params.decodes && RequiredByServerConfig(v, ask.verb)
    ensures Answerable(c, ask)
  {
    CheckClientIsOrder(RequiredByServer(v.parts, v.needs), OfferedByClient(c.parts));
  }

  ghost function Evaluate(
    c: ClientConfig, v: ServerConfig, bound: Bound, verb: Method, params: Params, seen: seq<Session.Event>): Reply
    requires WellBehaved(c, v, bound)
    decreases bound(verb, params) - |seen|
  {
    match v.handler(verb, params, seen)
    case Report(_, _, _) => Evaluate(c, v, bound, verb, params, seen + [Session.Reported])
    case Ask(verb', params') =>
      assert Answerable(c, v.handler(verb, params, seen));
      Evaluate(c, v, bound, verb, params, seen + [Session.Answered(ClientReply(c, verb', params').value)])
    case Return(value) => Success(value)
    case Fail => Failure(Session.INTERNAL_ERROR)
  }

  /** The reply to a request, as a direct call of the handlers would give it. */
  ghost function Direct(c: ClientConfig, v: ServerConfig, bound: Bound, verb: Method, params: Params): Reply
    requires WellBehaved(c, v, bound)
  {
    if Session.UserVerb(verb) then Evaluate(c, v, bound, verb, params, []) else Success(Null)
  }
}

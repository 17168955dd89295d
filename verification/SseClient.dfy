/**
 The SSE client's event loop.  It waits for the event that names the message endpoint, reports the
 session to `StartSession`, which listens for exactly one report, and then forwards messages.
 */
module SseClient {
  import opened Messages

  datatype Endpoint = Endpoint(url: string, sessionId: SessionId)

  /** One event of the stream; `Bad` data is what a URL or JSON parser refuses. */
  datatype Event =
    | EndpointEvent(endpoint: Endpoint)
    | BadEndpointEvent
    | MessageEvent(msg: Message)
    | BadMessageEvent
    | OtherEvent
    | ReadError

  datatype Forwarded = Forwarded(session: SessionId, msg: Message)

  datatype Report = Session(id: SessionId) | NoSession

  /** The first endpoint event decides: everything before it must be of a type the loop ignores. */
  function Opening(events: seq<Event>): Option<nat> {
    if events == [] then None
    else match events[0]
      case OtherEvent =>
        (match Opening(events[1..])
         case Some(n) => Some(n + 1)
         case None => None)
      case EndpointEvent(e) => if e.sessionId != "" then Some(0) else None
      case _ => None
  }

  /** The decodable messages up to the first read error. */
  function Decodable(events: seq<Event>): seq<Message> {
    if events == [] || events[0].ReadError? then []
    else (if events[0].MessageEvent? then [events[0].msg] else []) + Decodable(events[1..])
  }

  /**
   The message URL that the loop leaves behind.  An endpoint event that names no session still sets the
   URL, and so does one more after it, before the loop blocks; once a session is reported, none does.
   */
  function FinalUrl(events: seq<Event>, url: string): string {
    if events == [] then url
    else match events[0]
      case OtherEvent => FinalUrl(events[1..], url)
      case EndpointEvent(e) => if e.sessionId != "" then e.url else UrlAfterRefusal(events[1..], e.url)
      case _ => url
  }

  function UrlAfterRefusal(events: seq<Event>, url: string): string {
    if events == [] then url
    else match events[0]
      case OtherEvent => UrlAfterRefusal(events[1..], url)
      case EndpointEvent(e) => e.url
      case _ => url
  }

  /** The event at `i` carries a message that the loop comes to, when it starts after `n`. */
  ghost predicate Carries(events: seq<Event>, n: nat, i: nat) {
    n < i < |events| && events[i].MessageEvent? && forall k :: n < k < i ==> !events[k].ReadError?
  }

  /** `at` lists, in order, exactly the events after `n` that carry a message. */
  ghost predicate Lists(events: seq<Event>, n: nat, at: seq<nat>) {
    && (forall k :: 0 <= k < |at| ==> Carries(events, n, at[k]))
    && (forall k, l :: 0 <= k < l < |at| ==> at[k] < at[l])
    && (forall i :: Carries(events, n, i) ==> i in at)
  }

  /** `forwarded` is the first `room` of the messages after `n`, each under the session. */
  ghost predicate FirstMessages(
    events: seq<Event>, n: nat, room: nat, session: SessionId, at: seq<nat>, forwarded: seq<Forwarded>)
  {
    && Lists(events, n, at) && |forwarded| == (if room < |at| then room else |at|)
    && forall k :: 0 <= k < |forwarded| ==> forwarded[k] == Forwarded(session, events[at[k]].msg)
  }

  /** Where the decodable messages of the events from `from` on are. */
  lemma {:induction false} DecodablePlaces(events: seq<Event>, n: nat, from: nat) returns (at: seq<nat>)
    requires n < from <= |events| && forall k :: n < k < from ==> !events[k].ReadError?
    ensures |at| == |Decodable(events[from..])|
    ensures forall k :: 0 <= k < |at| ==>
                          && from <= at[k] && Carries(events, n, at[k])
                          && Decodable(events[from..])[k] == events[at[k]].msg
    ensures forall k, l :: 0 <= k < l < |at| ==> at[k] < at[l]
    ensures forall i :: from <= i && Carries(events, n, i) ==> i in at
    decreases |events| - from
  {
    at := [];
    if from < |events| && !events[from].ReadError? {
      assert events[from..][1..] == events[from + 1..];
      var rest := DecodablePlaces(events, n, from + 1);
      at := (if events[from].MessageEvent? then [from] else []) + rest;
    }
  }

  function Tagged(session: SessionId, msgs: seq<Message>): seq<Forwarded> {
    seq(|msgs|, i requires 0 <= i < |msgs| => Forwarded(session, msgs[i]))
  }

  /** `forwarded` is the first `room` of the messages after the opening event `n`, under its session. */
  ghost predicate ForwardsFirst(events: seq<Event>, n: nat, room: nat, forwarded: seq<Forwarded>) {
    Opens(events, n)
    && exists at :: FirstMessages(events, n, room, events[n].endpoint.sessionId, at, forwarded)
  }

  function FirstOf(all: seq<Forwarded>, room: nat): seq<Forwarded> {
    all[..if room < |all| then room else |all|]
  }

  /** The decodable messages after the opening event, tagged. */
  function AllAfter(events: seq<Event>, n: nat): seq<Forwarded>
    requires n < |events| && events[n].EndpointEvent?
  {
    Tagged(events[n].endpoint.sessionId, Decodable(events[n + 1..]))
  }

  /** The first of the decodable messages after the opening event are the first of those the events carry. */
  lemma MessagesArePlaced(events: seq<Event>, n: nat, room: nat)
    requires Opens(events, n)
    ensures ForwardsFirst(events, n, room, FirstOf(AllAfter(events, n), room))
  {
    var at := DecodablePlaces(events, n, n + 1);
    assert FirstMessages(events, n, room, events[n].endpoint.sessionId, at, FirstOf(AllAfter(events, n), room));
  }

  lemma {:induction false} OpeningFound(events: seq<Event>, n: nat)
    requires Opening(events) == Some(n)
    ensures Opens(events, n)
  {
    if n > 0 {
      OpeningFound(events[1..], n - 1);
      assert forall i :: 1 <= i < n ==> events[i] == events[1..][i - 1];
    }
  }

  /** The event at `n` opens the session: it is the first not ignored, and names a session. */
  ghost predicate Opens(events: seq<Event>, n: nat) {
    && n < |events| && events[n].EndpointEvent? && events[n].endpoint.sessionId != ""
    && forall i :: 0 <= i < n ==> events[i].OtherEvent?
  }

  /** `Opening` finds exactly the event that opens the session. */
  lemma OpeningAt(events: seq<Event>, n: nat)
    ensures Opening(events) == Some(n) <==> Opens(events, n)
  {
    if Opening(events) == Some(n) { OpeningFound(events, n); }
    if Opens(events, n) { OpeningIs(events, n); }
  }

  lemma {:induction false} OpeningIs(events: seq<Event>, n: nat)
    requires n < |events| && !events[n].OtherEvent? && forall i :: 0 <= i < n ==> events[i].OtherEvent?
    ensures Opening(events) == if events[n].EndpointEvent? && events[n].endpoint.sessionId != "" then Some(n) else None
  {
    if n > 0 {
      assert forall i :: 0 <= i < n - 1 ==> events[1..][i] == events[i + 1];
      OpeningIs(events[1..], n - 1);
    }
  }

  lemma {:induction false} OnlyOthers(events: seq<Event>)
    requires forall i :: 0 <= i < |events| ==> events[i].OtherEvent?
    ensures Opening(events) == None
  {
    if events != [] {
      assert forall i :: 0 <= i < |events[1..]| ==> events[1..][i] == events[i + 1];
      OnlyOthers(events[1..]);
    }
  }

  /** The first event that the loop does not ignore is an endpoint event, at `m`. */
  ghost predicate SetsUrl(events: seq<Event>, m: nat) {
    m < |events| && events[m].EndpointEvent? && forall k :: 0 <= k < m ==> events[k].OtherEvent?
  }

  /** An endpoint event that counts: it opens the session, or leaves one more to count. */
  lemma {:induction false} FinalUrlAt(events: seq<Event>, url: string, m: nat)
    requires SetsUrl(events, m)
    ensures FinalUrl(events, url) == if events[m].endpoint.sessionId != "" then events[m].endpoint.url
                                     else UrlAfterRefusal(events[m + 1..], events[m].endpoint.url)
    ensures UrlAfterRefusal(events, url) == events[m].endpoint.url
  {
    if m > 0 {
      assert events[1..][m..] == events[m + 1..];
      assert forall k :: 0 <= k < m ==> events[1..][k] == events[k + 1];
      FinalUrlAt(events[1..], url, m - 1);
    }
  }

  /** Without an endpoint event that counts, the URL stays. */
  lemma {:induction false} FinalUrlStays(events: seq<Event>, url: string)
    requires forall m: nat :: !SetsUrl(events, m)
    ensures FinalUrl(events, url) == url && UrlAfterRefusal(events, url) == url
  {
    if events != [] && events[0].OtherEvent? {
      forall m: nat ensures !SetsUrl(events[1..], m) {
        assert !SetsUrl(events, m + 1);
        assert forall k :: 0 <= k < |events| - 1 ==> events[1..][k] == events[k + 1];
      }
      FinalUrlStays(events[1..], url);
    } else {
      assert !SetsUrl(events, 0);
    }
  }

  lemma TaggedFirst(session: SessionId, msg: Message, events: seq<Event>)
    requires events != [] && events[0] == MessageEvent(msg)
    ensures Tagged(session, Decodable(events))
            == [Forwarded(session, msg)] + Tagged(session, Decodable(events[1..]))
  {
    assert Decodable(events) == [msg] + Decodable(events[1..]);
  }

  lemma NothingLeft(session: SessionId, events: seq<Event>)
    requires events == [] || events[0].ReadError?
    ensures Tagged(session, Decodable(events)) == []
  {
  }

  class Client {
    var messageUrl: string

    constructor ()
      ensures messageUrl == ""
    {
      messageUrl := "";
    }

    /**
     The loop over the events.  `room` is how many messages the handler loop takes; handing over one
     more blocks, and so does a second report to `StartSession`.  Unless the first event that is not
     ignored names an endpoint with a session, nothing is ever forwarded.  Otherwise that session is
     reported, its URL is kept to the end, and what is forwarded are the first `room` of all the
     messages that the events after it carry before a read error, in order, all under that session.
     */
    method ListenMessages(events: seq<Event>, room: nat)
      returns (report: Option<Report>, forwarded: seq<Forwarded>)
      modifies this
      ensures messageUrl == FinalUrl(events, old(messageUrl))
      ensures Opening(events).None? ==> forwarded == [] && (report.None? || report == Some(NoSession))
      ensures match Opening(events)
              case None => true
              case Some(n) =>
                && n < |events| && events[n].EndpointEvent?
                && report == Some(Session(events[n].endpoint.sessionId)) && messageUrl == events[n].endpoint.url
                && ForwardsFirst(events, n, room, forwarded)
    {
      var sessId := "";
      report, forwarded := None, [];
      ghost var n := 0;
      ghost var all: seq<Forwarded> := [];
      ghost var left: seq<Forwarded> := [];
      var i := 0;
      while i < |events|
        invariant 0 <= i <= |events|
        invariant sessId == "" && report.None? ==> forall k :: 0 <= k < i ==> events[k].OtherEvent?
        invariant sessId == "" && report.Some? ==> report == Some(NoSession) && Opening(events).None?
        invariant sessId == "" ==> forwarded == []
        invariant FinalUrl(events, old(messageUrl))
                  == if sessId != "" then messageUrl
                     else if report.None? then FinalUrl(events[i..], messageUrl)
                     else UrlAfterRefusal(events[i..], messageUrl)
        invariant sessId != "" ==>
                    && n < i && Opening(events) == Some(n) && Opens(events, n)
                    && events[n] == EndpointEvent(Endpoint(messageUrl, sessId)) && report == Some(Session(sessId))
                    && all == AllAfter(events, n) && ForwardsFirst(events, n, room, FirstOf(all, room))
                    && left == Tagged(sessId, Decodable(events[i..]))
                    && |forwarded| <= room && forwarded + left == all
      {
        assert events[i..][1..] == events[i + 1..];
        match events[i] {
          case OtherEvent =>
          case EndpointEvent(e) =>
            if sessId == "" {
              messageUrl := e.url;
              if report.Some? { return; }
              OpeningIs(events, i);
              if e.sessionId == "" {
                report := Some(NoSession);
              } else {
                sessId, report := e.sessionId, Some(Session(e.sessionId));
                n, all := i, AllAfter(events, i);
                left := all;
                MessagesArePlaced(events, i, room);
                assert [] + left == all;
              }
            }
          case BadEndpointEvent =>
            if sessId == "" {
              if report.None? { OpeningIs(events, i); }
              report := Some(NoSession);
              return;
            }
          case ReadError =>
            if sessId == "" {
              if report.None? { OpeningIs(events, i); }
              report := Some(NoSession);
            } else {
              NothingLeft(sessId, events[i..]);
              assert forwarded + [] == forwarded;
            }
            return;
          case MessageEvent(msg) =>
            if sessId == "" {
              if report.None? { OpeningIs(events, i); }
              return;
            }
            TaggedFirst(sessId, msg, events[i..]);
            if |forwarded| == room {
              assert forwarded == FirstOf(all, room);
              return;
            }
            forwarded, left := forwarded + [Forwarded(sessId, msg)], left[1..];
          case BadMessageEvent =>
            if sessId == "" {
              if report.None? { OpeningIs(events, i); }
              return;
            }
        }
        i := i + 1;
      }
      if sessId == "" && report.None? { OnlyOthers(events); }
      if sessId != "" {
        NothingLeft(sessId, events[i..]);
        assert forwarded + [] == forwarded;
      }
    }
  }
}

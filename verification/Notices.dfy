/**
 The notifications on one topic that pass through a session: those waiting in its inbox and those it
 has sent, oldest first.  A step of the session keeps their order and may leave some out.
 */
module Notices {
  import opened Messages
  import Session

  datatype Topic =
    | ProgressOn(token: Token) | PromptLists | ResourceLists | ResourceUpdates | ToolLists | Logs

  predicate About(topic: Topic, msg: Message) {
    match topic
    case ProgressOn(t) => msg.verb.NotifyProgress? && msg.params.token == t
    case PromptLists => msg.verb.NotifyPromptsListChanged?
    case ResourceLists => msg.verb.NotifyResourcesListChanged?
    case ResourceUpdates => msg.verb.NotifyResourcesUpdated?
    case ToolLists => msg.verb.NotifyToolsListChanged?
    case Logs => msg.verb.NotifyMessage?
  }

  /** The topic of an update, by its kind. */
  predicate IsOn(topic: Topic, u: Session.Update) {
    match topic
    case ProgressOn(t) => u.Progressed? && u.token == t
    case PromptLists => u.PromptsChanged?
    case ResourceLists => u.ResourcesChanged?
    case ResourceUpdates => u.ResourceUpdated?
    case ToolLists => u.ToolsChanged?
    case Logs => u.Logged?
  }

  // ----- leaving out what is not there

  function Somes<T>(xs: seq<Option<T>>): seq<T> {
    if xs == [] then [] else (if xs[0].Some? then [xs[0].value] else []) + Somes(xs[1..])
  }

  lemma {:induction false} SomesAppend<T>(xs: seq<Option<T>>, ys: seq<Option<T>>)
    ensures Somes(xs + ys) == Somes(xs) + Somes(ys)
  {
    if xs == [] {
      assert xs + ys == ys;
    } else {
      var head := if xs[0].Some? then [xs[0].value] else [];
      assert (xs + ys)[0] == xs[0] && (xs + ys)[1..] == xs[1..] + ys;
      SomesAppend(xs[1..], ys);
      assert Somes(xs + ys) == head + (Somes(xs[1..]) + Somes(ys));
    }
  }

  // ----- the stages of one session

  function NoticeIn(topic: Topic, sent: Session.Sent): Option<Message> {
    if sent.Tell? && About(topic, sent.msg) then Some(sent.msg) else None
  }

  function NoticeFor(topic: Topic, u: Session.Update): Option<Message> {
    if IsOn(topic, u) then Some(Session.NoticeOf(u)) else None
  }

  function SentNotices(topic: Topic, sent: seq<Session.Sent>): seq<Message> {
    Somes(seq(|sent|, i requires 0 <= i < |sent| => NoticeIn(topic, sent[i])))
  }

  function InboxNotices(topic: Topic, inbox: seq<Session.Update>): seq<Message> {
    Somes(seq(|inbox|, i requires 0 <= i < |inbox| => NoticeFor(topic, inbox[i])))
  }

  lemma SentNoticesAppend(topic: Topic, sent: seq<Session.Sent>, item: Session.Sent)
    ensures SentNotices(topic, sent + [item]) == SentNotices(topic, sent) + Somes([NoticeIn(topic, item)])
  {
    var all := sent + [item];
    SomesAppend(seq(|sent|, i requires 0 <= i < |sent| => NoticeIn(topic, sent[i])), [NoticeIn(topic, item)]);
    assert seq(|all|, i requires 0 <= i < |all| => NoticeIn(topic, all[i]))
        == seq(|sent|, i requires 0 <= i < |sent| => NoticeIn(topic, sent[i])) + [NoticeIn(topic, item)];
  }

  lemma InboxNoticesAppend(topic: Topic, inbox: seq<Session.Update>, item: Session.Update)
    ensures InboxNotices(topic, inbox + [item]) == InboxNotices(topic, inbox) + Somes([NoticeFor(topic, item)])
  {
    var all := inbox + [item];
    SomesAppend(seq(|inbox|, i requires 0 <= i < |inbox| => NoticeFor(topic, inbox[i])), [NoticeFor(topic, item)]);
    assert seq(|all|, i requires 0 <= i < |all| => NoticeFor(topic, all[i]))
        == seq(|inbox|, i requires 0 <= i < |inbox| => NoticeFor(topic, inbox[i])) + [NoticeFor(topic, item)];
  }

  lemma InboxNoticesPop(topic: Topic, inbox: seq<Session.Update>)
    requires inbox != []
    ensures InboxNotices(topic, inbox) == Somes([NoticeFor(topic, inbox[0])]) + InboxNotices(topic, inbox[1..])
  {
    var tail := inbox[1..];
    assert seq(|inbox|, i requires 0 <= i < |inbox| => NoticeFor(topic, inbox[i]))
        == [NoticeFor(topic, inbox[0])] + seq(|tail|, i requires 0 <= i < |tail| => NoticeFor(topic, tail[i]));
    SomesAppend([NoticeFor(topic, inbox[0])], seq(|tail|, i requires 0 <= i < |tail| => NoticeFor(topic, tail[i])));
  }

  lemma OnTopicIsHeard(topic: Topic, u: Session.Update)
    requires IsOn(topic, u)
    ensures Somes([NoticeFor(topic, u)]) == [Session.NoticeOf(u)]
  {
    assert NoticeFor(topic, u) == Some(Session.NoticeOf(u));
  }

  lemma OffTopicIsSilent(topic: Topic, u: Session.Update)
    requires !IsOn(topic, u)
    ensures Somes([NoticeFor(topic, u)]) == []
  {
    assert NoticeFor(topic, u) == None;
  }

  /** What is sent from position `j` on: the notice there, if it is one, and the rest. */
  lemma SentNoticesSplit(topic: Topic, sent: seq<Session.Sent>, from: nat, j: nat)
    requires from <= j < |sent|
    ensures SentNotices(topic, sent[from..])
            == SentNotices(topic, sent[from..j]) + Somes([NoticeIn(topic, sent[j])]) + SentNotices(topic, sent[j + 1..])
  {
    var all, before, after := sent[from..], sent[from..j], sent[j + 1..];
    var xs := seq(|before|, i requires 0 <= i < |before| => NoticeIn(topic, before[i]));
    var ys := seq(|after|, i requires 0 <= i < |after| => NoticeIn(topic, after[i]));
    assert seq(|all|, i requires 0 <= i < |all| => NoticeIn(topic, all[i])) == xs + ([NoticeIn(topic, sent[j])] + ys);
    SomesAppend(xs, [NoticeIn(topic, sent[j])] + ys);
    SomesAppend([NoticeIn(topic, sent[j])], ys);
  }

  // ----- what a step of a session does to them

  /** An update leaves the inbox only by being sent or left out, and nothing else touches the topic. */
  ghost predicate StagesMove(topic: Topic, s: Session.State, st: Session.Step, s': Session.State) {
    if st.Emit? then
      && s.inbox != []
      && var head := Somes([NoticeFor(topic, s.inbox[0])]);
      && InboxNotices(topic, s.inbox) == head + InboxNotices(topic, s'.inbox)
      && SentNotices(topic, s'.sent)
         == SentNotices(topic, s.sent) + (if st.delivered && Session.PassesOn(s, s.inbox[0]) then head else [])
    else SentNotices(topic, s'.sent) == SentNotices(topic, s.sent)
         && InboxNotices(topic, s'.inbox) == InboxNotices(topic, s.inbox)
  }

  lemma QuietSend(topic: Topic, sent: seq<Session.Sent>, item: Session.Sent)
    requires !item.Tell?
    ensures SentNotices(topic, sent + [item]) == SentNotices(topic, sent)
  {
    SentNoticesAppend(topic, sent, item);
    assert Somes([NoticeIn(topic, item)]) == [];
  }

  lemma BeginStages(cfg: Session.ServerConfig, topic: Topic, s: Session.State, k: nat, delivered: bool)
    requires Session.Enabled(cfg, s, Session.Begin(k, delivered))
    ensures var s' := Session.BeginTask(cfg, s, k, delivered);
            s'.inbox == s.inbox && SentNotices(topic, s'.sent) == SentNotices(topic, s.sent)
  {
    var s' := Session.BeginTask(cfg, s, k, delivered);
    if s'.sent != s.sent {
      assert s'.sent == s.sent + [s'.sent[|s.sent|]] && s'.sent[|s.sent|].Answer?;
      QuietSend(topic, s.sent, s'.sent[|s.sent|]);
    }
  }

  lemma ActStages(cfg: Session.ServerConfig, topic: Topic, s: Session.State, k: nat, call: Id, delivered: bool)
    requires Session.Enabled(cfg, s, Session.Act(k, call, delivered))
    ensures var s' := Session.ActTask(cfg, s, k, call, delivered);
            s'.inbox == s.inbox && SentNotices(topic, s'.sent) == SentNotices(topic, s.sent)
  {
    var s' := Session.ActTask(cfg, s, k, call, delivered);
    if s'.sent != s.sent {
      assert s'.sent == s.sent + [s'.sent[|s.sent|]] && !s'.sent[|s.sent|].Tell?;
      QuietSend(topic, s.sent, s'.sent[|s.sent|]);
    }
  }

  lemma EmitStages(cfg: Session.ServerConfig, topic: Topic, s: Session.State, delivered: bool)
    requires Session.Enabled(cfg, s, Session.Emit(delivered))
    ensures StagesMove(topic, s, Session.Emit(delivered), Session.Next(cfg, s, Session.Emit(delivered)))
  {
    InboxNoticesPop(topic, s.inbox);
    var notice := Session.Tell(Session.NoticeOf(s.inbox[0]));
    SentNoticesAppend(topic, s.sent, notice);
    assert NoticeIn(topic, notice) == NoticeFor(topic, s.inbox[0]);
  }

  lemma LocalStages(cfg: Session.ServerConfig, topic: Topic, s: Session.State, st: Session.Step)
    requires Session.Enabled(cfg, s, st) && !st.Receive? && !(st.Take? && IsOn(topic, st.update))
    ensures StagesMove(topic, s, st, Session.Next(cfg, s, st))
  {
    match st
    case Begin(k, delivered) => BeginStages(cfg, topic, s, k, delivered);
    case Act(k, call, delivered) => ActStages(cfg, topic, s, k, call, delivered);
    case PingClient(call, delivered) =>
      if delivered { QuietSend(topic, s.sent, Session.Query(call, Request(call, Ping, NO_PARAMS))); }
    case Take(update) =>
      InboxNoticesAppend(topic, s.inbox, update);
      assert Somes([NoticeFor(topic, update)]) == [];
    case Emit(delivered) => EmitStages(cfg, topic, s, delivered);
    case _ =>
  }
}

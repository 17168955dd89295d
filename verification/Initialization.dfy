/**
 A session with a client of any kind.  The server marks a session initialized on the client's word,
 so with a client that is not this library's the handshake is safe only under a condition on when
 that word is given; this module says which.
 */
module Initialization {
  import opened Messages
  import opened Negotiation
  import opened Session

  /** A task has taken the client's word that it is initialized. */
  ghost predicate TookWord(s: State, k: nat) {
    k in s.tasks && k < |s.recv| && s.recv[k].verb.NotifyInitialized? && s.tasks[k].Done?
  }

  ghost predicate WordTaken(s: State) {
    exists k :: TookWord(s, k)
  }

  /** A task has answered a request to initialize with success. */
  ghost predicate Accepts(s: State, k: nat) {
    k in s.tasks && k < |s.recv| && s.recv[k].verb.Initialize? && s.tasks[k].Replied? && s.tasks[k].reply.Success?
  }

  ghost predicate Accepted(s: State) {
    exists k :: Accepts(s, k)
  }

  // ----- the flag is set exactly by the client's word

  lemma WordNext(cfg: ServerConfig, s: State, step: Step)
    requires Inv(cfg, s) && Enabled(cfg, s, step) && (s.initialized <==> WordTaken(s))
    ensures Next(cfg, s, step).initialized <==> WordTaken(Next(cfg, s, step))
  {
    var s' := Next(cfg, s, step);
    if step.Receive? {
      ReceiveKeepsWord(cfg, s, step.msg);
    } else {
      NextMoves(cfg, s, step);
      TasksNumbered(cfg, s);
      NextExtends(cfg, s, step);
      WordMoves(cfg, s, step, s');
    }
  }

  lemma ReceiveKeepsWord(cfg: ServerConfig, s: State, msg: Message)
    requires Inv(cfg, s)
    ensures WordTaken(Next(cfg, s, Receive(msg))) <==> WordTaken(s)
  {
    TasksNumbered(cfg, s);
    var s' := Next(cfg, s, Receive(msg));
    if k: nat :| TookWord(s, k) { assert TookWord(s', k); }
    if k: nat :| TookWord(s', k) { assert TookWord(s, k); }
  }

  lemma WordMoves(cfg: ServerConfig, s: State, step: Step, s': State)
    requires Inv(cfg, s) && Enabled(cfg, s, step) && !step.Receive?
    requires Moves(cfg, s, step, s') && Extends(s, s') && (s.initialized <==> WordTaken(s))
    requires step.Begin? && s.recv[step.task].verb.NotifyInitialized? ==>
               s'.initialized && TookWord(s', step.task)
    ensures s'.initialized <==> WordTaken(s')
  {
    if k: nat :| TookWord(s, k) { assert TookWord(s', k); }
    if s'.initialized && !s.initialized {
      assert TookWord(s', step.task);
    }
    if k: nat :| TookWord(s', k) {
      assert TaskMoves(cfg, s, step, s', k);
      assert s.tasks[k] == s'.tasks[k] ==> TookWord(s, k);
    }
  }

  lemma WordExec(cfg: ServerConfig, s: State, steps: seq<Step>)
    requires Inv(cfg, s) && Legal(cfg, s, steps) && (s.initialized <==> WordTaken(s))
    ensures Exec(cfg, s, steps).initialized <==> WordTaken(Exec(cfg, s, steps))
    decreases |steps|
  {
    if steps != [] {
      WordNext(cfg, s, steps[0]);
      InvNext(cfg, s, steps[0]);
      WordExec(cfg, Next(cfg, s, steps[0]), steps[1..]);
    }
  }

  /**
   In every run with any client, a session is initialized if and only if it has processed a notice
   saying so, and no handler that needs an initialized session gets past its first check before.
   */
  lemma InitializedOnClientsWord(cfg: ServerConfig, steps: seq<Step>)
    requires Legal(cfg, FRESH, steps)
    ensures var s := Exec(cfg, FRESH, steps);
            && (s.initialized <==> WordTaken(s))
            && (forall k :: PastFirstCheck(s, k) ==> WordTaken(s))
  {
    InvExec(cfg, FRESH, steps);
    WordExec(cfg, FRESH, steps);
    var s := Exec(cfg, FRESH, steps);
    forall k | PastFirstCheck(s, k) ensures WordTaken(s) {
      assert TaskOk(cfg, s, k);
    }
  }

  // ----- when the client's word is safe

  /** The accepted client has an equal version and covers what the server needs. */
  lemma AcceptedIsCovered(cfg: ServerConfig, s: State, k: nat)
    requires Inv(cfg, s) && Accepts(s, k)
    ensures s.recv[k].params.version == cfg.version
    ensures ClientCovers(s.recv[k].params.capabilities, RequiredByServer(cfg.parts, cfg.needs))
  {
    assert TaskOk(cfg, s, k);
    CheckClientIsOrder(RequiredByServer(cfg.parts, cfg.needs), s.recv[k].params.capabilities);
  }

  lemma AcceptedStays(cfg: ServerConfig, s: State, steps: seq<Step>)
    requires Inv(cfg, s) && Legal(cfg, s, steps) && Accepted(s)
    ensures Accepted(Exec(cfg, s, steps))
    decreases |steps|
  {
    if steps != [] {
      var k: nat :| Accepts(s, k);
      TasksNumbered(cfg, s);
      NextExtends(cfg, s, steps[0]);
      assert Accepts(Next(cfg, s, steps[0]), k);
      InvNext(cfg, s, steps[0]);
      AcceptedStays(cfg, Next(cfg, s, steps[0]), steps[1..]);
    }
  }

  /** However the run goes on, the session is initialized only if it was accepted. */
  ghost predicate StaysSafe(cfg: ServerConfig, s: State) {
    forall more :: Legal(cfg, s, more) && Exec(cfg, s, more).initialized ==> Accepted(Exec(cfg, s, more))
  }

  /**
   After a client has given its word in any run, in a notice with whatever id and parameters, the
   session stays safe from then on if and only if the server had accepted a request to initialize
   before the word arrived.
   */
  lemma WordIsSafeIffAccepted(cfg: ServerConfig, steps: seq<Step>, word: Message)
    requires Legal(cfg, FRESH, steps) && word.verb.NotifyInitialized?
    ensures var s := Exec(cfg, FRESH, steps);
            StaysSafe(cfg, Next(cfg, s, Receive(word))) <==> Accepted(s)
  {
    InvExec(cfg, FRESH, steps);
    var s := Exec(cfg, FRESH, steps);
    var s' := Next(cfg, s, Receive(word));
    InvNext(cfg, s, Receive(word));
    if Accepted(s) {
      var k: nat :| Accepts(s, k);
      assert Accepts(s', k);
      forall more | Legal(cfg, s', more) ensures Accepted(Exec(cfg, s', more)) {
        AcceptedStays(cfg, s', more);
      }
    } else {
      WordBreaks(cfg, s, word, s');
    }
  }

  /** One step after a word given too early, the session is initialized and not accepted. */
  lemma WordBreaks(cfg: ServerConfig, s: State, word: Message, s': State)
    requires word.verb.NotifyInitialized? && Inv(cfg, s) && !Accepted(s) && s' == Next(cfg, s, Receive(word))
    ensures !StaysSafe(cfg, s')
  {
    TasksNumbered(cfg, s);
    var step := Begin(|s.recv|, true);
    var t := Next(cfg, s', step);
    forall k ensures !Accepts(t, k) {
      assert !Accepts(s, k);
    }
    assert Legal(cfg, t, []);
    assert [step][1..] == [];
    assert Legal(cfg, s', [step]) && Exec(cfg, s', [step]) == t;
  }

  /** A run in which a client that never asked to initialize is initialized, whatever the configuration. */
  lemma AnyClientCanBeInitialized(cfg: ServerConfig, word: Message)
    requires word.verb.NotifyInitialized?
    ensures Legal(cfg, FRESH, [Receive(word), Begin(0, true)])
    ensures var s := Exec(cfg, FRESH, [Receive(word), Begin(0, true)]);
            s.initialized && !Accepted(s)
  {
    var s1 := Next(cfg, FRESH, Receive(word));
    assert s1.tasks == map[0 := Spawned];
    var s2 := Next(cfg, s1, Begin(0, true));
    assert [Receive(word), Begin(0, true)][1..] == [Begin(0, true)];
    assert [Begin(0, true)][1..] == [];
    assert s2.recv[0].verb.NotifyInitialized?;
  }
}

/** Both ways of getting stuck can be reached, for channels of any capacity. */
module SystemDeadlocks {
  import opened Wrappers
  import opened Network
  import opened Tasks
  import opened Handlers
  import opened System
  import opened SystemSafety
  import opened SystemAccounting
  import opened SystemProgress
  import C = ClientProcess
  import W = WorkerProcess

  // ---------------------------------------------------------------- reachable states

  ghost predicate Reachable(setup: Setup, rpc: set<PeerId>, s: State) {
    exists states, actions ::
      IsRun(setup, states, actions) && states[0] == Init(setup, rpc) && states[|actions|] == s
  }

  lemma InitIsReachable(setup: Setup, rpc: set<PeerId>)
    requires setup.sizes.Valid()
    ensures Reachable(setup, rpc, Init(setup, rpc))
  {
    hide Init;
    assert IsRun(setup, [Init(setup, rpc)], []);
  }

  lemma StepIsReachable(setup: Setup, rpc: set<PeerId>, s: State, a: Action)
    requires Reachable(setup, rpc, s) && Enabled(setup, s, a)
    ensures Reachable(setup, rpc, Apply(setup, s, a))
  {
    hide Enabled, Apply, Init;
    var states, actions :| IsRun(setup, states, actions) && states[0] == Init(setup, rpc) && states[|actions|] == s;
    var states', actions' := states + [Apply(setup, s, a)], actions + [a];
    forall i | 0 <= i < |actions'| ensures IsStep(setup, states', actions', i) {
      if i < |actions| {
        assert IsStep(setup, states, actions, i);
      }
    }
    assert states'[0] == Init(setup, rpc);
    assert IsRun(setup, states', actions');
    assert states'[|actions'|] == Apply(setup, s, a);
  }

  /** The client waits for the next command or event. */
  predicate QuietClient(setup: Setup, s: State) {
    && s.client.phase.Polling? && s.client.connected && !s.client.closed && s.client.queue == []
    && s.client.capacity == setup.sizes.commands >= 1
    && s.reply.None?
  }

  /** The node sends a command, the client serves it, the node takes the reply. */
  lemma CallRound(setup: Setup, rpc: set<PeerId>, s: State, goal: Goal) returns (s': State)
    requires Reachable(setup, rpc, s) && QuietClient(setup, s)
    requires s.phase == Calling(goal) && !goal.ShuttingDown?
    ensures Reachable(setup, rpc, s') && QuietClient(setup, s') && s'.phase == After(goal, true)
    ensures s'.messages == s.messages && s'.requests == s.requests && s'.core == s.core && s'.outputs == s.outputs
    ensures s'.batch == s.batch && s'.single == s.single
    ensures s'.nextTag == s.nextTag + 1
  {
    hide Reachable, After, Leave, RequestOf, Publication;
    StepIsReachable(setup, rpc, s, Call);
    var s1 := Apply(setup, s, Call);
    assert s1.phase == Awaiting(goal, s.nextTag);
    StepIsReachable(setup, rpc, s1, Serve(true));
    var s2 := Apply(setup, s1, Serve(true));
    assert s2.reply.Some? && s2.reply.value.ok && s2.phase == s1.phase;
    StepIsReachable(setup, rpc, s2, TakeReply);
    s' := Apply(setup, s2, TakeReply);
    assert !After(goal, true).Gone? by { AfterOk(goal); }
    ShutdownOnly(goal);
  }

  lemma AfterOk(goal: Goal)
    requires !goal.ShuttingDown?
    ensures !After(goal, true).Gone?
  {
  }

  lemma ShutdownOnly(goal: Goal)
    requires !goal.ShuttingDown?
    ensures !RequestOf(goal).Shutdown?
  {
  }

  /** The node comes up with its workers fresh and its channels empty. */
  lemma StartsUp(setup: Setup, rpc: set<PeerId>) returns (s: State)
    requires setup.sizes.Valid()
    ensures Reachable(setup, rpc, s) && QuietClient(setup, s) && s.phase.LoopHead? && s.nextTag == 4
    ensures s.messages == [] && s.requests == [] && s.outputs == [] && s.core.rpc == rpc
    ensures s.batch == Init(setup, rpc).batch && s.single == Init(setup, rpc).single
  {
    InitIsReachable(setup, rpc);
    hide Reachable;
    s := CallRound(setup, rpc, Init(setup, rpc), Starting(0));
    s := CallRound(setup, rpc, s, Starting(1));
    s := CallRound(setup, rpc, s, Starting(2));
    s := CallRound(setup, rpc, s, Starting(3));
  }

  // ---------------------------------------------------------------- the client blocked

  /** Gossip goes on arriving while the node has not yet sent its command. */
  lemma {:induction false} MessagesPileUp(setup: Setup, rpc: set<PeerId>, s: State,
                                          message: GossipMessage) returns (s': State)
    requires Reachable(setup, rpc, s) && QuietClient(setup, s)
    requires s.phase == Calling(Diagnosing) && |s.messages| <= setup.sizes.messages
    ensures Reachable(setup, rpc, s') && s'.phase == s.phase && s'.nextTag == s.nextTag
    ensures s'.client == s'.client.(phase := C.Forwarding(Gossip(message)),
                                       queue := [], connected := true, closed := false)
    ensures s'.client.capacity == setup.sizes.commands && s'.reply.None?
    ensures |s'.messages| == setup.sizes.messages
    decreases setup.sizes.messages - |s.messages|
  {
    hide Reachable;
    StepIsReachable(setup, rpc, s, See(Gossip(message)));
    s' := Apply(setup, s, See(Gossip(message)));
    if |s.messages| < setup.sizes.messages {
      StepIsReachable(setup, rpc, s', Forward);
      s' := MessagesPileUp(setup, rpc, Apply(setup, s', Forward), message);
    }
  }

  /**
   Whatever the capacities, a run leads from start-up into a block: enough gossip arrives between a
   tick of the diagnostic timer and the command it makes the node send.
   */
  lemma ClientBlockIsReachable(setup: Setup, rpc: set<PeerId>, message: GossipMessage) returns (s: State)
    requires setup.sizes.Valid()
    ensures Reachable(setup, rpc, s) && AwaitsBlockedClient(setup, s) && s.phase == Awaiting(Diagnosing, 4)
  {
    hide Reachable;
    s := StartsUp(setup, rpc);
    StepIsReachable(setup, rpc, s, TickDiagnostic);
    s := MessagesPileUp(setup, rpc, Apply(setup, s, TickDiagnostic), message);
    StepIsReachable(setup, rpc, s, Call);
    s := Apply(setup, s, Call);
  }

  // ---------------------------------------------------------------- a worker blocked

  /** A worker of a kind, at a loop head with nothing else going on. */
  ghost predicate AtHead(setup: Setup, rpc: set<PeerId>, s: State, batchable: bool, w: W.Worker, published: nat) {
    && setup.sizes.Valid()
    && Reachable(setup, rpc, s)
    && QuietClient(setup, s)
    && s.phase.LoopHead?
    && s.messages == [] && s.requests == []
    && s.core.rpc == rpc
    && s.Worker(batchable) == Some(w)
    && w.mode == ModeOf(setup, batchable) && w.capacity == setup.sizes.workflow && w.connected
    && (s.Worker(!batchable).Some? ==> Idle(s.Worker(!batchable).value))
    && |s.outputs| == published
  }

  /** A message that the node admits whenever it comes. */
  ghost predicate Admits(setup: Setup, rpc: set<PeerId>, message: GossipMessage, moment: Moment, input: WorkerInput) {
    Decide(setup.world, rpc, message, moment) == Admit(input)
  }

  /** A message reaches the node, which waits at its loop head with nothing else to do. */
  lemma Delivers(setup: Setup, rpc: set<PeerId>, s: State, message: GossipMessage) returns (s': State)
    requires setup.sizes.Valid() && Reachable(setup, rpc, s) && QuietClient(setup, s) && s.phase.LoopHead?
    requires s.messages == []
    ensures Reachable(setup, rpc, s') && QuietClient(setup, s') && s'.phase.LoopHead? && s'.messages == [message]
    ensures s'.core == s.core && s'.requests == s.requests && s'.batch == s.batch && s'.single == s.single
    ensures s'.outputs == s.outputs && s'.history == s.history
  {
    hide Reachable;
    StepIsReachable(setup, rpc, s, See(Gossip(message)));
    var s1 := Apply(setup, s, See(Gossip(message)));
    StepIsReachable(setup, rpc, s1, Forward);
    s' := Apply(setup, s1, Forward);
    assert s'.messages == [message];
  }

  /** The message arrives, and the node is about to send its task to the worker. */
  lemma Arrives(setup: Setup, rpc: set<PeerId>, s: State, w: W.Worker, n: nat,
                message: GossipMessage, moment: Moment, input: WorkerInput) returns (s': State)
    requires AtHead(setup, rpc, s, input.batchable, w, n) && Admits(setup, rpc, message, moment, input)
    ensures Reachable(setup, rpc, s') && QuietClient(setup, s')
    ensures s'.phase == SendingTask(input, message) && s'.messages == [] && s'.requests == [] && s'.core.rpc == rpc
    ensures s'.batch == s.batch && s'.single == s.single && s'.outputs == s.outputs
  {
    hide Reachable, Decide, InFlightId;
    var s1 := Delivers(setup, rpc, s, message);
    StepIsReachable(setup, rpc, s1, TakeMessage(moment));
    s' := Apply(setup, s1, TakeMessage(moment));
  }

  /** With room in its queue, the worker accepts the task and the node is back at its loop head. */
  lemma Feeds(setup: Setup, rpc: set<PeerId>, s: State, w: W.Worker, n: nat,
              message: GossipMessage, moment: Moment, input: WorkerInput) returns (s': State)
    requires AtHead(setup, rpc, s, input.batchable, w, n) && Admits(setup, rpc, message, moment, input)
    requires W.Enabled(w, W.Accept(input))
    ensures AtHead(setup, rpc, s', input.batchable, W.Apply(w, W.Accept(input)), n)
  {
    hide Reachable, Admits;
    var s1 := Arrives(setup, rpc, s, w, n, message, moment, input);
    StepIsReachable(setup, rpc, s1, SendTask);
    var s2 := Apply(setup, s1, SendTask);
    s' := CallRound(setup, rpc, s2, Validating(message, Accept));
  }

  /** The worker takes a step of its own. */
  lemma Moves(setup: Setup, rpc: set<PeerId>, s: State, batchable: bool, w: W.Worker, n: nat, step: W.Action)
    returns (s': State)
    requires AtHead(setup, rpc, s, batchable, w, n)
    requires W.Enabled(w, step) && !step.Accept? && !step.Disconnect? && (step.Hand? ==> n < setup.sizes.publish)
    ensures AtHead(setup, rpc, s', batchable, W.Apply(w, step), if step.Hand? then n + 1 else n)
  {
    hide Reachable;
    StepIsReachable(setup, rpc, s, WorkerStep(batchable, step));
    s' := Apply(setup, s, WorkerStep(batchable, step));
  }

  /** An idle worker takes a task and executes it. */
  lemma Loads(setup: Setup, rpc: set<PeerId>, s: State, w: W.Worker, n: nat,
              message: GossipMessage, moment: Moment, input: WorkerInput) returns (s': State, w': W.Worker)
    requires AtHead(setup, rpc, s, input.batchable, w, n) && Admits(setup, rpc, message, moment, input) && Idle(w)
    ensures AtHead(setup, rpc, s', input.batchable, w', n) && AllFinished(w') && |w'.phase.members| == 1
    ensures w'.queue == []
  {
    hide AtHead, Admits, ModeOf;
    var b := input.batchable;
    assert w.connected && w.capacity >= 1 && w.Limit() >= 1 by { AtHeadWorker(setup, rpc, s, b, w, n); }
    s' := Feeds(setup, rpc, s, w, n, message, moment, input);
    w' := W.Apply(w, W.Accept(input));
    s' := Moves(setup, rpc, s', b, w', n, W.Collect(1));
    w' := W.Apply(w', W.Collect(1));
    if w'.phase.Sleeping? {
      s' := Moves(setup, rpc, s', b, w', n, W.Wake);
      w' := W.Apply(w', W.Wake);
    }
    s' := Moves(setup, rpc, s', b, w', n, W.Finish(0, Answer("")));
    w' := W.Apply(w', W.Finish(0, Answer("")));
  }

  lemma AtHeadWorker(setup: Setup, rpc: set<PeerId>, s: State, batchable: bool, w: W.Worker, n: nat)
    requires AtHead(setup, rpc, s, batchable, w, n)
    ensures w.connected && w.capacity == setup.sizes.workflow >= 1 && w.Limit() >= 1
  {
  }

  /** Outputs pile up in the publish channel until a worker with one more in its hand has to wait. */
  lemma {:induction false} OutputsPileUp(setup: Setup, rpc: set<PeerId>, s: State, w: W.Worker, n: nat,
                                         message: GossipMessage, moment: Moment, input: WorkerInput)
    returns (s': State, w': W.Worker)
    requires AtHead(setup, rpc, s, input.batchable, w, n) && Admits(setup, rpc, message, moment, input)
    requires Idle(w) && n <= setup.sizes.publish
    ensures AtHead(setup, rpc, s', input.batchable, w', setup.sizes.publish)
    ensures AllFinished(w') && |w'.phase.members| == 1 && w'.queue == []
    decreases setup.sizes.publish - n
  {
    hide AtHead, Admits;
    s', w' := Loads(setup, rpc, s, w, n, message, moment, input);
    if n < setup.sizes.publish {
      s' := Moves(setup, rpc, s', input.batchable, w', n, W.Hand(0));
      w' := W.Apply(w', W.Hand(0));
      s' := Moves(setup, rpc, s', input.batchable, w', n + 1, W.Regroup);
      w' := W.Apply(w', W.Regroup);
      s', w' := OutputsPileUp(setup, rpc, s', w', n + 1, message, moment, input);
    }
  }

  /** Behind the waiting worker its queue fills up. */
  lemma {:induction false} TasksPileUp(setup: Setup, rpc: set<PeerId>, s: State, w: W.Worker, n: nat,
                                       message: GossipMessage, moment: Moment, input: WorkerInput)
    returns (s': State, w': W.Worker)
    requires AtHead(setup, rpc, s, input.batchable, w, n) && Admits(setup, rpc, message, moment, input)
    requires AllFinished(w) && |w.phase.members| == 1 && |w.queue| <= setup.sizes.workflow
    ensures AtHead(setup, rpc, s', input.batchable, w', n)
    ensures AllFinished(w') && |w'.phase.members| == 1 && |w'.queue| == setup.sizes.workflow
    decreases setup.sizes.workflow - |w.queue|
  {
    hide AtHead, Admits;
    AtHeadWorker(setup, rpc, s, input.batchable, w, n);
    s', w' := s, w;
    if |w.queue| < setup.sizes.workflow {
      s' := Feeds(setup, rpc, s, w, n, message, moment, input);
      s', w' := TasksPileUp(setup, rpc, s', W.Apply(w, W.Accept(input)), n, message, moment, input);
    }
  }

  lemma FlightAtBlock(setup: Setup, s: State, w: W.Worker)
    requires s.phase.SendingTask? && s.Worker(s.phase.input.batchable) == Some(w)
    requires AllFinished(w) && |w.phase.members| == 1
    requires s.Worker(!s.phase.input.batchable).Some? ==> Idle(s.Worker(!s.phase.input.batchable).value)
    ensures |InFlight(s, true)| + |InFlight(s, false)| == |w.queue| + |s.outputs| + 2
  {
    hide OutputsOfKind, InFlight;
    FlightOf(s, true);
    FlightOf(s, false);
    OutputsAreOfTwoKinds(s.outputs);
  }

  /** At start-up the worker that the admitted task is for exists and is idle. */
  lemma StartsAtHead(setup: Setup, rpc: set<PeerId>, batchable: bool) returns (s: State, w: W.Worker)
    requires setup.sizes.Valid() && WorkerExists(setup.world, batchable)
    ensures AtHead(setup, rpc, s, batchable, w, 0) && Idle(w)
  {
    hide Reachable, WorkerExists;
    s := StartsUp(setup, rpc);
    w := s.Worker(batchable).value;
  }

  /** One task more than the full worker can take. */
  lemma EndsBlocked(setup: Setup, rpc: set<PeerId>, s: State, w: W.Worker,
                    message: GossipMessage, moment: Moment, input: WorkerInput) returns (s': State)
    requires AtHead(setup, rpc, s, input.batchable, w, setup.sizes.publish)
    requires Admits(setup, rpc, message, moment, input)
    requires AllFinished(w) && |w.phase.members| == 1 && |w.queue| == setup.sizes.workflow
    ensures Reachable(setup, rpc, s') && FeedsBlockedWorker(setup, s')
    ensures s'.messages == [] && s'.requests == []
    ensures |InFlight(s', true)| + |InFlight(s', false)| == setup.sizes.workflow + setup.sizes.publish + 2
  {
    hide Reachable, Admits, InFlight;
    s' := Arrives(setup, rpc, s, w, setup.sizes.publish, message, moment, input);
    FlightAtBlock(setup, s', w);
  }

  /**
   Whatever the capacities, if some message can be admitted then a run leads from start-up into a
   block on its worker. It does so with exactly as many tasks in flight as the bound below which
   progress is certain, so that bound cannot be raised.
   */
  lemma WorkerBlockIsReachable(setup: Setup, rpc: set<PeerId>, message: GossipMessage,
                               moment: Moment) returns (s: State)
    requires setup.sizes.Valid() && Decide(setup.world, rpc, message, moment).Admit?
    ensures Reachable(setup, rpc, s) && FeedsBlockedWorker(setup, s)
    ensures s.messages == [] && s.requests == []
    ensures |InFlight(s, true)| + |InFlight(s, false)| == setup.sizes.workflow + setup.sizes.publish + 2
  {
    var input := Decide(setup.world, rpc, message, moment).input;
    assert Admits(setup, rpc, message, moment, input);
    AdmittedIsWarranted(setup.world, rpc, message, moment, input);
    hide *;
    var w: W.Worker;
    s, w := StartsAtHead(setup, rpc, input.batchable);
    s, w := OutputsPileUp(setup, rpc, s, w, 0, message, moment, input);
    s, w := TasksPileUp(setup, rpc, s, w, setup.sizes.publish, message, moment, input);
    s := EndsBlocked(setup, rpc, s, w, message, moment, input);
  }
}

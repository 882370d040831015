/** Every command the node sends, over whole runs: the log of its commands follows from its events. */
module SystemCommands {
  import opened Wrappers
  import opened Network
  import opened Tasks
  import opened Handlers
  import opened NodeEvents
  import opened System
  import opened SystemSafety
  import opened SystemAccounting
  import opened SystemRuns
  import opened NodeRefinement
  import SystemProgress
  import C = ClientProcess
  import W = WorkerProcess

  // ---------------------------------------------------------------- what a phase still sends

  /** The commands, with their outcomes, that lead from a phase to the loop head or to the end. */
  ghost predicate Finishes(phase: NodePhase, y: seq<Exchange>)
    decreases |y|
  {
    match phase
    case LoopHead => y == []
    case Gone => y == []
    case SendingTask(_, message) => |y| == 1 && Validates(message, Accept, y[0])
    case Calling(goal) => y != [] && y[0].request == RequestOf(goal) && Finishes(After(goal, y[0].ok), y[1..])
    case Awaiting(goal, _) => y != [] && y[0].request == RequestOf(goal) && Finishes(After(goal, y[0].ok), y[1..])
  }

  /** Some commands always lead there. */
  lemma CanFinish(phase: NodePhase) returns (y: seq<Exchange>)
    ensures Finishes(phase, y)
    decreases NodeRank(phase)
  {
    match phase
    case LoopHead => y := [];
    case Gone => y := [];
    case SendingTask(_, message) =>
      y := [Exchange(ValidateMessage(message.id, message.propagatedBy, Accept), true)];
    case Calling(goal) =>
      var rest := CanFinish(After(goal, true));
      y := [Exchange(RequestOf(goal), true)] + rest;
      assert y[1..] == rest;
    case Awaiting(goal, _) =>
      var rest := CanFinish(After(goal, true));
      y := [Exchange(RequestOf(goal), true)] + rest;
      assert y[1..] == rest;
  }

  function NodeRank(phase: NodePhase): nat {
    SystemProgress.NodeWork(phase, None)
  }

  /** The first command of a goal, and the phase it leads to. */
  lemma FirstCommand(goal: Goal, y: seq<Exchange>)
    requires Finishes(Calling(goal), y)
    ensures y != [] && y[0].request == RequestOf(goal) && Finishes(After(goal, y[0].ok), y[1..])
  {
  }

  // ---------------------------------------------------------------- start and stop

  /** The command that failed, and the Shutdown that follows. */
  lemma FailureFinishes(subscribe: bool, x: seq<Exchange>, y: seq<Exchange>)
    requires y != [] && Switched(subscribe, x + [y[0]], false) && Finishes(Calling(ShuttingDown), y[1..])
    ensures if subscribe then StartScript(x + y) else StopScript(x + y)
  {
    hide Switched;
    FirstCommand(ShuttingDown, y[1..]);
    assert (x + y)[..|x + y| - 1] == x + [y[0]] && (x + y)[|x + y| - 1..] == y[1..];
  }

  lemma {:induction false} StartFinishes(done: nat, x: seq<Exchange>, y: seq<Exchange>)
    requires done <= 3 && |x| == done && SwitchedSoFar(true, x) && Finishes(Calling(Starting(done)), y)
    ensures StartScript(x + y)
    decreases 4 - done
  {
    FirstCommand(Starting(done), y);
    hide Switched, SwitchedSoFar, StartScript, Finishes;
    SwitchedOneMore(true, x, y[0].ok);
    var z := x + [y[0]];
    assert y[0] == Exchange(SwitchOf(true, done), y[0].ok);
    assert x + y == z + y[1..];
    if !y[0].ok {
      FailureFinishes(true, x, y);
    } else if done < 3 {
      StartFinishes(done + 1, z, y[1..]);
    } else {
      NothingFinishes(y[1..]);
      assert x + y == z;
      SwitchedAll(true, z);
      StartIsScript(z);
    }
  }

  lemma NothingFinishes(y: seq<Exchange>)
    requires Finishes(LoopHead, y)
    ensures y == []
  {
  }

  lemma StartIsScript(x: seq<Exchange>)
    requires Switched(true, x, true)
    ensures StartScript(x)
  {
  }

  lemma {:induction false} StopFinishes(done: nat, x: seq<Exchange>, y: seq<Exchange>)
    requires done <= 3 && |x| == done && SwitchedSoFar(false, x) && Finishes(Calling(Stopping(done)), y)
    ensures StopScript(x + y)
    decreases 4 - done
  {
    FirstCommand(Stopping(done), y);
    hide Switched, SwitchedSoFar, StopScript, Finishes;
    SwitchedOneMore(false, x, y[0].ok);
    var z := x + [y[0]];
    assert y[0] == Exchange(SwitchOf(false, done), y[0].ok);
    assert x + y == z + y[1..];
    if !y[0].ok {
      FailureFinishes(false, x, y);
    } else if done < 3 {
      StopFinishes(done + 1, z, y[1..]);
    } else {
      SwitchedAll(false, z);
      StopIsScript(z, y[1..]);
    }
  }

  lemma StopIsScript(x: seq<Exchange>, y: seq<Exchange>)
    requires Switched(false, x, true) && Finishes(Calling(Summarising), y)
    ensures StopScript(x + y)
  {
    hide Switched, Finishes;
    SummaryFinishes(y);
    assert (x + y)[..|x + y| - 2] == x && (x + y)[|x + y| - 1..] == y[1..];
  }

  lemma SummaryFinishes(y: seq<Exchange>)
    requires Finishes(Calling(Summarising), y)
    ensures |y| == 2 && y[0].request.PeerCounts? && IsShutdown(y[1..])
  {
    FirstCommand(Summarising, y);
    FirstCommand(ShuttingDown, y[1..]);
  }

  // ---------------------------------------------------------------- single events

  lemma {:induction false} DialsFinish(addresses: seq<string>, y: seq<Exchange>)
    requires addresses != [] && Finishes(Calling(Dialing(addresses)), y)
    ensures |y| == |addresses|
    ensures forall k :: 0 <= k < |y| ==> y[k].request == Dial(addresses[k])
    decreases |addresses|
  {
    if |addresses| > 1 {
      DialsFinish(addresses[1..], y[1..]);
      forall k | 0 <= k < |y| ensures y[k].request == Dial(addresses[k]) {
        if k > 0 {
          assert y[k] == y[1..][k - 1] && addresses[k] == addresses[1..][k - 1];
        }
      }
    }
  }

  lemma ShutdownFinishes(y: seq<Exchange>)
    requires Finishes(Calling(ShuttingDown), y)
    ensures IsShutdown(y)
  {
  }

  lemma OutputFinishes(world: World, core: Core, output: WorkerOutput, encrypted: bool, y: seq<Exchange>)
    requires Finishes(
      if output.result.Answer? && !encrypted then Calling(ShuttingDown) else Calling(PublishingOutcome(output)), y)
    ensures Script(world, core, Output(output, encrypted), y)
  {
    var event := Output(output, encrypted);
    if output.result.Answer? && !encrypted {
      ClosedIsScript(world, core, event, [], true, y);
      assert [] + y == y;
      return;
    }
    FirstCommand(PublishingOutcome(output), y);
    if y[0].ok {
      assert y == [y[0]];
      HandledIsScript(world, core, event, y);
      return;
    }
    FirstCommand(PublishingNotice(output), y[1..]);
    if y[1].ok {
      assert y == [y[0], y[1]];
      HandledIsScript(world, core, event, y);
    } else {
      assert y[1..][1..] == y[2..] && y[..2] == [y[0], y[1]];
      ShutdownFinishes(y[2..]);
      ClosedIsScript(world, core, event, y[..2], true, y[2..]);
      assert y[..2] + y[2..] == y;
    }
  }

  lemma MessageCommands(core: Core, message: GossipMessage, decision: Decision, phase: NodePhase, y: seq<Exchange>)
    requires Finishes(phase, y)
    requires match decision
      case Validate(verdict) => phase == Calling(Validating(message, verdict))
      case AnswerPing(uuid) => phase == Calling(Ponging(message, uuid, |core.pendingSingle|, |core.pendingBatch|))
      case Admit(input) => phase == SendingTask(input, message)
      case Crash => phase == Gone
    ensures MessageScript(core, message, decision, y)
  {
    if phase.Calling? {
      FirstCommand(phase.goal, y);
      if decision.AnswerPing? {
        FirstCommand(After(phase.goal, y[0].ok).goal, y[1..]);
      }
    }
  }

  lemma MessageFinishes(setup: Setup, s: State, moment: Moment, y: seq<Exchange>)
    requires s.messages != [] && Finishes(TakeMessageStep(setup, s, moment).phase, y)
    ensures Script(setup.world, s.core, Received(s.messages[0], moment), y)
  {
    hide Decide, InFlightId, Hangup;
    MessageCommands(s.core, s.messages[0], Decide(setup.world, s.core.rpc, s.messages[0], moment),
                    TakeMessageStep(setup, s, moment).phase, y);
    HandledIsScript(setup.world, s.core, Received(s.messages[0], moment), y);
  }

  lemma EndFinishes(world: World, core: Core, event: Incoming, y: seq<Exchange>)
    requires EndsLoop(event) && Finishes(Calling(Stopping(0)), y)
    ensures Script(world, core, event, y)
  {
    StopFinishes(0, [], y);
    assert [] + y == y;
    ClosedIsScript(world, core, event, [], false, y);
  }

  lemma OtherFinishes(setup: Setup, s: State, a: Action, y: seq<Exchange>)
    requires Enabled(setup, s, a) && (a.TakeRequest? || a.TickDiagnostic? || a.TickRefresh?)
    requires Finishes(Apply(setup, s, a).phase, y)
    ensures Script(setup.world, s.core, EventOf(s, a)[0], y)
  {
    if a.TickRefresh? && a.addresses != [] {
      DialsFinish(a.addresses, y);
    }
    HandledIsScript(setup.world, s.core, EventOf(s, a)[0], y);
  }

  /** Whatever an event makes the node do next, it sends the commands of that event. */
  lemma EventFinishes(setup: Setup, s: State, a: Action, y: seq<Exchange>)
    requires Enabled(setup, s, a) && EventOf(s, a) != [] && Finishes(Apply(setup, s, a).phase, y)
    ensures Script(setup.world, s.core, EventOf(s, a)[0], y)
  {
    hide Script, TakeMessageStep, Finishes;
    match a
    case TakeOutput(encrypted) => OutputFinishes(setup.world, s.core, s.outputs[0], encrypted, y);
    case TakeMessage(moment) => MessageFinishes(setup, s, moment, y);
    case ChannelLost => EndFinishes(setup.world, s.core, ChannelClosed, y);
    case Cancel => EndFinishes(setup.world, s.core, Cancelled, y);
    case _ => OtherFinishes(setup, s, a, y);
  }

  // ---------------------------------------------------------------- runs

  /** Where the node goes on, once it has taken the reply that may be waiting for it. */
  function Ahead(s: State): NodePhase {
    if s.phase.Awaiting? && s.reply.Some? then After(s.phase.goal, s.reply.value.ok) else s.phase
  }

  /** However the commands still to come turn out, the log will follow from the events. */
  ghost predicate LogInv(world: World, core: Core, events: seq<Incoming>, s: State) {
    forall y :: Finishes(Ahead(s), y) ==> Logged(world, core, events, Log(s.client.replies) + y)
  }

  lemma ServeKeepsLog(setup: Setup, s: State, ok: bool, core: Core, events: seq<Incoming>)
    requires RpcInv(setup, s) && C.Enabled(s.client, C.Serve(ok)) && LogInv(setup.world, core, events, s)
    ensures LogInv(setup.world, core, events, ServeStep(s, ok))
  {
    hide Logged;
    var s' := ServeStep(s, ok);
    forall y | Finishes(Ahead(s'), y)
      ensures Logged(setup.world, core, events, Log(s'.client.replies) + y)
    {
      var x := Exchange(RequestOf(s.phase.goal), ok);
      assert ([x] + y)[1..] == y;
      assert Finishes(Ahead(s), [x] + y);
      assert Log(s'.client.replies) + y == Log(s.client.replies) + ([x] + y);
    }
  }

  /** Steps that leave the commands to come and the log as they are. */
  lemma QuietKeepsLog(world: World, core: Core, events: seq<Incoming>, s: State, s': State)
    requires LogInv(world, core, events, s) && s'.client.replies == s.client.replies
    requires forall y :: Finishes(Ahead(s'), y) ==> Finishes(Ahead(s), y)
    ensures LogInv(world, core, events, s')
  {
    hide Finishes, Logged, Ahead;
  }

  lemma EventKeepsLog(setup: Setup, s: State, a: Action, core: Core, events: seq<Incoming>, s': State)
    requires Enabled(setup, s, a) && EventOf(s, a) != [] && s' == Apply(setup, s, a)
    requires s.phase.LoopHead? && s.reply.None? && !s'.phase.Awaiting? && s'.client.replies == s.client.replies
    requires s.core == KeptAfter(setup.world, core, events) && LogInv(setup.world, core, events, s)
    ensures LogInv(setup.world, core, events + EventOf(s, a), s')
  {
    var log, event := Log(s.client.replies), EventOf(s, a);
    hide Logged, Script, KeptAfter, Enabled, Apply;
    assert log + [] == log && Finishes(Ahead(s), []);
    forall y | Finishes(Ahead(s'), y)
      ensures Logged(setup.world, core, events + event, log + y)
    {
      EventFinishes(setup, s, a, y);
      LogOneMore(setup.world, core, events, log, event[0], y);
      assert [event[0]] == event;
    }
  }

  /** The steps that neither take up an event nor serve a command. */
  predicate IsQuiet(a: Action) {
    || a.SendTask? || a.Call? || a.TakeReply? || a.See? || a.Forward? || a.ClientReturn? || a.WorkerStep?
  }

  lemma SendTaskFrame(setup: Setup, s: State)
    requires Enabled(setup, s, SendTask) && s.reply.None?
    ensures Apply(setup, s, SendTask).client.replies == s.client.replies
    ensures forall y :: Finishes(Ahead(Apply(setup, s, SendTask)), y) ==> Finishes(Ahead(s), y)
  {
    hide W.Apply, W.Enabled;
    forall y | Finishes(Calling(Validating(s.phase.message, Accept)), y) ensures Finishes(s.phase, y) {
      FirstCommand(Validating(s.phase.message, Accept), y);
    }
  }

  lemma CallFrame(goal: Goal, tag: nat)
    ensures forall y :: Finishes(Awaiting(goal, tag), y) ==> Finishes(Calling(goal), y)
  {
  }

  lemma QuietFrame(setup: Setup, s: State, a: Action)
    requires RpcInv(setup, s) && Enabled(setup, s, a) && IsQuiet(a)
    ensures Apply(setup, s, a).client.replies == s.client.replies
    ensures forall y :: Finishes(Ahead(Apply(setup, s, a)), y) ==> Finishes(Ahead(s), y)
  {
    hide W.Apply, W.Enabled, Finishes;
    if a.SendTask? {
      SendTaskFrame(setup, s);
    } else if a.Call? {
      CallFrame(s.phase.goal, s.nextTag);
    }
  }

  lemma EventFrame(setup: Setup, s: State, a: Action)
    requires RpcInv(setup, s) && Enabled(setup, s, a) && EventOf(s, a) != []
    ensures s.phase.LoopHead? && s.reply.None?
    ensures !Apply(setup, s, a).phase.Awaiting? && Apply(setup, s, a).client.replies == s.client.replies
  {
    hide Decide, InFlightId, W.Apply, W.Enabled;
  }

  lemma StepKeepsLog(setup: Setup, s: State, a: Action, core: Core, events: seq<Incoming>)
    requires SystemInv(setup, s) && Enabled(setup, s, a)
    requires s.core == KeptAfter(setup.world, core, events) && LogInv(setup.world, core, events, s)
    ensures LogInv(setup.world, core, events + EventOf(s, a), Apply(setup, s, a))
  {
    hide RpcInv, WorkerInv, QueueInv, PublishInv, CountInv, PendingInv, ProvenanceInv, WireInv, DeliveryInv, ReentryInv,
         LogInv, Finishes, TakeMessageStep, TakeReplyStep, WorkerStepOf, C.Apply, C.Enabled, W.Apply, W.Enabled,
         KeptAfter, Ahead;
    assert events + [] == events;
    if EventOf(s, a) != [] {
      EventFrame(setup, s, a);
      EventKeepsLog(setup, s, a, core, events, Apply(setup, s, a));
    } else if a.Serve? {
      ServeKeepsLog(setup, s, a.ok, core, events);
    } else if a.SendTaskFails? {
      SendFailsNever(setup, s, true);
    } else if a.CallFails? {
      CallFailsNever(setup, s);
    } else {
      QuietFrame(setup, s, a);
      QuietKeepsLog(setup.world, core, events, s, Apply(setup, s, a));
    }
  }

  lemma InitLog(setup: Setup, s: State)
    requires exists rpc :: s == Init(setup, rpc)
    ensures LogInv(setup.world, s.core, [], s)
  {
    hide Finishes, StartScript, WorkerExists;
    forall y | Finishes(Ahead(s), y) ensures Logged(setup.world, s.core, [], Log(s.client.replies) + y) {
      StartFinishes(0, [], y);
      assert Log(s.client.replies) == [];
    }
  }

  lemma {:induction false} RunKeepsLog(setup: Setup, states: seq<State>, actions: seq<Action>, i: nat)
    requires IsRun(setup, states, actions) && i <= |actions|
    ensures LogInv(setup.world, states[0].core, EventsOf(setup, states, actions, i), states[i])
    decreases i
  {
    if i == 0 {
      InitLog(setup, states[0]);
    } else {
      hide IsRun, Enabled, Apply, LogInv, EventOf;
      RunKeepsLog(setup, states, actions, i - 1);
      StepOfLog(setup, states, actions, i, EventsOf(setup, states, actions, i - 1));
    }
  }

  lemma EventsGrow(setup: Setup, states: seq<State>, actions: seq<Action>, i: nat)
    requires IsRun(setup, states, actions) && 0 < i <= |actions| && Enabled(setup, states[i - 1], actions[i - 1])
    ensures EventsOf(setup, states, actions, i)
         == EventsOf(setup, states, actions, i - 1) + EventOf(states[i - 1], actions[i - 1])
  {
    hide IsRun, Enabled, Apply, EventOf;
  }

  lemma StepOfLog(setup: Setup, states: seq<State>, actions: seq<Action>, i: nat, events: seq<Incoming>)
    requires IsRun(setup, states, actions) && 0 < i <= |actions| && |states| == |actions| + 1
    requires events == EventsOf(setup, states, actions, i - 1)
    requires LogInv(setup.world, states[0].core, events, states[i - 1])
    ensures LogInv(setup.world, states[0].core, EventsOf(setup, states, actions, i), states[i])
  {
    hide IsRun, IsStep, Enabled, Apply, LogInv, Agrees, SystemInv, KeptAfter, EventOf, Logged;
    StepOfRun(setup, states, actions, i);
    EventsGrow(setup, states, actions, i);
    NodeFollowsEvents(setup, states, actions, i - 1);
    RunKeepsInv(setup, states, actions, i - 1);
    AgreesOnCore(setup.world, states[0].core, events, states[i - 1]);
    StepKeepsLog(setup, states[i - 1], actions[i - 1], states[0].core, events);
  }

  lemma AgreesOnCore(world: World, core: Core, events: seq<Incoming>, s: State)
    requires Agrees(world, core, events, s)
    ensures s.core == KeptAfter(world, core, events)
  {
  }

  /**
   In every run, whenever the node waits for an event or is gone, the log of its commands is that of
   start-up and then, event by event, the commands of each, with nothing left out, added, exchanged
   or altered. At any other time some commands still to come make it so, the next being the one in
   hand.
   */
  lemma CommandsFollowEvents(setup: Setup, states: seq<State>, actions: seq<Action>, i: nat) returns (y: seq<Exchange>)
    requires IsRun(setup, states, actions) && i <= |actions|
    ensures Finishes(Ahead(states[i]), y)
    ensures Logged(setup.world, states[0].core, EventsOf(setup, states, actions, i), Log(states[i].client.replies) + y)
    ensures states[i].phase.LoopHead? || states[i].phase.Gone? ==> y == []
  {
    RunKeepsLog(setup, states, actions, i);
    hide IsRun, Logged;
    y := CanFinish(Ahead(states[i]));
  }

  /**
   In every run each message that did not make the node crash is validated once, in the order in which
   the node took them up, with its id, the peer it came through and the verdict of its own decision;
   the last one at the latest by the commands `y` that are still to come.
   */
  lemma EachMessageIsValidated(setup: Setup, states: seq<State>, actions: seq<Action>, i: nat)
    returns (y: seq<Exchange>)
    requires IsRun(setup, states, actions) && i <= |actions|
    ensures Finishes(Ahead(states[i]), y)
    ensures AllValidated(Judged(setup.world, states[0].core, EventsOf(setup, states, actions, i)),
                         Validations(Log(states[i].client.replies) + y))
    ensures states[i].phase.LoopHead? || states[i].phase.Gone? ==> y == []
  {
    y := CommandsFollowEvents(setup, states, actions, i);
    hide IsRun, Logged, AllValidated;
    LogValidates(setup.world, states[0].core, EventsOf(setup, states, actions, i), Log(states[i].client.replies) + y);
  }

  lemma OpenMeansNoShutdown(c: C.Client)
    requires C.Inv(c) && !c.closed
    ensures forall k :: 0 <= k < |c.replies| ==> !Log(c.replies)[k].request.Shutdown?
  {
  }

  lemma LoopHeadIsOpen(setup: Setup, s: State)
    requires SystemInv(setup, s) && s.phase.LoopHead?
    ensures C.Inv(s.client) && !s.client.closed
  {
    hide C.Inv, WorkerInv, QueueInv, PendingInv, ProvenanceInv, PublishInv, CountInv, WireInv, DeliveryInv, ReentryInv;
  }

  /** While the node is in its loop no Shutdown has been answered: nothing has ended the loop or failed for good. */
  lemma NoShutdownAtLoopHead(setup: Setup, states: seq<State>, actions: seq<Action>, i: nat)
    requires IsRun(setup, states, actions) && i < |states| && states[i].phase.LoopHead?
    ensures forall k :: 0 <= k < |states[i].client.replies| ==> !Log(states[i].client.replies)[k].request.Shutdown?
  {
    hide *;
    RunKeepsInv(setup, states, actions, i);
    LoopHeadIsOpen(setup, states[i]);
    OpenMeansNoShutdown(states[i].client);
  }
}

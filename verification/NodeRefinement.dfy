/** The node as a class and the node as a process of the system agree, event by event. */
module NodeRefinement {
  import opened Network
  import opened Handlers
  import opened NodeEvents
  import opened System
  import opened SystemSafety
  import opened SystemRuns
  import T = SystemTheorems
  import C = ClientProcess
  import W = WorkerProcess

  /** The event of the `select!` that a step of the node takes up. */
  function EventOf(s: State, a: Action): seq<Incoming>
    requires (a.TakeOutput? ==> s.outputs != []) && (a.TakeMessage? ==> s.messages != []) &&
      (a.TakeRequest? ==> s.requests != [])
  {
    match a
    case TakeOutput(encrypted) => [Output(s.outputs[0], encrypted)]
    case TakeMessage(moment) => [Received(s.messages[0], moment)]
    case TakeRequest(isSpec) => [Asked(s.requests[0], isSpec)]
    case TickDiagnostic => [Diagnostic]
    case TickRefresh(peers, addresses) => [Refreshed(peers, addresses)]
    case ChannelLost => [ChannelClosed]
    case Cancel => [Cancelled]
    case _ => []
  }

  /** The events of the first i steps of a run. */
  ghost function EventsOf(setup: Setup, states: seq<State>, actions: seq<Action>, i: nat): seq<Incoming>
    requires IsRun(setup, states, actions) && i <= |actions|
  {
    if i == 0 then []
    else
      assert IsStep(setup, states, actions, i - 1);
      EventsOf(setup, states, actions, i - 1) + EventOf(states[i - 1], actions[i - 1])
  }

  /** The part of a state the events determine. */
  ghost predicate Agrees(world: World, core: Core, events: seq<Incoming>, s: State) {
    && s.core == KeptAfter(world, core, events)
    && AdmittedInputs(s.history.admitted) == AllAdmitted(world, core, events)
    && s.history.completed == Outputs(events)
  }

  lemma TakeMessageAgrees(setup: Setup, s: State, moment: Moment, core: Core, events: seq<Incoming>)
    requires s.messages != [] && Agrees(setup.world, core, events, s)
    ensures Agrees(setup.world, core, events + [Received(s.messages[0], moment)], TakeMessageStep(setup, s, moment))
  {
    hide Decide, InFlightId, Hangup, KeptAfter, AllAdmitted, Outputs;
    OneMore(setup.world, core, events, Received(s.messages[0], moment));
  }

  lemma EventAgrees(setup: Setup, s: State, a: Action, core: Core, events: seq<Incoming>)
    requires Enabled(setup, s, a) && !a.TakeMessage? && Agrees(setup.world, core, events, s)
    ensures Agrees(setup.world, core, events + EventOf(s, a), Apply(setup, s, a))
  {
    hide W.Apply, W.Enabled, C.Apply, C.Enabled, Hangup, KeptAfter, AllAdmitted, Outputs;
    if EventOf(s, a) == [] {
      assert events + [] == events;
    } else {
      OneMore(setup.world, core, events, EventOf(s, a)[0]);
    }
  }

  lemma StepAgrees(setup: Setup, s: State, a: Action, core: Core, events: seq<Incoming>)
    requires Enabled(setup, s, a) && Agrees(setup.world, core, events, s)
    ensures Agrees(setup.world, core, events + EventOf(s, a), Apply(setup, s, a))
  {
    hide Agrees, TakeMessageStep;
    if a.TakeMessage? {
      TakeMessageAgrees(setup, s, a.moment, core, events);
    } else {
      EventAgrees(setup, s, a, core, events);
    }
  }

  /**
   In every run of the system the node keeps, admits and completes exactly what the class does on
   the same events, and at every loop head it has published what the class publishes.
   */
  lemma {:induction false} NodeFollowsEvents(setup: Setup, states: seq<State>, actions: seq<Action>, i: nat)
    requires IsRun(setup, states, actions) && i <= |actions|
    ensures Agrees(setup.world, states[0].core, EventsOf(setup, states, actions, i), states[i])
    ensures states[i].phase.LoopHead? ==>
      OnTheWire(states[i].client.replies) == Outputs(EventsOf(setup, states, actions, i))
    decreases i
  {
    hide Enabled, Apply, Agrees, OnTheWire;
    if i == 0 {
      StartAgrees(setup, states, actions);
    } else {
      NodeFollowsEvents(setup, states, actions, i - 1);
      assert IsStep(setup, states, actions, i - 1);
      StepAgrees(setup, states[i - 1], actions[i - 1], states[0].core, EventsOf(setup, states, actions, i - 1));
    }
    if states[i].phase.LoopHead? {
      WireAgrees(setup, states, actions, i, EventsOf(setup, states, actions, i));
    }
  }

  lemma StartAgrees(setup: Setup, states: seq<State>, actions: seq<Action>)
    requires IsRun(setup, states, actions)
    ensures Agrees(setup.world, states[0].core, [], states[0])
  {
  }

  lemma WireAgrees(setup: Setup, states: seq<State>, actions: seq<Action>, i: nat, events: seq<Incoming>)
    requires IsRun(setup, states, actions) && i < |states| && states[i].phase.LoopHead?
    requires Agrees(setup.world, states[0].core, events, states[i])
    ensures OnTheWire(states[i].client.replies) == Outputs(events)
  {
    hide IsRun, OnTheWire, KeptAfter, AllAdmitted, Outputs;
    T.PublishedExactlyOnce(setup, states, actions, i);
  }

  /** The arm of the `select!` for this event could win: the clock's arms and the cancellation always can. */
  predicate IsReady(setup: Setup, s: State, event: Incoming) {
    match event
    case Output(output, _) => s.outputs != [] && s.outputs[0] == output
    case Received(message, _) => s.messages != [] && s.messages[0] == message
    case Asked(request, _) => s.requests != [] && s.requests[0] == request
    case ChannelClosed => setup.world.models == []
    case _ => true
  }

  /**
   In every reachable state the node can take up an event exactly if it is at its loop head and the event
   is the first in its channel or comes from outside; a closed channel is found exactly without models.
   */
  lemma LoopTakesExactly(setup: Setup, states: seq<State>, actions: seq<Action>, i: nat, event: Incoming)
    requires IsRun(setup, states, actions) && i < |states|
    ensures (exists a :: Enabled(setup, states[i], a) && EventOf(states[i], a) == [event]) <==>
      states[i].phase.LoopHead? && IsReady(setup, states[i], event)
  {
    T.ChannelsStayOpen(setup, states, actions, i);
    hide IsRun, W.Enabled, C.Enabled, PublisherLives;
    var s := states[i];
    if s.phase.LoopHead? && IsReady(setup, s, event) {
      var a := ArmOf(event);
      assert Enabled(setup, s, a) && EventOf(s, a) == [event];
    }
  }

  function ArmOf(event: Incoming): Action {
    match event
    case Output(_, encrypted) => TakeOutput(encrypted)
    case Diagnostic => TickDiagnostic
    case Refreshed(peers, addresses) => TickRefresh(peers, addresses)
    case Received(_, moment) => TakeMessage(moment)
    case Asked(_, isSpec) => TakeRequest(isSpec)
    case ChannelClosed => ChannelLost
    case Cancelled => Cancel
  }

  /** The counters count the outputs that were taken up, each those of its kind. */
  lemma {:induction false} CountersCountOutputs(world: World, core: Core, events: seq<Incoming>, batchable: bool)
    ensures KeptAfter(world, core, events).Completed(batchable)
         == core.Completed(batchable) + |OutputsOfKind(Outputs(events), batchable)|
    ensures
      var core' := KeptAfter(world, core, events);
      core'.completedSingle + core'.completedBatch == core.completedSingle + core.completedBatch + |Outputs(events)|
    decreases |events|
  {
    hide Decide;
    if events != [] {
      var front, last := events[..|events| - 1], events[|events| - 1];
      CountersCountOutputs(world, core, front, batchable);
      if last.Output? {
        OutputsOfKindAppend(Outputs(front), last.output, batchable);
      } else {
        assert Outputs(events) == Outputs(front);
      }
    }
  }

  ghost function RefreshedPeers(events: seq<Incoming>): set<PeerId> {
    set e, p | e in events && e.Refreshed? && p in e.peers :: p
  }

  /** The RPC nodes that are known are those known at first and all that a refresh brought: none is forgotten. */
  lemma {:induction false} KnownPeers(world: World, core: Core, events: seq<Incoming>)
    ensures KeptAfter(world, core, events).rpc == core.rpc + RefreshedPeers(events)
    decreases |events|
  {
    hide Decide;
    if events != [] {
      var front, last := events[..|events| - 1], events[|events| - 1];
      KnownPeers(world, core, front);
      assert events == front + [last];
      assert RefreshedPeers(events) == RefreshedPeers(front) + if last.Refreshed? then last.peers else {};
    }
  }
}

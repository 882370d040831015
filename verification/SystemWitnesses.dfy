/** Runs at whose end something goes wrong: the pending counts, or the node itself. */
module SystemWitnesses {
  import opened Wrappers
  import opened Network
  import opened Tasks
  import opened Handlers
  import opened System
  import opened SystemSafety
  import opened SystemAccounting
  import opened SystemRuns
  import opened SystemTheorems
  import opened SystemProgress
  import opened SystemDeadlocks
  import Message
  import Rfc4648
  import W = WorkerProcess
  import WT = WorkerTheorems

  lemma ReachableInv(setup: Setup, rpc: set<PeerId>, s: State)
    requires Reachable(setup, rpc, s)
    ensures SystemInv(setup, s)
  {
    hide SystemInv, Enabled, Apply, Init;
    var states, actions :| IsRun(setup, states, actions) && states[0] == Init(setup, rpc) && states[|actions|] == s;
    RunKeepsInv(setup, states, actions, |actions|);
  }

  // ---------------------------------------------------------------- the pending counts

  lemma QueuedIsInFlight(setup: Setup, s: State, w: W.Worker, input: WorkerInput)
    requires SystemInv(setup, s) && s.phase.LoopHead?
    requires s.Worker(input.batchable) == Some(w) && input in w.queue
    ensures InFlightId(s.history, input.batchable, input.taskId)
  {
    hide WorkerInv, QueueInv, RpcInv, PendingInv, ProvenanceInv, Outstanding, OutputsOfKind;
    var b := input.batchable;
    OutstandingIsInFlight(setup, s, b);
    var i :| 0 <= i < |w.queue| && w.queue[i] == input;
    assert InputTags(w.queue)[i] == input.Tag();
    assert input.Tag() in WT.Owed(w);
    assert input.Tag() in InFlight(s, b);
    assert input.Tag() in multiset(InFlight(s, b));
  }

  /** The same message once more, while its task is still queued. */
  lemma ComesAgain(setup: Setup, rpc: set<PeerId>, s: State, w: W.Worker, message: GossipMessage, moment: Moment,
                   input: WorkerInput) returns (s': State)
    requires AtHead(setup, rpc, s, input.batchable, w, 0) && Admits(setup, rpc, message, moment, input)
    requires input in w.queue
    ensures Reachable(setup, rpc, s') && !CountsAgree(s', input.batchable)
  {
    hide Reachable, Decide, SystemInv, CountsAgree, InFlightId, TakeMessageStep;
    var s1 := Delivers(setup, rpc, s, message);
    ReachableInv(setup, rpc, s1);
    QueuedIsInFlight(setup, s1, w, input);
    ReentryBreaksCount(setup, s1, moment, input);
    StepIsReachable(setup, rpc, s1, TakeMessage(moment));
    s' := Apply(setup, s1, TakeMessage(moment));
  }

  /** An idle worker takes the task into its queue. */
  lemma IsQueued(setup: Setup, rpc: set<PeerId>, s: State, w: W.Worker, input: WorkerInput)
    requires AtHead(setup, rpc, s, input.batchable, w, 0) && Idle(w)
    ensures W.Enabled(w, W.Accept(input)) && input in W.Apply(w, W.Accept(input)).queue
  {
    AtHeadWorker(setup, rpc, s, input.batchable, w, 0);
    hide AtHead;
  }

  /**
   Whatever the capacities, if some message can be admitted then a run leads from start-up into a state
   that reports too few pending tasks: the message comes a second time before its task is done.
   */
  lemma WrongCountIsReachable(setup: Setup, rpc: set<PeerId>, message: GossipMessage, moment: Moment) returns (s: State)
    requires setup.sizes.Valid() && Decide(setup.world, rpc, message, moment).Admit?
    ensures Reachable(setup, rpc, s)
    ensures !CountsAgree(s, Decide(setup.world, rpc, message, moment).input.batchable)
  {
    var input := Decide(setup.world, rpc, message, moment).input;
    assert Admits(setup, rpc, message, moment, input);
    AdmittedIsWarranted(setup.world, rpc, message, moment, input);
    hide *;
    var w: W.Worker;
    s, w := StartsAtHead(setup, rpc, input.batchable);
    IsQueued(setup, rpc, s, w, input);
    s := Feeds(setup, rpc, s, w, 0, message, moment, input);
    s := ComesAgain(setup, rpc, s, W.Apply(w, W.Accept(input)), message, moment, input);
  }

  // ---------------------------------------------------------------- the node itself

  /** Any malformed message of a known RPC node ends the node, straight from its loop. */
  lemma CrashIsReachable(setup: Setup, rpc: set<PeerId>, message: GossipMessage, moment: Moment)
    returns (before: State, after: State)
    requires setup.sizes.Valid() && Malformed(setup.world, rpc, message, moment.now)
    ensures Reachable(setup, rpc, before) && before.phase.LoopHead? && before.messages == [message]
    ensures Reachable(setup, rpc, after) && after.phase.Gone? && after == TakeMessageStep(setup, before, moment)
  {
    CrashesExactly(setup.world, rpc, message, moment);
    hide Reachable, Decide, Malformed, WorkerExists, Hangup;
    before := StartsUp(setup, rpc);
    before := Delivers(setup, rpc, before, message);
    StepIsReachable(setup, rpc, before, TakeMessage(moment));
    after := Apply(setup, before, TakeMessage(moment));
  }

  /** A message of a known RPC node that needs neither signature nor body: its payload is too short. */
  lemma ShortPayloadIsMalformed(world: World, rpc: set<PeerId>, message: GossipMessage, data: seq<Byte>, topic: string,
                                time: nat, now: nat)
    requires FromKnown(rpc, message)
    requires world.parseMessage(message.data) == Some(Message.New(data, topic, time))
    requires |data| < Message.SIGNATURE_SIZE_HEX
    ensures Malformed(world, rpc, message, now)
  {
    hide BreaksFilter, Rfc4648.Encode;
  }

  /** A correctly signed, open task with an empty filter, given that the filter library panics on that. */
  lemma EmptyFilterIsMalformed(world: World, rpc: set<PeerId>, message: GossipMessage, m: Message.DriaMessage,
                               body: seq<Byte>, request: TaskRequest, now: nat)
    requires Authentic(world, rpc, message, m, body) && m.topic == TASK_TOPIC
    requires world.parseTask(body) == Some(request)
    requires now < request.deadline && request.filter == TaskFilter([], 0)
    requires world.bloom([], 0, world.address).None?
    ensures Malformed(world, rpc, message, now)
  {
    hide Message.Vouches;
  }

  /** So an unsigned message with an empty payload, from a known RPC node, ends the node. */
  lemma EmptyPayloadEndsNode(setup: Setup, rpc: set<PeerId>, peer: PeerId, id: MessageId, data: seq<Byte>,
                             moment: Moment) returns (s: State)
    requires setup.sizes.Valid() && peer in rpc
    requires setup.world.parseMessage(data) == Some(Message.New([], TASK_TOPIC, 0))
    ensures Reachable(setup, rpc, s) && s.phase.Gone?
  {
    var message := GossipMessage(id, peer, Some(peer), TASK_TOPIC, data);
    ShortPayloadIsMalformed(setup.world, rpc, message, [], TASK_TOPIC, 0, moment.now);
    hide Malformed, Reachable, TakeMessageStep;
    var before: State;
    before, s := CrashIsReachable(setup, rpc, message, moment);
  }
}

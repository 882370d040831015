/** When the system can go on, when it is stuck, and how it winds down. */
module SystemProgress {
  import opened Wrappers
  import opened Network
  import opened Tasks
  import opened Handlers
  import opened System
  import opened SystemSafety
  import opened SystemAccounting
  import opened SystemRuns
  import opened SystemTheorems
  import C = ClientProcess
  import W = WorkerProcess
  import WT = WorkerTheorems

  /** Steps the components take by themselves; the others are up to the swarm, the timers and the user. */
  predicate Internal(a: Action) {
    !a.See? && !a.TickDiagnostic? && !a.TickRefresh? && !a.Cancel?
  }

  predicate InHandler(s: State) {
    !s.phase.LoopHead? && !s.phase.Gone?
  }

  ghost predicate Stuck(setup: Setup, s: State) {
    forall a :: Internal(a) ==> !Enabled(setup, s, a)
  }

  // ---------------------------------------------------------------- components at rest

  /** The worker waits for its first task. */
  predicate Idle(w: W.Worker) {
    w.phase == W.Collecting([]) && w.queue == []
  }

  /** Every member of the round is executed and waits to send its output. */
  predicate AllFinished(w: W.Worker) {
    w.phase.Running? && w.phase.members != [] && forall m :: 0 <= m < |w.phase.members| ==> w.phase.members[m].Finished?
  }

  predicate StillWorker(setup: Setup, s: State, batchable: bool) {
    match s.Worker(batchable)
    case None => true
    case Some(w) => Idle(w) || (AllFinished(w) && !CanPublish(setup, s))
  }

  predicate StillClient(setup: Setup, s: State) {
    match s.client.phase
    case Polling => !C.CommandReady(s.client)
    case Forwarding(event) => !CanForward(setup, s, event)
    case Returned => true
  }

  /** While the node lives, a worker without a step is idle or waits for room in the publish channel. */
  lemma WorkerCanStep(setup: Setup, s: State, batchable: bool) returns (step: W.Action)
    requires WorkerInv(setup, s, batchable) && !s.phase.Gone? && !StillWorker(setup, s, batchable)
    ensures Enabled(setup, s, WorkerStep(batchable, step))
  {
    hide W.Inv, W.Enabled;
    WorkerStays(setup, s, batchable);
    step := NextStep(s.Worker(batchable).value);
  }

  /** A worker that is not idle can step, but for handing out when all else is done. */
  lemma NextStep(w: W.Worker) returns (step: W.Action)
    requires W.Inv(w) && !w.phase.Returned? && !Idle(w)
    ensures W.Enabled(w, step) && WT.Own(step)
    ensures step.Hand? ==> AllFinished(w)
  {
    match w.phase
    case Collecting(buffer) => step := W.Collect(1);
    case Sleeping(_) => step := W.Wake;
    case Running(_, members) =>
      hide W.Inv;
      if members == [] {
        step := W.Regroup;
      } else if m :| 0 <= m < |members| && members[m].Executing? {
        step := W.Finish(m, Answer(""));
      } else {
        assert members[0].Finished?;
        step := W.Hand(0);
      }
    case Returned =>
  }

  lemma StillWorkerHasNoStep(setup: Setup, s: State, batchable: bool, step: W.Action)
    requires WorkerInv(setup, s, batchable) && !s.phase.Gone? && StillWorker(setup, s, batchable)
    ensures !Enabled(setup, s, WorkerStep(batchable, step))
  {
  }

  // ---------------------------------------------------------------- stuck states

  /** The node awaits a reply, and the client waits for room in a channel only the node empties. */
  predicate AwaitsBlockedClient(setup: Setup, s: State) {
    s.phase.Awaiting? && s.reply.None? && s.client.phase.Forwarding? && !CanForward(setup, s, s.client.phase.event)
  }

  /** The node feeds a full worker, and the worker waits for room in the channel only the node empties. */
  predicate FeedsBlockedWorker(setup: Setup, s: State) {
    && s.phase.SendingTask?
    && !CanPublish(setup, s)
    && s.Worker(s.phase.input.batchable).Some?
    && var w := s.Worker(s.phase.input.batchable).value;
       |w.queue| == w.capacity && AllFinished(w)
  }

  predicate Blocked(setup: Setup, s: State) {
    AwaitsBlockedClient(setup, s) || FeedsBlockedWorker(setup, s)
  }

  /** What progress depends on. */
  ghost predicate Sound(setup: Setup, s: State) {
    && setup.sizes.Valid()
    && RpcInv(setup, s)
    && WorkerInv(setup, s, true)
    && WorkerInv(setup, s, false)
    && QueueInv(setup, s)
  }

  lemma NodeCanStep(setup: Setup, s: State) returns (a: Action)
    requires Sound(setup, s) && InHandler(s)
    requires !Blocked(setup, s) && StillClient(setup, s)
    requires s.phase.SendingTask? ==> StillWorker(setup, s, s.phase.input.batchable)
    ensures Internal(a) && Enabled(setup, s, a)
  {
    hide WorkerInv, QueueInv, W.Enabled, StillWorker;
    match s.phase
    case Calling(_) =>
      CallsSucceed(setup, s);
      a := Call;
    case Awaiting(_, _) => a := TakeReply;
    case SendingTask(input, _) =>
      TaskCanBeSent(setup, s);
      a := SendTask;
  }

  lemma TaskCanBeSent(setup: Setup, s: State)
    requires Sound(setup, s) && s.phase.SendingTask? && !FeedsBlockedWorker(setup, s)
    requires StillWorker(setup, s, s.phase.input.batchable)
    ensures Enabled(setup, s, SendTask)
  {
    var b := s.phase.input.batchable;
    SendsSucceed(setup, s);
    WorkerStays(setup, s, b);
    WorkerIsBounded(setup, s, b);
    hide WorkerInv, RpcInv;
  }

  lemma WorkerIsBounded(setup: Setup, s: State, batchable: bool)
    requires WorkerInv(setup, s, batchable) && s.Worker(batchable).Some?
    ensures |s.Worker(batchable).value.queue| <= s.Worker(batchable).value.capacity == setup.sizes.workflow
  {
  }

  lemma ClientCanStep(setup: Setup, s: State) returns (a: Action)
    requires !StillClient(setup, s)
    ensures Internal(a) && Enabled(setup, s, a)
  {
    a := if s.client.phase.Forwarding? then Forward else if s.client.queue != [] then Serve(true) else ClientReturn;
  }

  lemma SomeStep(setup: Setup, s: State) returns (a: Action)
    requires Sound(setup, s) && InHandler(s)
    requires !Blocked(setup, s) || !StillClient(setup, s)
      || !StillWorker(setup, s, true) || !StillWorker(setup, s, false)
    ensures Internal(a) && Enabled(setup, s, a)
  {
    hide Blocked, StillClient, StillWorker, RpcInv, WorkerInv, QueueInv, Enabled;
    if !StillWorker(setup, s, true) {
      var step := WorkerCanStep(setup, s, true);
      a := WorkerStep(true, step);
    } else if !StillWorker(setup, s, false) {
      var step := WorkerCanStep(setup, s, false);
      a := WorkerStep(false, step);
    } else if !StillClient(setup, s) {
      a := ClientCanStep(setup, s);
    } else {
      a := NodeCanStep(setup, s);
    }
  }

  lemma NoStep(setup: Setup, s: State, a: Action)
    requires Sound(setup, s) && InHandler(s) && Internal(a)
    requires Blocked(setup, s) && StillClient(setup, s) && StillWorker(setup, s, true) && StillWorker(setup, s, false)
    ensures !Enabled(setup, s, a)
  {
    hide StillWorker, W.Inv, WorkerInv;
    match a
    case WorkerStep(b, step) => StillWorkerHasNoStep(setup, s, b, step);
    case SendTaskFails => SendFailsNever(setup, s, true);
    case _ =>
  }

  /**
   Inside a handler the system is stuck exactly if every component waits for another one: the node
   for a reply from a client that waits for room in a channel to the node, or for room in a
   worker's channel while that worker waits for room in the publish channel.
   */
  lemma StuckExactly(setup: Setup, states: seq<State>, actions: seq<Action>, i: nat)
    requires IsRun(setup, states, actions) && i < |states| && InHandler(states[i])
    ensures Stuck(setup, states[i]) <==>
      && Blocked(setup, states[i]) && StillClient(setup, states[i])
      && StillWorker(setup, states[i], true) && StillWorker(setup, states[i], false)
  {
    RunIsSound(setup, states, actions, i);
    hide IsRun, Sound, Blocked, StillClient, StillWorker, Enabled, InHandler, Internal;
    var s := states[i];
    if Blocked(setup, s) && StillClient(setup, s) && StillWorker(setup, s, true) && StillWorker(setup, s, false) {
      forall a | Internal(a) ensures !Enabled(setup, s, a) {
        NoStep(setup, s, a);
      }
    } else {
      var a := SomeStep(setup, s);
    }
  }

  lemma RunIsSound(setup: Setup, states: seq<State>, actions: seq<Action>, i: nat)
    requires IsRun(setup, states, actions) && i < |states|
    ensures Sound(setup, states[i])
  {
    hide IsRun, RpcInv, WorkerInv, QueueInv, PublishInv, CountInv, PendingInv, ProvenanceInv, WireInv, DeliveryInv,
         ReentryInv;
    RunKeepsInv(setup, states, actions, i);
  }

  // ---------------------------------------------------------------- a block is for ever

  lemma WorkerStepKeepsBlock(setup: Setup, s: State, batchable: bool, step: W.Action)
    requires Enabled(setup, s, WorkerStep(batchable, step))
    requires Sound(setup, s) && Blocked(setup, s)
    ensures
      var s' := Apply(setup, s, WorkerStep(batchable, step));
      Blocked(setup, s') && s'.phase == s.phase
  {
    hide W.Inv, RpcInv, WorkerInv, W.Apply;
    if FeedsBlockedWorker(setup, s) && batchable == s.phase.input.batchable {
      StillWorkerHasNoStep(setup, s, batchable, step);
    }
  }

  lemma BlockedNodeHasNoStep(setup: Setup, s: State, a: Action)
    requires Sound(setup, s) && Blocked(setup, s)
    requires !a.WorkerStep? && !a.Forward? && !a.See?
    ensures !Enabled(setup, s, a)
  {
    hide W.Inv, WorkerInv;
    if a.SendTaskFails? {
      SendFailsNever(setup, s, true);
    }
  }

  lemma ClientStepKeepsBlock(setup: Setup, s: State, a: Action)
    requires Sound(setup, s) && Blocked(setup, s) && Enabled(setup, s, a)
    requires a.Forward? || a.See?
    ensures Blocked(setup, Apply(setup, s, a)) && Apply(setup, s, a).phase == s.phase
  {
    hide W.Inv, W.Apply, WorkerInv;
  }

  /** No step of any component, and nothing the swarm, the timers or the user do, ends a block. */
  lemma StepKeepsBlock(setup: Setup, s: State, a: Action)
    requires Sound(setup, s) && Blocked(setup, s) && Enabled(setup, s, a)
    ensures Blocked(setup, Apply(setup, s, a)) && Apply(setup, s, a).phase == s.phase
  {
    match a
    case WorkerStep(b, step) =>
      hide Sound, Blocked, Enabled, WorkerStepOf;
      WorkerStepKeepsBlock(setup, s, b, step);
    case Forward =>
      hide Sound, Enabled;
      ClientStepKeepsBlock(setup, s, a);
    case See(_) =>
      hide Sound, Enabled;
      ClientStepKeepsBlock(setup, s, a);
    case _ =>
      hide Sound;
      BlockedNodeHasNoStep(setup, s, a);
  }

  /** Once blocked, the node stays where it is in every continuation of the run. */
  lemma {:induction false} BlockIsForEver(setup: Setup, states: seq<State>, actions: seq<Action>, i: nat, j: nat)
    requires IsRun(setup, states, actions) && i <= j < |states| == |actions| + 1 && Blocked(setup, states[i])
    ensures Blocked(setup, states[j]) && states[j].phase == states[i].phase
    decreases j - i
  {
    hide *;
    if i < j {
      BlockIsForEver(setup, states, actions, i, j - 1);
      RunIsSound(setup, states, actions, j - 1);
      StepOfRun(setup, states, actions, j);
      StepKeepsBlock(setup, states[j - 1], actions[j - 1]);
    }
  }

  // ---------------------------------------------------------------- room means progress

  lemma FlightOf(s: State, batchable: bool)
    ensures |InFlight(s, batchable)| == |s.Hand(batchable)| + |OutputsOfKind(s.outputs, batchable)|
      + match s.Worker(batchable) case None => 0 case Some(w) => |WT.Owed(w)|
  {
    hide WT.Owed;
  }

  lemma OutputsAreOfTwoKinds(outputs: seq<WorkerOutput>)
    ensures |outputs| == |OutputsOfKind(outputs, true)| + |OutputsOfKind(outputs, false)|
  {
    hide OutputsOfKind;
    KindsSplitOutputs(outputs);
    var all := OutputTags(outputs);
    var batch, single := OutputTags(OutputsOfKind(outputs, true)), OutputTags(OutputsOfKind(outputs, false));
    assert |multiset(all)| == |multiset(batch) + multiset(single)|;
  }

  /** A worker can only be blocked with at least as many tasks in flight as the channels and hands hold. */
  lemma BlockedFeedIsFull(setup: Setup, s: State)
    requires Sound(setup, s) && FeedsBlockedWorker(setup, s)
    ensures |InFlight(s, true)| + |InFlight(s, false)| >= setup.sizes.workflow + setup.sizes.publish + 2
  {
    hide OutputsOfKind, W.Inv, InFlight;
    FlightOf(s, true);
    FlightOf(s, false);
    OutputsAreOfTwoKinds(s.outputs);
    WorkerIsBounded(setup, s, s.phase.input.batchable);
  }

  /**
   With room for a message and for a request, and with fewer tasks in flight than the channels of
   one worker and two hands hold, some component can always step.
   */
  lemma RoomMeansProgress(setup: Setup, states: seq<State>, actions: seq<Action>, i: nat)
    requires IsRun(setup, states, actions) && i < |states| && InHandler(states[i])
    requires |states[i].messages| < setup.sizes.messages && |states[i].requests| < setup.sizes.requests
    requires |InFlight(states[i], true)| + |InFlight(states[i], false)| < setup.sizes.workflow + setup.sizes.publish + 2
    ensures !Stuck(setup, states[i])
  {
    RunIsSound(setup, states, actions, i);
    hide IsRun, WorkerInv, InFlight, Stuck, StillWorker, StillClient;
    StuckExactly(setup, states, actions, i);
    var s := states[i];
    if FeedsBlockedWorker(setup, s) {
      BlockedFeedIsFull(setup, s);
    }
    if AwaitsBlockedClient(setup, s) {
      BlockedClientIsFull(setup, s);
    }
  }

  lemma BlockedClientIsFull(setup: Setup, s: State)
    requires Sound(setup, s) && AwaitsBlockedClient(setup, s)
    ensures |s.messages| == setup.sizes.messages || |s.requests| == setup.sizes.requests
  {
    hide WorkerInv;
  }

  // ---------------------------------------------------------------- handlers finish

  /** How many commands the node can still send before it is back at the loop head or gone. */
  function CommandsLeft(goal: Goal): nat {
    match goal
    case Starting(done) => (if done < 3 then 4 - done else 1) + 1
    case PublishingOutcome(_) => 3
    case PublishingNotice(_) => 2
    case Ponging(_, _, _, _) => 2
    case Validating(_, _) => 1
    case Responding(_) => 1
    case Diagnosing => 1
    case Dialing(addresses) => if addresses == [] then 1 else |addresses|
    case Stopping(done) => (if done < 3 then 4 - done else 1) + 2
    case Summarising => 2
    case ShuttingDown => 1
  }

  /** A command is sent, served and its reply taken. */
  function NodeWork(phase: NodePhase, reply: Option<Reply>): nat {
    match phase
    case LoopHead => 0
    case Gone => 0
    case Calling(goal) => 3 * CommandsLeft(goal)
    case Awaiting(goal, _) => 3 * CommandsLeft(goal) - if reply.None? then 1 else 2
    case SendingTask(_, _) => 10
  }

  function ClientWork(c: C.Client): nat {
    match c.phase
    case Polling => 1
    case Forwarding(_) => 2
    case Returned => 0
  }

  function WorkerWork(w: Option<W.Worker>): nat {
    match w
    case None => 0
    case Some(worker) => WT.Work(worker)
  }

  /** How many internal steps the system can take at most before the node is back at its loop head. */
  function Work(s: State): nat {
    NodeWork(s.phase, s.reply) + ClientWork(s.client) + WorkerWork(s.batch) + WorkerWork(s.single)
  }

  lemma AfterShrinks(goal: Goal, ok: bool)
    ensures NodeWork(After(goal, ok), None) <= 3 * CommandsLeft(goal) - 3
  {
  }

  lemma HangupKeepsWork(w: Option<W.Worker>)
    ensures WorkerWork(Hangup(w)) == WorkerWork(w)
  {
  }

  lemma LeaveShrinksWork(s: State)
    ensures Work(Leave(s)) + NodeWork(s.phase, s.reply) == Work(s)
  {
    HangupKeepsWork(s.batch);
    HangupKeepsWork(s.single);
    hide Hangup, WorkerWork;
  }

  lemma TakeReplyShrinksWork(setup: Setup, s: State)
    requires RpcInv(setup, s) && Enabled(setup, s, TakeReply)
    ensures Work(TakeReplyStep(s)) < Work(s)
  {
    hide WorkerWork, RpcInv, Leave;
    var goal, ok := s.phase.goal, s.reply.value.ok;
    AfterShrinks(goal, ok);
    var h := if ok && Publication(goal).Some?
             then s.history.(published := s.history.published + [Publication(goal).value])
             else s.history;
    LeaveShrinksWork(s.(reply := None, history := h));
    hide CommandsLeft, After;
  }

  lemma SendTaskShrinksWork(setup: Setup, s: State)
    requires Enabled(setup, s, SendTask)
    ensures Work(Apply(setup, s, SendTask)) < Work(s)
  {
  }

  lemma WorkerStepShrinksWork(setup: Setup, s: State, batchable: bool, step: W.Action)
    requires WorkerInv(setup, s, batchable) && Enabled(setup, s, WorkerStep(batchable, step))
    ensures Work(WorkerStepOf(s, batchable, step)) < Work(s)
  {
    hide WT.Work, W.Apply, W.Enabled, W.Inv;
    WT.OwnStepsTerminate(s.Worker(batchable).value, step);
  }

  /** Every internal step brings the node closer to its loop head or, once it is gone, all to their end. */
  lemma InternalStepShrinksWork(setup: Setup, s: State, a: Action)
    requires Sound(setup, s) && !s.phase.LoopHead? && Internal(a) && Enabled(setup, s, a)
    ensures Work(Apply(setup, s, a)) < Work(s)
  {
    hide Work, RpcInv, WorkerInv, QueueInv, TakeReplyStep, WorkerStepOf, TakeMessageStep, TakeOutputStep,
         ServeStep, ForwardStep, Leave, C.Apply, C.Enabled, W.Apply, W.Enabled;
    match a
    case WorkerStep(b, step) => WorkerStepShrinksWork(setup, s, b, step);
    case TakeReply => TakeReplyShrinksWork(setup, s);
    case SendTask => SendTaskShrinksWork(setup, s);
    case SendTaskFails => SendFailsNever(setup, s, true);
    case CallFails => CallFailsNever(setup, s);
    case _ => QuietShrinksWork(setup, s, a);
  }

  lemma QuietShrinksWork(setup: Setup, s: State, a: Action)
    requires RpcInv(setup, s) && Enabled(setup, s, a)
    requires !s.phase.LoopHead? && (a.Call? || a.Serve? || a.Forward? || a.ClientReturn?)
    ensures Work(Apply(setup, s, a)) < Work(s)
  {
    hide WorkerWork;
  }

  /** Away from the loop head only an event of the swarm adds work, and it adds one step at most. */
  lemma StepSpendsWork(setup: Setup, s: State, a: Action)
    requires Sound(setup, s) && !s.phase.LoopHead? && Enabled(setup, s, a)
    ensures Work(Apply(setup, s, a)) + 1 <= Work(s) + Sights([a])
  {
    if a.See? {
      hide Sound, WorkerWork;
    } else {
      hide Sound, Work, Apply, C.Enabled, W.Enabled;
      InternalStepShrinksWork(setup, s, a);
    }
  }

  /** How much the events of the swarm among some steps can add to the work. */
  function Sights(actions: seq<Action>): nat {
    if actions == [] then 0
    else Sights(actions[..|actions| - 1]) + if actions[|actions| - 1].See? then 2 else 0
  }

  lemma OneMoreSight(actions: seq<Action>, i: nat, j: nat)
    requires i < j <= |actions|
    ensures Sights(actions[i..j]) == Sights(actions[i..j - 1]) + Sights([actions[j - 1]])
  {
    assert actions[i..j][..j - 1 - i] == actions[i..j - 1];
  }

  /** The node does not come to its loop head before the j-th state of a run. */
  ghost predicate Away(states: seq<State>, i: nat, j: nat)
    requires j <= |states|
  {
    forall k :: i <= k < j ==> !states[k].phase.LoopHead?
  }

  lemma ShorterAway(states: seq<State>, i: nat, j: nat)
    requires i < j <= |states| && Away(states, i, j)
    ensures Away(states, i, j - 1) && !states[j - 1].phase.LoopHead?
  {
  }

  /**
   A handler does not run for ever: whatever the interleaving, there are no more steps than `Work`
   says, and two for every event of the swarm, before the node is back at its loop head, is gone, or
   nothing can step.
   */
  lemma {:induction false} HandlersFinish(setup: Setup, states: seq<State>, actions: seq<Action>, i: nat, j: nat)
    requires IsRun(setup, states, actions) && i <= j < |states| == |actions| + 1
    requires Away(states, i, j)
    ensures j - i + Work(states[j]) <= Work(states[i]) + Sights(actions[i..j])
    decreases j - i
  {
    hide *;
    if i < j {
      ShorterAway(states, i, j);
      StepOfRun(setup, states, actions, j);
      HandlersFinish(setup, states, actions, i, j - 1);
      RunIsSound(setup, states, actions, j - 1);
      StepSpendsWork(setup, states[j - 1], actions[j - 1]);
      OneMoreSight(actions, i, j);
    }
  }

  // ---------------------------------------------------------------- winding down

  lemma StepKeepsGone(setup: Setup, s: State, a: Action)
    requires Sound(setup, s) && s.phase.Gone? && Enabled(setup, s, a)
    ensures Internal(a) && Apply(setup, s, a).phase.Gone?
  {
    hide W.Apply, W.Enabled, WorkerInv, QueueInv;
  }

  lemma GoneStep(setup: Setup, states: seq<State>, actions: seq<Action>, j: nat)
    requires IsRun(setup, states, actions) && 0 < j < |states| == |actions| + 1 && states[j - 1].phase.Gone?
    ensures states[j].phase.Gone? && Internal(actions[j - 1])
  {
    hide *;
    RunIsSound(setup, states, actions, j - 1);
    StepOfRun(setup, states, actions, j);
    StepKeepsGone(setup, states[j - 1], actions[j - 1]);
  }

  lemma {:induction false} GoneStaysGone(setup: Setup, states: seq<State>, actions: seq<Action>, i: nat, j: nat)
    requires IsRun(setup, states, actions) && i <= j < |states| == |actions| + 1 && states[i].phase.Gone?
    ensures states[j].phase.Gone?
    decreases j - i
  {
    hide *;
    if i < j {
      GoneStaysGone(setup, states, actions, i, j - 1);
      GoneStep(setup, states, actions, j);
    }
  }

  lemma {:induction false} NoSights(actions: seq<Action>)
    requires forall k :: 0 <= k < |actions| ==> !actions[k].See?
    ensures Sights(actions) == 0
    decreases |actions|
  {
    if actions != [] {
      NoSights(actions[..|actions| - 1]);
    }
  }

  /** Once the node is gone nothing but internal steps is left, and no more of them than `Work` says. */
  lemma GoneWindsDown(setup: Setup, states: seq<State>, actions: seq<Action>, i: nat, j: nat)
    requires IsRun(setup, states, actions) && i <= j < |states| == |actions| + 1 && states[i].phase.Gone?
    ensures states[j].phase.Gone? && forall k :: i <= k < j ==> Internal(actions[k])
    ensures j - i + Work(states[j]) <= Work(states[i])
  {
    hide IsRun, Work, Sights;
    GoneStaysGone(setup, states, actions, i, j);
    forall k: nat | i <= k < j ensures Internal(actions[k]) && states[k].phase.Gone? {
      GoneStaysGone(setup, states, actions, i, k);
      GoneStep(setup, states, actions, k + 1);
    }
    NoSights(actions[i..j]);
    HandlersFinish(setup, states, actions, i, j);
  }

  /** A worker that has returned with everything it ever accepted executed exactly once. */
  ghost predicate WoundDown(w: Option<W.Worker>) {
    match w
    case None => true
    case Some(worker) =>
      && worker.phase.Returned?
      && multiset(OutputTags(worker.done)) == multiset(InputTags(worker.accepted))
      && WT.Batching(InputTags(worker.accepted), OutputTags(worker.done), worker.cuts, worker.Limit())
  }

  lemma WorkerWindsDown(setup: Setup, s: State, batchable: bool)
    requires WorkerInv(setup, s, batchable) && s.phase.Gone?
    requires forall step :: !Enabled(setup, s, WorkerStep(batchable, step))
    ensures WoundDown(s.Worker(batchable))
  {
    if s.Worker(batchable).Some? {
      var w := s.Worker(batchable).value;
      if !w.phase.Returned? {
        var step := WT.DrainingNeverBlocks(w);
        assert Enabled(setup, s, WorkerStep(batchable, step));
      }
      WT.Conservation(w);
      WT.ReturnedIsBatching(w);
      assert WT.Owed(w) == [];
    }
  }

  /**
   After the node is gone, the system rests only when the client has returned with every command
   answered and each worker has returned with every task it accepted executed exactly once.
   */
  lemma RestMeansDone(setup: Setup, states: seq<State>, actions: seq<Action>, i: nat)
    requires IsRun(setup, states, actions) && i < |states| && states[i].phase.Gone? && Stuck(setup, states[i])
    ensures states[i].client.phase.Returned? && |states[i].client.replies| == |states[i].client.accepted|
    ensures WoundDown(states[i].batch) && WoundDown(states[i].single)
  {
    RunIsSound(setup, states, actions, i);
    var s := states[i];
    hide IsRun, WorkerInv, WoundDown, W.Enabled;
    assert !Enabled(setup, s, Forward) && !Enabled(setup, s, ClientReturn);
    forall b: bool, step ensures !Enabled(setup, s, WorkerStep(b, step)) {
      assert Internal(WorkerStep(b, step));
    }
    WorkerWindsDown(setup, s, true);
    WorkerWindsDown(setup, s, false);
  }

  /**
   Where the components can come to rest by themselves: with the node waiting in its loop for
   something to do, with everything wound down, or in a block.
   */
  lemma RestsOnlyThere(setup: Setup, states: seq<State>, actions: seq<Action>, i: nat)
    requires IsRun(setup, states, actions) && i < |states| && Stuck(setup, states[i])
    ensures
      var s := states[i];
      || (s.phase.LoopHead? && s.outputs == [] && s.messages == [] && s.requests == [])
      || (s.phase.Gone? && s.client.phase.Returned? && WoundDown(s.batch) && WoundDown(s.single))
      || Blocked(setup, s)
  {
    hide IsRun, WoundDown, Blocked, StillClient, StillWorker;
    var s := states[i];
    if s.phase.Gone? {
      hide Stuck;
      RestMeansDone(setup, states, actions, i);
    } else if s.phase.LoopHead? {
      assert !Enabled(setup, s, TakeOutput(true)) && !Enabled(setup, s, TakeRequest(true));
      var moment := Moment(0, n => n, 0);
      assert !Enabled(setup, s, TakeMessage(moment));
    } else {
      hide Stuck;
      StuckExactly(setup, states, actions, i);
    }
  }
}

/**
 The running node as a system of communicating processes: the node's event loop, the peer-to-peer
 client, and the batch and the series worker, interleaved in any way.

 A step is what one component does between two of its await points. The node's part follows
 compute/src/node.rs and compute/src/handlers; the client and the workers are `ClientProcess` and
 `WorkerProcess`. The record `History` never influences a step.
 */
module System {
  import opened Wrappers
  import opened Network
  import opened Tasks
  import opened Handlers
  import C = ClientProcess
  import W = WorkerProcess

  /** The capacities of the bounded channels, and the batch size. */
  datatype Sizes = Sizes(commands: nat, messages: nat, requests: nat, workflow: nat, publish: nat, batch: nat)
  {
    predicate Valid() {
      && commands >= 1 && messages >= 1 && requests >= 1 && workflow >= 1 && publish >= 1
      && 1 <= batch <= W.MAX_BATCH_SIZE
    }
  }

  datatype Setup = Setup(world: World, sizes: Sizes)

  /** What the node is in the middle of when it sends a command or awaits its reply. */
  datatype Goal =
    | Starting(done: nat)
    | PublishingOutcome(output: WorkerOutput)
    | PublishingNotice(output: WorkerOutput)
    | Ponging(message: GossipMessage, uuid: string, pendingSingle: nat, pendingBatch: nat)
    | Validating(message: GossipMessage, acceptance: Acceptance)
    | Responding(peer: PeerId)
    | Diagnosing
    | Dialing(addresses: seq<string>)
    | Stopping(done: nat)
    | Summarising
    | ShuttingDown

  datatype NodePhase =
    | LoopHead
    | SendingTask(input: WorkerInput, message: GossipMessage)
    | Calling(goal: Goal)
    | Awaiting(goal: Goal, tag: nat)
    | Gone

  /** A gossip message taken up by the node, with the clock and the known RPC nodes at that time. */
  datatype Receipt = Receipt(message: GossipMessage, now: nat, rpc: set<PeerId>)

  /** An admitted task and the receipt it came with. */
  datatype Admission = Admission(receipt: nat, input: WorkerInput)

  datatype History = History(
    receipts: seq<Receipt>,
    asked: seq<InboundRequest>,
    admitted: seq<Admission>,
    sent: seq<WorkerOutput>,
    completed: seq<WorkerOutput>,
    published: seq<WorkerOutput>,
    reentered: set<bool>)

  datatype State = State(
    phase: NodePhase,
    core: Core,
    reply: Option<Reply>,
    nextTag: nat,
    client: C.Client,
    messages: seq<GossipMessage>,
    requests: seq<InboundRequest>,
    batch: Option<W.Worker>,
    single: Option<W.Worker>,
    outputs: seq<WorkerOutput>,
    history: History)
  {
    function Worker(batchable: bool): Option<W.Worker> {
      if batchable then batch else single
    }

    function WithWorker(batchable: bool, w: W.Worker): State {
      if batchable then this.(batch := Some(w)) else this.(single := Some(w))
    }

    /** The task the node holds while it waits for room in a workflow channel. */
    function Hand(batchable: bool): seq<WorkerInput> {
      if phase.SendingTask? && phase.input.batchable == batchable then [phase.input] else []
    }
  }

  function Init(setup: Setup, rpc: set<PeerId>): State {
    State(
      Calling(Starting(0)),
      Core({}, {}, 0, 0, rpc),
      None, 0,
      C.Fresh(setup.sizes.commands),
      [], [],
      if WorkerExists(setup.world, true) then Some(W.Fresh(W.Batch(setup.sizes.batch), setup.sizes.workflow)) else None,
      if WorkerExists(setup.world, false) then Some(W.Fresh(W.Series, setup.sizes.workflow)) else None,
      [],
      History([], [], [], [], [], [], {}))
  }

  // ---------------------------------------------------------------- the node's goals

  function RequestOf(goal: Goal): Request {
    match goal
    case Starting(done) => Subscribe(if done < 4 then TOPICS[done] else "")
    case PublishingOutcome(output) => Publish(RESULTS_TOPIC, OutcomeOf(output))
    case PublishingNotice(output) => Publish(RESULTS_TOPIC, NoticeFor(output))
    case Ponging(_, uuid, single, batch) => Publish(PONG_TOPIC, Pong(uuid, single, batch))
    case Validating(message, acceptance) => ValidateMessage(message.id, message.propagatedBy, acceptance)
    case Responding(peer) => Respond(peer)
    case Diagnosing => PeerCounts
    case Dialing(addresses) => Dial(if addresses == [] then "" else addresses[0])
    case Stopping(done) => Unsubscribe(if done < 4 then TOPICS[done] else "")
    case Summarising => PeerCounts
    case ShuttingDown => Shutdown
  }

  /** Where the node goes on once a command has been answered. */
  function After(goal: Goal, ok: bool): NodePhase {
    match goal
    case Starting(done) =>
      if !ok then Calling(ShuttingDown) else if done < 3 then Calling(Starting(done + 1)) else LoopHead
    case PublishingOutcome(output) => if ok then LoopHead else Calling(PublishingNotice(output))
    case PublishingNotice(_) => if ok then LoopHead else Calling(ShuttingDown)
    case Ponging(message, _, _, _) => Calling(Validating(message, if ok then Accept else Ignore))
    case Validating(_, _) => LoopHead
    case Responding(_) => LoopHead
    case Diagnosing => LoopHead
    case Dialing(addresses) => if |addresses| > 1 then Calling(Dialing(addresses[1..])) else LoopHead
    case Stopping(done) =>
      if !ok then Calling(ShuttingDown) else if done < 3 then Calling(Stopping(done + 1)) else Calling(Summarising)
    case Summarising => Calling(ShuttingDown)
    case ShuttingDown => Gone
  }

  /** The output whose publication a goal is about. */
  function Publication(goal: Goal): Option<WorkerOutput> {
    if goal.PublishingOutcome? || goal.PublishingNotice? then Some(goal.output) else None
  }

  // ---------------------------------------------------------------- steps

  datatype Action =
    // the node
    | TakeOutput(encrypted: bool)
    | TakeMessage(moment: Moment)
    | TakeRequest(isSpec: bool)
    | TickDiagnostic
    | TickRefresh(peers: set<PeerId>, addresses: seq<string>)
    | ChannelLost
    | Cancel
    | SendTask
    | SendTaskFails
    | Call
    | CallFails
    | TakeReply
    // the client
    | Serve(ok: bool)
    | See(event: Event)
    | Forward
    | ClientReturn
    // a worker
    | WorkerStep(batchable: bool, step: W.Action)

  predicate PublisherLives(w: Option<W.Worker>) {
    w.Some? && !w.value.phase.Returned?
  }

  /** Room for an output in the publish channel; a closed channel refuses at once. */
  predicate CanPublish(setup: Setup, s: State) {
    s.phase.Gone? || |s.outputs| < setup.sizes.publish
  }

  /** Room for a forwarded event; a closed channel refuses at once. */
  predicate CanForward(setup: Setup, s: State, event: Event) {
    || s.phase.Gone?
    || (event.Gossip? && |s.messages| < setup.sizes.messages)
    || (event.Inbound? && |s.requests| < setup.sizes.requests)
  }

  predicate Enabled(setup: Setup, s: State, a: Action) {
    match a
    case TakeOutput(_) => s.phase.LoopHead? && s.outputs != []
    case TakeMessage(_) => s.phase.LoopHead? && s.messages != []
    case TakeRequest(_) => s.phase.LoopHead? && s.requests != []
    case TickDiagnostic => s.phase.LoopHead?
    case TickRefresh(_, _) => s.phase.LoopHead?
    case ChannelLost =>
      && s.phase.LoopHead?
      && (|| (s.outputs == [] && !PublisherLives(s.batch) && !PublisherLives(s.single))
          || (s.messages == [] && s.client.phase.Returned?)
          || (s.requests == [] && s.client.phase.Returned?))
    case Cancel => s.phase.LoopHead?
    case SendTask =>
      && s.phase.SendingTask?
      && s.Worker(s.phase.input.batchable).Some?
      && W.Enabled(s.Worker(s.phase.input.batchable).value, W.Accept(s.phase.input))
    case SendTaskFails =>
      && s.phase.SendingTask?
      && (s.Worker(s.phase.input.batchable).Some? ==> s.Worker(s.phase.input.batchable).value.phase.Returned?)
    case Call => s.phase.Calling? && C.Enabled(s.client, C.AcceptCommand(Command(s.nextTag, RequestOf(s.phase.goal))))
    case CallFails => s.phase.Calling? && (s.client.closed || s.client.phase.Returned?)
    case TakeReply => s.phase.Awaiting? && s.reply.Some?
    case Serve(ok) => C.Enabled(s.client, C.Serve(ok))
    case See(event) => C.Enabled(s.client, C.See(event))
    case Forward => s.client.phase.Forwarding? && CanForward(setup, s, s.client.phase.event)
    case ClientReturn => C.Enabled(s.client, C.Return)
    case WorkerStep(batchable, step) =>
      && s.Worker(batchable).Some?
      && !step.Accept? && !step.Disconnect?
      && W.Enabled(s.Worker(batchable).value, step)
      && (step.Hand? ==> CanPublish(setup, s))
  }

  /** Dropping the node drops its ends of every channel. */
  function Hangup(w: Option<W.Worker>): Option<W.Worker> {
    match w
    case None => None
    case Some(worker) => Some(if worker.connected then W.Apply(worker, W.Disconnect) else worker)
  }

  function Leave(s: State): State {
    s.(phase := Gone,
       batch := Hangup(s.batch),
       single := Hangup(s.single),
       client := if s.client.connected then C.Apply(s.client, C.Disconnect) else s.client)
  }

  /** The node goes on to its next phase, the last of which drops it. */
  function Proceed(s: State, phase: NodePhase): State {
    if phase.Gone? then Leave(s) else s.(phase := phase)
  }

  function AdmittedInputs(admitted: seq<Admission>): (r: seq<WorkerInput>)
    ensures |r| == |admitted|
    ensures forall i :: 0 <= i < |r| ==> r[i] == admitted[i].input
  {
    seq(|admitted|, i requires 0 <= i < |admitted| => admitted[i].input)
  }

  function InputsOfKind(inputs: seq<WorkerInput>, batchable: bool): seq<WorkerInput> {
    if inputs == [] then []
    else
      var n := |inputs| - 1;
      InputsOfKind(inputs[..n], batchable) + if inputs[n].batchable == batchable then [inputs[n]] else []
  }

  function OutputsOfKind(outputs: seq<WorkerOutput>, batchable: bool): seq<WorkerOutput> {
    if outputs == [] then []
    else
      var n := |outputs| - 1;
      OutputsOfKind(outputs[..n], batchable) + if outputs[n].batchable == batchable then [outputs[n]] else []
  }

  /** The tags of the admitted tasks of one kind, in the order of their admission. */
  function AdmittedTags(h: History, batchable: bool): seq<TaskTag> {
    InputTags(InputsOfKind(AdmittedInputs(h.admitted), batchable))
  }

  /** The tags of the outputs of one kind that the node has taken up, in that order. */
  function CompletedTags(h: History, batchable: bool): seq<TaskTag> {
    OutputTags(OutputsOfKind(h.completed, batchable))
  }

  /** The tags of the tasks of one kind that were admitted and not yet completed. */
  function Outstanding(h: History, batchable: bool): multiset<TaskTag> {
    multiset(AdmittedTags(h, batchable)) - multiset(CompletedTags(h, batchable))
  }

  /** Some outstanding task of the kind has this id. */
  ghost predicate InFlightId(h: History, batchable: bool, id: string) {
    exists tag :: tag in Outstanding(h, batchable) && tag.taskId == id
  }

  ghost function TakeMessageStep(setup: Setup, s: State, moment: Moment): State
    requires s.messages != []
  {
    var message := s.messages[0];
    var h := s.history.(receipts := s.history.receipts + [Receipt(message, moment.now, s.core.rpc)]);
    var s1 := s.(messages := s.messages[1..], history := h);
    match Decide(setup.world, s.core.rpc, message, moment)
    case Validate(acceptance) => s1.(phase := Calling(Validating(message, acceptance)))
    case AnswerPing(uuid) =>
      s1.(phase := Calling(Ponging(message, uuid, |s.core.pendingSingle|, |s.core.pendingBatch|)))
    case Crash => Leave(s1)
    case Admit(input) =>
      s1.(phase := SendingTask(input, message),
          core := Admitting(s.core, input),
          history := h.(admitted := h.admitted + [Admission(|s.history.receipts|, input)],
                        reentered := if InFlightId(s.history, input.batchable, input.taskId)
                                     then h.reentered + {input.batchable} else h.reentered))
  }

  ghost function TakeOutputStep(s: State, encrypted: bool): State
    requires s.outputs != []
  {
    var output := s.outputs[0];
    s.(outputs := s.outputs[1..],
       core := Completing(s.core, output),
       history := s.history.(completed := s.history.completed + [output]),
       phase := if output.result.Answer? && !encrypted then Calling(ShuttingDown)
                else Calling(PublishingOutcome(output)))
  }

  ghost function TakeReplyStep(s: State): State
    requires s.phase.Awaiting? && s.reply.Some?
  {
    var goal, ok := s.phase.goal, s.reply.value.ok;
    var h := if ok && Publication(goal).Some?
             then s.history.(published := s.history.published + [Publication(goal).value])
             else s.history;
    Proceed(s.(reply := None, history := h), After(goal, ok))
  }

  ghost function ServeStep(s: State, ok: bool): State
    requires C.Enabled(s.client, C.Serve(ok))
  {
    var client := C.Apply(s.client, C.Serve(ok));
    s.(client := client, reply := Some(client.replies[|client.replies| - 1]))
  }

  ghost function ForwardStep(s: State): State
    requires s.client.phase.Forwarding?
  {
    var s1 := s.(client := C.Apply(s.client, C.Forward));
    if s.phase.Gone? then s1
    else
      match s.client.phase.event
      case Gossip(message) => s1.(messages := s.messages + [message])
      case Inbound(request) => s1.(requests := s.requests + [request])
      case Local(_) => s1
  }

  ghost function WorkerStepOf(s: State, batchable: bool, step: W.Action): State
    requires s.Worker(batchable).Some? && W.Enabled(s.Worker(batchable).value, step)
  {
    var w := s.Worker(batchable).value;
    var w' := W.Apply(w, step);
    var s1 := s.WithWorker(batchable, w');
    if step.Hand? && !s.phase.Gone? then
      var output := w'.done[|w'.done| - 1];
      s1.(outputs := s.outputs + [output], history := s.history.(sent := s.history.sent + [output]))
    else s1
  }

  ghost function Apply(setup: Setup, s: State, a: Action): State
    requires Enabled(setup, s, a)
  {
    match a
    case TakeOutput(encrypted) => TakeOutputStep(s, encrypted)
    case TakeMessage(moment) => TakeMessageStep(setup, s, moment)
    case TakeRequest(isSpec) =>
      var request := s.requests[0];
      var s1 := s.(requests := s.requests[1..], history := s.history.(asked := s.history.asked + [request]));
      if request.peer in s.core.rpc && isSpec then s1.(phase := Calling(Responding(request.peer))) else s1
    case TickDiagnostic => s.(phase := Calling(Diagnosing))
    case TickRefresh(peers, addresses) =>
      var s1 := s.(core := s.core.(rpc := s.core.rpc + peers));
      if addresses == [] then s1 else s1.(phase := Calling(Dialing(addresses)))
    case ChannelLost => s.(phase := Calling(Stopping(0)))
    case Cancel => s.(phase := Calling(Stopping(0)))
    case SendTask =>
      var input := s.phase.input;
      s.WithWorker(input.batchable, W.Apply(s.Worker(input.batchable).value, W.Accept(input)))
       .(phase := Calling(Validating(s.phase.message, Accept)))
    case SendTaskFails => s.(phase := Calling(Validating(s.phase.message, Accept)))
    case Call =>
      s.(phase := Awaiting(s.phase.goal, s.nextTag),
         nextTag := s.nextTag + 1,
         client := C.Apply(s.client, C.AcceptCommand(Command(s.nextTag, RequestOf(s.phase.goal)))))
    case CallFails => Leave(s)
    case TakeReply => TakeReplyStep(s)
    case Serve(ok) => ServeStep(s, ok)
    case See(event) => s.(client := C.Apply(s.client, C.See(event)))
    case Forward => ForwardStep(s)
    case ClientReturn => s.(client := C.Apply(s.client, C.Return))
    case WorkerStep(batchable, step) => WorkerStepOf(s, batchable, step)
  }

  // ---------------------------------------------------------------- runs

  /** A run from a start-up of the node: states[i + 1] is states[i] after actions[i]. */
  ghost predicate IsRun(setup: Setup, states: seq<State>, actions: seq<Action>) {
    && setup.sizes.Valid()
    && |states| == |actions| + 1
    && (exists rpc :: states[0] == Init(setup, rpc))
    && forall i :: 0 <= i < |actions| ==> IsStep(setup, states, actions, i)
  }

  ghost predicate IsStep(setup: Setup, states: seq<State>, actions: seq<Action>, i: nat)
    requires i < |actions| && |states| == |actions| + 1
  {
    Enabled(setup, states[i], actions[i]) && states[i + 1] == Apply(setup, states[i], actions[i])
  }
}

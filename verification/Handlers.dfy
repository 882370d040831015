/**
 What the node decides about a gossip message, before anything awaits: compute/src/node.rs,
 compute/src/handlers/workflow.rs and compute/src/handlers/pingpong.rs.
 */
module Handlers {
  import opened Wrappers
  import opened Network
  import opened Tasks
  import Message
  import Config
  import Rfc4648

  const PING_TOPIC: string := "ping"
  const PONG_TOPIC: string := "pong"
  const TASK_TOPIC: string := "task"
  const RESULTS_TOPIC: string := "results"

  /** The topics the node subscribes to, in this order. */
  const TOPICS: seq<string> := [PING_TOPIC, PONG_TOPIC, TASK_TOPIC, RESULTS_TOPIC]

  /** A Bloom filter on the wire. */
  datatype TaskFilter = TaskFilter(hex: seq<Byte>, hashes: nat)

  datatype TaskRequest = TaskRequest(
    taskId: string, deadline: nat, filter: TaskFilter, publicKey: seq<Byte>,
    workflow: string, models: seq<string>, prompt: Option<string>)

  datatype PingRequest = PingRequest(uuid: string, deadline: nat)

  /**
   The node's configuration and the foreign code its handlers call. Where `bloom` has no answer the
   filter library panics, as it does on an empty filter.
   */
  datatype World = World(
    crypto: Message.Crypto,
    adminKey: Message.PublicKey,
    address: string,
    parseMessage: seq<Byte> -> Option<Message.DriaMessage>,
    parseTask: seq<Byte> -> Option<TaskRequest>,
    parsePing: seq<Byte> -> Option<PingRequest>,
    bloom: (seq<Byte>, nat, string) -> Option<bool>,
    parseKey: seq<Byte> -> Option<string>,
    catalog: Config.Catalog,
    models: seq<Config.Entry>)

  /** The moment of a receipt: the clock, and the draws of the random model choice. */
  datatype Moment = Moment(now: nat, draws: nat -> nat, draw: nat)

  datatype Computed = Left(acceptance: Acceptance) | Right(input: WorkerInput) | Error | Panics

  datatype Decision = Validate(acceptance: Acceptance) | Admit(input: WorkerInput) | AnswerPing(uuid: string) | Crash

  /** `handle_compute` once the payload has been parsed, its deadline and its filter checked. */
  function Prepare(world: World, request: TaskRequest, moment: Moment): (r: Computed)
    ensures r.Right? || r.Error?
  {
    match Rfc4648.HexDecode(request.publicKey)
    case Err(_) => Error
    case Ok(bytes) =>
      match world.parseKey(bytes)
      case None => Error
      case Some(key) =>
        match Config.GetAnyMatchingModel(world.catalog, world.models, request.models, moment.draws, moment.draw)
        case Err(_) => Error
        case Ok((provider, model)) =>
          Right(WorkerInput(Job(request.prompt, request.workflow, model), key, request.taskId, model,
                            provider != Config.Ollama))
  }

  /** `TaskFilter::contains` of this node's address. */
  function FilterContains(world: World, filter: TaskFilter): Message.Attempt<bool> {
    match Rfc4648.HexDecode(filter.hex)
    case Err(_) => Message.Failure(Message.BadHex)
    case Ok(bytes) =>
      match world.bloom(bytes, filter.hashes, world.address)
      case None => Message.Panic
      case Some(contained) => Message.Done(contained)
  }

  function HandleCompute(world: World, m: Message.DriaMessage, moment: Moment): Computed {
    match Message.ParsePayload(m, true)
    case Panic => Panics
    case Failure(_) => Error
    case Done(body) =>
      match world.parseTask(body)
      case None => Error
      case Some(request) =>
        if moment.now >= request.deadline then Left(Ignore)
        else
          match FilterContains(world, request.filter)
          case Panic => Panics
          case Failure(_) => Error
          case Done(included) => if included then Prepare(world, request, moment) else Left(Accept)
  }

  function HandlePing(world: World, m: Message.DriaMessage, moment: Moment): Decision {
    match Message.ParsePayload(m, true)
    case Panic => Crash
    case Failure(_) => Validate(Ignore)
    case Done(body) =>
      match world.parsePing(body)
      case None => Validate(Ignore)
      case Some(ping) => if moment.now >= ping.deadline then Validate(Ignore) else AnswerPing(ping.uuid)
  }

  /** The worker a task is routed to, as far as `DriaComputeNode::new` has created one. */
  predicate WorkerExists(world: World, batchable: bool) {
    if batchable then Config.HasBatchableModels(world.models) else Config.HasNonBatchableModels(world.models)
  }

  function Dispatch(world: World, m: Message.DriaMessage, moment: Moment): Decision {
    if m.topic == TASK_TOPIC then
      match HandleCompute(world, m, moment)
      case Left(acceptance) => Validate(acceptance)
      case Error => Validate(Ignore)
      case Panics => Crash
      case Right(input) => if WorkerExists(world, input.batchable) then Admit(input) else Crash
    else if m.topic == PING_TOPIC then HandlePing(world, m, moment)
    else Crash
  }

  predicate IsListened(topic: string) {
    topic == PING_TOPIC || topic == TASK_TOPIC
  }

  /** The checks on the parsed message, and what follows from them. */
  function CheckAndDispatch(world: World, m: Message.DriaMessage, moment: Moment): Decision {
    match Message.IsSigned(world.crypto, m, world.adminKey)
    case Panic => Crash
    case Failure(_) => Validate(Ignore)
    case Done(valid) => if valid then Dispatch(world, m, moment) else Validate(Reject)
  }

  /** `handle_message` up to its first await. */
  function Decide(world: World, rpc: set<PeerId>, message: GossipMessage, moment: Moment): Decision {
    if IsListened(message.topic) then
      if message.source.None? || message.source.value !in rpc then Validate(Ignore)
      else
        match world.parseMessage(message.data)
        case None => Validate(Ignore)
        case Some(m) => CheckAndDispatch(world, m, moment)
    else if message.topic == PONG_TOPIC || message.topic == RESULTS_TOPIC then Validate(Accept)
    else Validate(Reject)
  }

  // ---------------------------------------------------------------- what an admission means

  predicate FromKnown(rpc: set<PeerId>, message: GossipMessage) {
    IsListened(message.topic) && message.source.Some? && message.source.value in rpc
  }

  /** The message came from a known RPC node and carries a signature of the admin key over its body. */
  ghost predicate Authentic(world: World, rpc: set<PeerId>, message: GossipMessage, m: Message.DriaMessage,
                            body: seq<Byte>) {
    && FromKnown(rpc, message)
    && world.parseMessage(message.data) == Some(m)
    && Message.Vouches(world.crypto, m, world.adminKey, body)
  }

  /** The filter can be read, and this is what the filter library answers for this node's address. */
  predicate FilterSays(world: World, filter: TaskFilter, answer: Option<bool>) {
    && Rfc4648.HexDecode(filter.hex).Ok?
    && world.bloom(Rfc4648.HexDecode(filter.hex).value, filter.hashes, world.address) == answer
  }

  /** The request is still open and addressed to this node. */
  predicate Due(world: World, request: TaskRequest, now: nat) {
    now < request.deadline && FilterSays(world, request.filter, Some(true))
  }

  /** The task is the requested one, on a configured model the request asks for. */
  ghost predicate Fulfils(world: World, request: TaskRequest, input: WorkerInput) {
    && input.taskId == request.taskId
    && Rfc4648.HexDecode(request.publicKey).Ok?
    && world.parseKey(Rfc4648.HexDecode(request.publicKey).value) == Some(input.publicKey)
    && exists provider ::
         && Config.Requested(world.catalog, world.models, request.models, (provider, input.modelName))
         && (provider, input.modelName) in world.models
         && (input.batchable <==> provider != Config.Ollama)
         && input.job == Job(request.prompt, request.workflow, input.modelName)
  }

  /** Everything an admitted task rests on. */
  ghost predicate Warranted(world: World, rpc: set<PeerId>, message: GossipMessage, now: nat, input: WorkerInput) {
    exists m, body, request ::
      && Authentic(world, rpc, message, m, body)
      && m.topic == TASK_TOPIC
      && world.parseTask(body) == Some(request)
      && Due(world, request, now)
      && Fulfils(world, request, input)
  }

  lemma PreparedFulfils(world: World, request: TaskRequest, moment: Moment, input: WorkerInput)
    requires Prepare(world, request, moment) == Right(input)
    ensures Fulfils(world, request, input)
    ensures WorkerExists(world, input.batchable)
  {
    var e := Config.GetAnyMatchingModel(world.catalog, world.models, request.models, moment.draws, moment.draw).value;
    Config.SelectedIsRequested(world.catalog, world.models, request.models, moment.draws, moment.draw, e);
    Config.SelectionHasWorker(world.catalog, world.models, request.models, moment.draws, moment.draw);
    assert e == (e.0, input.modelName);
  }

  /** Whatever is computed goes to a worker that exists. */
  lemma ComputedHasWorker(world: World, m: Message.DriaMessage, moment: Moment)
    requires HandleCompute(world, m, moment).Right?
    ensures WorkerExists(world, HandleCompute(world, m, moment).input.batchable)
  {
    var request := world.parseTask(Message.ParsePayload(m, true).value).value;
    PreparedFulfils(world, request, moment, HandleCompute(world, m, moment).input);
  }

  /** A task is admitted only if it is warranted, and then a worker for it exists. */
  lemma AdmittedIsWarranted(world: World, rpc: set<PeerId>, message: GossipMessage, moment: Moment, input: WorkerInput)
    requires Decide(world, rpc, message, moment) == Admit(input)
    ensures Warranted(world, rpc, message, moment.now, input)
    ensures WorkerExists(world, input.batchable)
  {
    hide Prepare, Fulfils, Message.IsSigned, Message.ParsePayload;
    var m := world.parseMessage(message.data).value;
    var body := Message.ParsePayload(m, true).value;
    Message.VerifiedIsParsed(world.crypto, m, world.adminKey, body);
    var request := world.parseTask(body).value;
    PreparedFulfils(world, request, moment, input);
    assert Authentic(world, rpc, message, m, body);
  }

  lemma FulfilledCanBePrepared(world: World, request: TaskRequest, now: nat,
                               input: WorkerInput) returns (moment: Moment)
    requires Fulfils(world, request, input)
    ensures moment.now == now && Prepare(world, request, moment) == Right(input)
  {
    var provider :|
      && Config.Requested(world.catalog, world.models, request.models, (provider, input.modelName))
      && (provider, input.modelName) in world.models
      && (input.batchable <==> provider != Config.Ollama)
      && input.job == Job(request.prompt, request.workflow, input.modelName);
    var e := (provider, input.modelName);
    Config.AnyMatchIsExact(world.catalog, world.models, request.models, e);
    var draws: nat -> nat, draw: nat :|
      Config.GetAnyMatchingModel(world.catalog, world.models, request.models, draws, draw) == Ok(e);
    moment := Moment(now, draws, draw);
  }

  /** Conversely, for a warranted task there are draws under which it is admitted. */
  lemma WarrantedCanBeAdmitted(world: World, rpc: set<PeerId>, message: GossipMessage, now: nat, input: WorkerInput)
    returns (moment: Moment)
    requires Warranted(world, rpc, message, now, input)
    ensures moment.now == now && Decide(world, rpc, message, moment) == Admit(input)
  {
    var m, body, request :|
      && Authentic(world, rpc, message, m, body)
      && m.topic == TASK_TOPIC
      && world.parseTask(body) == Some(request)
      && Due(world, request, now)
      && Fulfils(world, request, input);
    hide Fulfils, Prepare, Message.IsSigned, Message.ParsePayload;
    VouchedIsParsed(world, m, body);
    moment := FulfilledCanBePrepared(world, request, now, input);
    assert HandleCompute(world, m, moment) == Right(input);
    ComputedHasWorker(world, m, moment);
  }

  lemma VouchedIsParsed(world: World, m: Message.DriaMessage, body: seq<Byte>)
    requires Message.Vouches(world.crypto, m, world.adminKey, body)
    ensures Message.IsSigned(world.crypto, m, world.adminKey) == Message.Done(true)
    ensures Message.ParsePayload(m, true) == Message.Done(body)
  {
    hide Message.IsSigned, Message.ParsePayload, Message.Vouches;
    Message.AcceptsExactly(world.crypto, m, world.adminKey);
    Message.VerifiedIsParsed(world.crypto, m, world.adminKey, body);
  }

  // ---------------------------------------------------------------- the verdicts, each with its exact condition

  /** The request is open, and for other nodes. */
  predicate IsForOthers(world: World, body: seq<Byte>, now: nat) {
    match world.parseTask(body)
    case None => false
    case Some(request) => now < request.deadline && FilterSays(world, request.filter, Some(false))
  }

  /** The public key of the request cannot be read, or no configured model is what it asks for. */
  ghost predicate Unfulfillable(world: World, request: TaskRequest) {
    || Rfc4648.HexDecode(request.publicKey).Err?
    || world.parseKey(Rfc4648.HexDecode(request.publicKey).value) == None
    || !exists e :: Config.Requested(world.catalog, world.models, request.models, e)
  }

  /** There is no request, or an expired one, or one whose filter cannot be read or which cannot be fulfilled. */
  ghost predicate TaskIsIgnored(world: World, body: seq<Byte>, now: nat) {
    match world.parseTask(body)
    case None => true
    case Some(request) =>
      || request.deadline <= now
      || Rfc4648.HexDecode(request.filter.hex).Err?
      || (FilterSays(world, request.filter, Some(true)) && Unfulfillable(world, request))
  }

  predicate PingIsIgnored(world: World, body: seq<Byte>, now: nat) {
    match world.parsePing(body)
    case None => true
    case Some(ping) => ping.deadline <= now
  }

  /** The body is a ping that is still open, with this id. */
  predicate PingIsAnswered(world: World, body: seq<Byte>, now: nat, uuid: string) {
    match world.parsePing(body)
    case None => false
    case Some(ping) => now < ping.deadline && ping.uuid == uuid
  }

  /** The body is a request that is still open and whose filter makes the filter library panic. */
  predicate BreaksFilter(world: World, body: seq<Byte>, now: nat) {
    match world.parseTask(body)
    case None => false
    case Some(request) => now < request.deadline && FilterSays(world, request.filter, None)
  }

  lemma PrepareFailsExactly(world: World, request: TaskRequest, moment: Moment)
    ensures Prepare(world, request, moment).Error? <==> Unfulfillable(world, request)
  {
    hide Config.GetAnyMatchingModel, Config.Requested;
    Config.AnyMatchFails(world.catalog, world.models, request.models, moment.draws, moment.draw);
  }

  lemma TaskVerdicts(world: World, m: Message.DriaMessage, moment: Moment, body: seq<Byte>)
    requires Message.ParsePayload(m, true) == Message.Done(body)
    ensures
      var r := HandleCompute(world, m, moment);
      && (r == Left(Accept) <==> IsForOthers(world, body, moment.now))
      && (r == Left(Ignore) || r == Error <==> TaskIsIgnored(world, body, moment.now))
      && (r == Panics <==> BreaksFilter(world, body, moment.now))
      && r != Left(Reject)
  {
    hide Message.ParsePayload, Prepare, Unfulfillable;
    match world.parseTask(body)
    case None =>
    case Some(request) => PrepareFailsExactly(world, request, moment);
  }

  lemma PingVerdicts(world: World, m: Message.DriaMessage, moment: Moment, body: seq<Byte>)
    requires Message.ParsePayload(m, true) == Message.Done(body)
    ensures
      var r := HandlePing(world, m, moment);
      && (r == Validate(Ignore) <==> PingIsIgnored(world, body, moment.now))
      && (forall uuid :: r == AnswerPing(uuid) <==> PingIsAnswered(world, body, moment.now, uuid))
      && (r == Validate(Ignore) || r.AnswerPing?)
  {
    hide Message.ParsePayload;
  }

  /** What a signed message comes to. */
  lemma DispatchVerdicts(world: World, m: Message.DriaMessage, moment: Moment, body: seq<Byte>)
    requires Message.ParsePayload(m, true) == Message.Done(body)
    ensures
      var r := Dispatch(world, m, moment);
      && (r == Validate(Accept) <==> m.topic == TASK_TOPIC && IsForOthers(world, body, moment.now))
      && (r == Validate(Ignore) <==>
            || (m.topic == TASK_TOPIC && TaskIsIgnored(world, body, moment.now))
            || (m.topic == PING_TOPIC && PingIsIgnored(world, body, moment.now)))
      && (forall uuid ::
            r == AnswerPing(uuid) <==> m.topic == PING_TOPIC && PingIsAnswered(world, body, moment.now, uuid))
      && (r == Crash <==> !IsListened(m.topic) || (m.topic == TASK_TOPIC && BreaksFilter(world, body, moment.now)))
      && r != Validate(Reject)
  {
    hide Message.ParsePayload, HandleCompute, HandlePing, IsForOthers, TaskIsIgnored, PingIsIgnored, PingIsAnswered,
         BreaksFilter, WorkerExists;
    TaskVerdicts(world, m, moment, body);
    PingVerdicts(world, m, moment, body);
    if HandleCompute(world, m, moment).Right? {
      ComputedHasWorker(world, m, moment);
    }
  }

  /** What the signature check comes to. */
  lemma SignatureVerdicts(world: World, m: Message.DriaMessage)
    ensures
      var r := Message.IsSigned(world.crypto, m, world.adminKey);
      && (r == Message.Done(true) <==> exists body :: Message.Vouches(world.crypto, m, world.adminKey, body))
      && (r == Message.Done(false) <==> Message.Misleads(world.crypto, m, world.adminKey))
      && (r.Failure? <==> Message.Unreadable(world.crypto, m))
      && (r.Panic? <==> Message.TooShort(m))
    ensures forall a, b ::
      Message.Vouches(world.crypto, m, world.adminKey, a) && Message.Vouches(world.crypto, m, world.adminKey, b) ==>
        a == b
  {
    hide Message.IsSigned, Message.Vouches, Message.Misleads, Message.Unreadable, Message.TooShort;
    Message.AcceptsExactly(world.crypto, m, world.adminKey);
    Message.RefusesExactly(world.crypto, m, world.adminKey);
    Message.FailsExactly(world.crypto, m, world.adminKey);
    Message.PanicsExactly(world.crypto, m, world.adminKey);
    forall a, b |
      Message.Vouches(world.crypto, m, world.adminKey, a) && Message.Vouches(world.crypto, m, world.adminKey, b)
      ensures a == b
    {
      VouchedIsParsed(world, m, a);
      VouchedIsParsed(world, m, b);
    }
  }

  /** A message for other nodes. */
  ghost predicate ForOthers(world: World, rpc: set<PeerId>, message: GossipMessage, now: nat) {
    exists m, body ::
      && Authentic(world, rpc, message, m, body)
      && m.topic == TASK_TOPIC && IsForOthers(world, body, now)
  }

  /** A ping of a known RPC node, still open, with this id. */
  ghost predicate Pings(world: World, rpc: set<PeerId>, message: GossipMessage, now: nat, uuid: string) {
    exists m, body ::
      && Authentic(world, rpc, message, m, body)
      && m.topic == PING_TOPIC && PingIsAnswered(world, body, now, uuid)
  }

  /** A message that is dropped without a word about its sender. */
  ghost predicate Ignorable(world: World, rpc: set<PeerId>, message: GossipMessage, now: nat) {
    && IsListened(message.topic)
    && (|| !FromKnown(rpc, message)
        || world.parseMessage(message.data).None?
        || Message.Unreadable(world.crypto, world.parseMessage(message.data).value)
        || exists m, body ::
             && Authentic(world, rpc, message, m, body)
             && (|| (m.topic == TASK_TOPIC && TaskIsIgnored(world, body, now))
                 || (m.topic == PING_TOPIC && PingIsIgnored(world, body, now))))
  }

  /** A message from a known RPC node that makes a handler panic. */
  ghost predicate Malformed(world: World, rpc: set<PeerId>, message: GossipMessage, now: nat) {
    && FromKnown(rpc, message)
    && world.parseMessage(message.data).Some?
    && (|| Message.TooShort(world.parseMessage(message.data).value)
        || exists m, body ::
             && Authentic(world, rpc, message, m, body)
             && (!IsListened(m.topic) || (m.topic == TASK_TOPIC && BreaksFilter(world, body, now))))
  }

  /** What the checks on a message of a known RPC node come to. */
  lemma KnownVerdicts(world: World, rpc: set<PeerId>, message: GossipMessage, moment: Moment)
    requires FromKnown(rpc, message) && world.parseMessage(message.data).Some?
    ensures
      var r := CheckAndDispatch(world, world.parseMessage(message.data).value, moment);
      && (r == Validate(Accept) <==> ForOthers(world, rpc, message, moment.now))
      && (r == Validate(Ignore) <==> Ignorable(world, rpc, message, moment.now))
      && (r == Validate(Reject) <==>
            Message.Misleads(world.crypto, world.parseMessage(message.data).value, world.adminKey))
      && (r == Crash <==> Malformed(world, rpc, message, moment.now))
      && forall uuid :: r == AnswerPing(uuid) <==> Pings(world, rpc, message, moment.now, uuid)
  {
    hide Dispatch, IsListened, IsForOthers, TaskIsIgnored, PingIsIgnored, PingIsAnswered, BreaksFilter,
         Message.IsSigned, Message.Vouches, Message.Misleads, Message.Unreadable, Message.TooShort,
         Message.ParsePayload;
    var m := world.parseMessage(message.data).value;
    SignatureVerdicts(world, m);
    if body :| Message.Vouches(world.crypto, m, world.adminKey, body) {
      VouchedIsParsed(world, m, body);
      DispatchVerdicts(world, m, moment, body);
      assert Authentic(world, rpc, message, m, body);
    }
  }

  /**
   A message is accepted, so that it spreads, exactly if its topic is one the node only passes on, or if
   it is an authentic, open task for other nodes.
   */
  lemma AcceptsExactly(world: World, rpc: set<PeerId>, message: GossipMessage, moment: Moment)
    ensures Decide(world, rpc, message, moment) == Validate(Accept) <==>
      message.topic in {PONG_TOPIC, RESULTS_TOPIC} || ForOthers(world, rpc, message, moment.now)
  {
    hide CheckAndDispatch;
    if FromKnown(rpc, message) && world.parseMessage(message.data).Some? {
      KnownVerdicts(world, rpc, message, moment);
    }
  }

  /** It is dropped silently exactly if its sender is not known, it cannot be read, or it is no longer of use. */
  lemma IgnoresExactly(world: World, rpc: set<PeerId>, message: GossipMessage, moment: Moment)
    ensures Decide(world, rpc, message, moment) == Validate(Ignore) <==> Ignorable(world, rpc, message, moment.now)
  {
    hide CheckAndDispatch;
    if FromKnown(rpc, message) && world.parseMessage(message.data).Some? {
      KnownVerdicts(world, rpc, message, moment);
    }
  }

  /** The sender is penalised only for a topic nobody uses, or for a signature that is not the admin key's. */
  lemma RejectsExactly(world: World, rpc: set<PeerId>, message: GossipMessage, moment: Moment)
    ensures Decide(world, rpc, message, moment) == Validate(Reject) <==>
      || message.topic !in TOPICS
      || (&& FromKnown(rpc, message) && world.parseMessage(message.data).Some?
          && Message.Misleads(world.crypto, world.parseMessage(message.data).value, world.adminKey))
  {
    hide CheckAndDispatch, Message.Misleads;
    if FromKnown(rpc, message) && world.parseMessage(message.data).Some? {
      KnownVerdicts(world, rpc, message, moment);
    }
  }

  /** A pong is sent exactly for an authentic, open ping, and with its id. */
  lemma AnswersExactly(world: World, rpc: set<PeerId>, message: GossipMessage, moment: Moment, uuid: string)
    ensures Decide(world, rpc, message, moment) == AnswerPing(uuid) <==> Pings(world, rpc, message, moment.now, uuid)
  {
    hide CheckAndDispatch;
    if FromKnown(rpc, message) && world.parseMessage(message.data).Some? {
      KnownVerdicts(world, rpc, message, moment);
    }
  }

  /**
   The handler panics exactly on malformed messages of known RPC nodes. The two arms for a missing
   worker are never taken.
   */
  lemma CrashesExactly(world: World, rpc: set<PeerId>, message: GossipMessage, moment: Moment)
    ensures Decide(world, rpc, message, moment).Crash? <==> Malformed(world, rpc, message, moment.now)
  {
    hide CheckAndDispatch;
    if FromKnown(rpc, message) && world.parseMessage(message.data).Some? {
      KnownVerdicts(world, rpc, message, moment);
    }
  }

  // ---------------------------------------------------------------- what the node keeps about tasks

  datatype Core = Core(
    pendingSingle: set<string>,
    pendingBatch: set<string>,
    completedSingle: nat,
    completedBatch: nat,
    rpc: set<PeerId>)
  {
    function Pending(batchable: bool): set<string> {
      if batchable then pendingBatch else pendingSingle
    }

    function Completed(batchable: bool): nat {
      if batchable then completedBatch else completedSingle
    }
  }

  /** A task is recorded as pending before it is sent to its worker. */
  function Admitting(core: Core, input: WorkerInput): Core {
    if input.batchable then core.(pendingBatch := core.pendingBatch + {input.taskId})
    else core.(pendingSingle := core.pendingSingle + {input.taskId})
  }

  /** An output is counted and its id forgotten before it is published. */
  function Completing(core: Core, output: WorkerOutput): Core {
    if output.batchable
    then core.(completedBatch := core.completedBatch + 1, pendingBatch := core.pendingBatch - {output.taskId})
    else core.(completedSingle := core.completedSingle + 1, pendingSingle := core.pendingSingle - {output.taskId})
  }
}

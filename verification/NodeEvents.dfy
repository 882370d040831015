/**
 What the node does about the events of its `select!` loop, stated apart from how it does it: what it
 keeps, which tasks it admits, and which commands it sends to the peer-to-peer client.
 */
module NodeEvents {
  import opened Network
  import opened Tasks
  import opened Handlers

  datatype Incoming =
    | Output(output: WorkerOutput, encrypted: bool)
    | Diagnostic
    | Refreshed(peers: set<PeerId>, addresses: seq<string>)
    | Received(message: GossipMessage, moment: Moment)
    | Asked(request: InboundRequest, isSpec: bool)
    | ChannelClosed
    | Cancelled

  // ---------------------------------------------------------------- what is kept

  /** What the node keeps about tasks and peers, after an event. */
  function Keeping(world: World, core: Core, event: Incoming): Core {
    match event
    case Output(output, _) => Completing(core, output)
    case Refreshed(peers, _) => core.(rpc := core.rpc + peers)
    case Received(message, moment) =>
      var decision := Decide(world, core.rpc, message, moment);
      if decision.Admit? then Admitting(core, decision.input) else core
    case _ => core
  }

  /** The task an event makes the node send to a worker. */
  function Admitted(world: World, core: Core, event: Incoming): seq<WorkerInput> {
    if event.Received? && Decide(world, core.rpc, event.message, event.moment).Admit?
    then [Decide(world, core.rpc, event.message, event.moment).input]
    else []
  }

  function KeptAfter(world: World, core: Core, events: seq<Incoming>): Core {
    if events == [] then core
    else Keeping(world, KeptAfter(world, core, events[..|events| - 1]), events[|events| - 1])
  }

  function AllAdmitted(world: World, core: Core, events: seq<Incoming>): seq<WorkerInput> {
    if events == [] then []
    else
      var front := events[..|events| - 1];
      AllAdmitted(world, core, front) + Admitted(world, KeptAfter(world, core, front), events[|events| - 1])
  }

  function Outputs(events: seq<Incoming>): seq<WorkerOutput> {
    if events == [] then []
    else
      var last := events[|events| - 1];
      Outputs(events[..|events| - 1]) + if last.Output? then [last.output] else []
  }

  lemma OneMore(world: World, core: Core, events: seq<Incoming>, event: Incoming)
    ensures KeptAfter(world, core, events + [event]) == Keeping(world, KeptAfter(world, core, events), event)
    ensures AllAdmitted(world, core, events + [event])
         == AllAdmitted(world, core, events) + Admitted(world, KeptAfter(world, core, events), event)
    ensures Outputs(events + [event]) == Outputs(events) + if event.Output? then [event.output] else []
  {
    assert (events + [event])[..|events|] == events;
  }

  // ---------------------------------------------------------------- what is sent

  /** A command the client has answered, and whether it succeeded. */
  datatype Exchange = Exchange(request: Request, ok: bool)

  function Log(replies: seq<Reply>): (log: seq<Exchange>)
    ensures |log| == |replies|
    ensures forall i :: 0 <= i < |log| ==> log[i] == Exchange(replies[i].request, replies[i].ok)
  {
    seq(|replies|, i requires 0 <= i < |replies| => Exchange(replies[i].request, replies[i].ok))
  }

  function SwitchOf(subscribe: bool, k: nat): Request
    requires k < |TOPICS|
  {
    if subscribe then Subscribe(TOPICS[k]) else Unsubscribe(TOPICS[k])
  }

  /** The four topics are subscribed to, or unsubscribed from, one by one up to the first failure. */
  ghost predicate Switched(subscribe: bool, x: seq<Exchange>, ok: bool) {
    && |x| <= |TOPICS|
    && (forall k :: 0 <= k < |x| ==> x[k].request == SwitchOf(subscribe, k))
    && (forall k :: 0 <= k < |x| - 1 ==> x[k].ok)
    && (if ok then |x| == |TOPICS| && x[|x| - 1].ok else x != [] && !x[|x| - 1].ok)
  }

  lemma SwitchIsNoShutdown(subscribe: bool, k: nat)
    requires k < |TOPICS|
    ensures !SwitchOf(subscribe, k).Shutdown?
  {
  }

  /** The first topics are switched, all with success. */
  ghost predicate SwitchedSoFar(subscribe: bool, x: seq<Exchange>) {
    |x| <= |TOPICS| && forall k :: 0 <= k < |x| ==> x[k] == Exchange(SwitchOf(subscribe, k), true)
  }

  lemma SwitchedOneMore(subscribe: bool, x: seq<Exchange>, ok: bool)
    requires SwitchedSoFar(subscribe, x) && |x| < |TOPICS|
    ensures
      var y := x + [Exchange(SwitchOf(subscribe, |x|), ok)];
      if ok then SwitchedSoFar(subscribe, y) else Switched(subscribe, y, false)
  {
    hide SwitchOf;
  }

  lemma NothingSwitched(subscribe: bool)
    ensures SwitchedSoFar(subscribe, [])
  {
  }

  lemma SwitchedAll(subscribe: bool, x: seq<Exchange>)
    requires SwitchedSoFar(subscribe, x) && |x| == |TOPICS|
    ensures Switched(subscribe, x, true)
  {
  }

  predicate IsShutdown(x: seq<Exchange>) {
    |x| == 1 && x[0].request.Shutdown?
  }

  /** Start-up: on any failure the node shuts down at once. */
  ghost predicate StartScript(x: seq<Exchange>) {
    || Switched(true, x, true)
    || (x != [] && Switched(true, x[..|x| - 1], false) && IsShutdown(x[|x| - 1..]))
  }

  /** The end of the loop: unsubscribe, a last look at the peers, shut down. */
  ghost predicate StopScript(x: seq<Exchange>) {
    || (|x| >= 2 && Switched(false, x[..|x| - 2], true) && x[|x| - 2].request.PeerCounts? && IsShutdown(x[|x| - 1..]))
    || (x != [] && Switched(false, x[..|x| - 1], false) && IsShutdown(x[|x| - 1..]))
  }

  /** An output is published, or a notice that it could not be; `fails` if neither succeeds. */
  predicate PublishScript(output: WorkerOutput, encrypted: bool, x: seq<Exchange>, fails: bool) {
    if output.result.Answer? && !encrypted then x == [] && fails
    else
      || (x == [Exchange(Publish(RESULTS_TOPIC, OutcomeOf(output)), true)] && !fails)
      || x == [Exchange(Publish(RESULTS_TOPIC, OutcomeOf(output)), false),
               Exchange(Publish(RESULTS_TOPIC, NoticeFor(output)), !fails)]
  }

  /** The message is validated, by its id and the peer it came through. */
  predicate Validates(message: GossipMessage, verdict: Acceptance, x: Exchange) {
    x.request == ValidateMessage(message.id, message.propagatedBy, verdict)
  }

  /**
   A message is validated with the verdict its decision gives: after an admission it is accepted, and
   after a ping it is accepted exactly if the pong, with the numbers of pending tasks, was published.
   */
  predicate MessageScript(core: Core, message: GossipMessage, decision: Decision, x: seq<Exchange>) {
    match decision
    case Validate(verdict) => |x| == 1 && Validates(message, verdict, x[0])
    case Admit(_) => |x| == 1 && Validates(message, Accept, x[0])
    case AnswerPing(uuid) =>
      && |x| == 2
      && x[0].request == Publish(PONG_TOPIC, Pong(uuid, |core.pendingSingle|, |core.pendingBatch|))
      && Validates(message, if x[0].ok then Accept else Ignore, x[1])
    case Crash => x == []
  }

  /** The commands that one event makes the node send while it stays in its loop. */
  predicate Handled(world: World, core: Core, event: Incoming, x: seq<Exchange>, fails: bool) {
    match event
    case Output(output, encrypted) => PublishScript(output, encrypted, x, fails)
    case Diagnostic => !fails && |x| == 1 && x[0].request.PeerCounts?
    case Refreshed(_, addresses) =>
      !fails && |x| == |addresses| && forall k :: 0 <= k < |x| ==> x[k].request == Dial(addresses[k])
    case Received(message, moment) =>
      !fails && MessageScript(core, message, Decide(world, core.rpc, message, moment), x)
    case Asked(request, isSpec) =>
      && !fails
      && (if request.peer in core.rpc && isSpec then |x| == 1 && x[0].request == Respond(request.peer) else x == [])
    case ChannelClosed => !fails && x == []
    case Cancelled => !fails && x == []
  }

  predicate EndsLoop(event: Incoming) {
    event.ChannelClosed? || event.Cancelled?
  }

  /** The commands that follow when an event ends the loop. */
  ghost predicate CloseScript(event: Incoming, fails: bool, x: seq<Exchange>) {
    if fails then IsShutdown(x) else if EndsLoop(event) then StopScript(x) else x == []
  }

  /** All the commands that one event makes the node send: first `cut` within the loop. */
  ghost predicate ScriptCut(world: World, core: Core, event: Incoming, x: seq<Exchange>, cut: nat, fails: bool) {
    cut <= |x| && Handled(world, core, event, x[..cut], fails) && CloseScript(event, fails, x[cut..])
  }

  ghost predicate Script(world: World, core: Core, event: Incoming, x: seq<Exchange>) {
    exists cut: nat, fails :: ScriptCut(world, core, event, x, cut, fails)
  }

  /**
   The whole log of answered commands: those of start-up, then for each event its own, in order and
   with nothing in between.
   */
  ghost predicate Logged(world: World, core: Core, events: seq<Incoming>, log: seq<Exchange>)
    decreases |events|
  {
    if events == [] then StartScript(log)
    else exists cut: nat :: LoggedCut(world, core, events, log, cut)
  }

  ghost predicate LoggedCut(world: World, core: Core, events: seq<Incoming>, log: seq<Exchange>, cut: nat)
    requires events != []
    decreases |events|, 0
  {
    var front := events[..|events| - 1];
    && cut <= |log|
    && Logged(world, core, front, log[..cut])
    && Script(world, KeptAfter(world, core, front), events[|events| - 1], log[cut..])
  }

  lemma LogOneMore(world: World, core: Core, events: seq<Incoming>, log: seq<Exchange>, event: Incoming,
                   x: seq<Exchange>)
    requires Logged(world, core, events, log) && Script(world, KeptAfter(world, core, events), event, x)
    ensures Logged(world, core, events + [event], log + x)
  {
    hide Script, KeptAfter;
    assert (events + [event])[..|events|] == events;
    assert (log + x)[..|log|] == log && (log + x)[|log|..] == x;
    assert LoggedCut(world, core, events + [event], log + x, |log|);
  }

  /** An event that leaves the node in its loop. */
  lemma HandledIsScript(world: World, core: Core, event: Incoming, x: seq<Exchange>)
    requires Handled(world, core, event, x, false) && !EndsLoop(event)
    ensures Script(world, core, event, x)
  {
    assert x[..|x|] == x;
    assert ScriptCut(world, core, event, x, |x|, false);
  }

  /** An event that ends the loop, and what follows. */
  lemma ClosedIsScript(world: World, core: Core, event: Incoming, x: seq<Exchange>, fails: bool, y: seq<Exchange>)
    requires Handled(world, core, event, x, fails) && CloseScript(event, fails, y)
    ensures Script(world, core, event, x + y)
  {
    assert (x + y)[..|x|] == x && (x + y)[|x|..] == y;
    assert ScriptCut(world, core, event, x + y, |x|, fails);
  }

  // ---------------------------------------------------------------- publications

  /** The outputs whose publication succeeded, as outcome or as notice, in order. */
  function Published(log: seq<Exchange>): seq<WorkerOutput> {
    if log == [] then []
    else Published(log[..|log| - 1]) + PublishedBy(log[|log| - 1])
  }

  function PublishedBy(x: Exchange): seq<WorkerOutput> {
    match x.request
    case Publish(_, OutcomeOf(output)) => if x.ok then [output] else []
    case Publish(_, NoticeFor(output)) => if x.ok then [output] else []
    case _ => []
  }

  lemma {:induction false} PublishedConcat(a: seq<Exchange>, b: seq<Exchange>)
    ensures Published(a + b) == Published(a) + Published(b)
    decreases |b|
  {
    if b == [] {
      assert a + b == a;
    } else {
      var n := |b| - 1;
      assert (a + b)[..|a| + n] == a + b[..n];
      PublishedConcat(a, b[..n]);
    }
  }

  lemma {:induction false} NothingPublished(x: seq<Exchange>)
    requires forall k :: 0 <= k < |x| ==> PublishedBy(x[k]) == []
    ensures Published(x) == []
    decreases |x|
  {
    if x != [] {
      NothingPublished(x[..|x| - 1]);
    }
  }

  /** Handling an output publishes it exactly once, unless it fails; handling anything else publishes nothing. */
  lemma HandlingPublishes(world: World, core: Core, event: Incoming, x: seq<Exchange>, fails: bool)
    requires Handled(world, core, event, x, fails)
    ensures Published(x) == if event.Output? && !fails then [event.output] else []
  {
    hide Decide;
    if !event.Output? {
      NothingPublished(x);
    } else if |x| == 2 {
      assert x[..1] == [x[0]];
      assert Published([x[0]]) == PublishedBy(x[0]);
    }
  }

  // ---------------------------------------------------------------- validations

  /** The validations among the logged commands, in order. */
  function Validations(log: seq<Exchange>): seq<Request> {
    if log == [] then []
    else
      var last := log[|log| - 1].request;
      Validations(log[..|log| - 1]) + if last.ValidateMessage? then [last] else []
  }

  /** The messages among the events that did not make the node crash, with the decisions about them. */
  function Judged(world: World, core: Core, events: seq<Incoming>): seq<(GossipMessage, Decision)> {
    if events == [] then []
    else
      var front, last := events[..|events| - 1], events[|events| - 1];
      Judged(world, core, front) + JudgedOne(world, KeptAfter(world, core, front), last)
  }

  function JudgedOne(world: World, core: Core, event: Incoming): seq<(GossipMessage, Decision)> {
    if event.Received? && !Decide(world, core.rpc, event.message, event.moment).Crash?
    then [(event.message, Decide(world, core.rpc, event.message, event.moment))]
    else []
  }

  /** The verdicts that a decision allows: one, but for a ping, whose pong may fail to be published. */
  predicate Allows(decision: Decision, verdict: Acceptance) {
    match decision
    case Validate(own) => verdict == own
    case Admit(_) => verdict == Accept
    case AnswerPing(_) => verdict == Accept || verdict == Ignore
    case Crash => false
  }

  predicate ValidatedAs(judged: (GossipMessage, Decision), request: Request) {
    && request.ValidateMessage?
    && request.id == judged.0.id && request.propagatedBy == judged.0.propagatedBy
    && Allows(judged.1, request.acceptance)
  }

  /** One validation for each judged message, in the same order. */
  ghost predicate AllValidated(judged: seq<(GossipMessage, Decision)>, validations: seq<Request>) {
    && |validations| == |judged|
    && forall k :: 0 <= k < |judged| ==> ValidatedAs(judged[k], validations[k])
  }

  lemma {:induction false} ValidationsConcat(a: seq<Exchange>, b: seq<Exchange>)
    ensures Validations(a + b) == Validations(a) + Validations(b)
    decreases |b|
  {
    if b == [] {
      assert a + b == a;
    } else {
      var n := |b| - 1;
      assert (a + b)[..|a| + n] == a + b[..n];
      ValidationsConcat(a, b[..n]);
    }
  }

  lemma {:induction false} NoValidations(x: seq<Exchange>)
    requires forall k :: 0 <= k < |x| ==> !x[k].request.ValidateMessage?
    ensures Validations(x) == []
    decreases |x|
  {
    if x != [] {
      NoValidations(x[..|x| - 1]);
    }
  }

  lemma ClosingValidatesNothing(event: Incoming, fails: bool, x: seq<Exchange>)
    requires CloseScript(event, fails, x)
    ensures Validations(x) == []
  {
    forall k | 0 <= k < |x| ensures !x[k].request.ValidateMessage? {
      if k < |x| - 2 {
        assert x[..|x| - 2][k] == x[k] && x[..|x| - 1][k] == x[k];
      } else if k == |x| - 2 {
        assert x[..|x| - 1][k] == x[k];
      } else {
        assert x[|x| - 1..][0] == x[k];
      }
    }
    NoValidations(x);
  }

  lemma HandlingValidates(world: World, core: Core, event: Incoming, x: seq<Exchange>, fails: bool)
    requires Handled(world, core, event, x, fails)
    ensures AllValidated(JudgedOne(world, core, event), Validations(x))
  {
    hide Decide;
    if event.Received? && |x| > 0 {
      var n := |x| - 1;
      NoValidations(x[..n]);
      assert x == x[..n] + [x[n]];
    } else {
      NoValidations(x);
    }
  }

  lemma ScriptValidates(world: World, core: Core, event: Incoming, x: seq<Exchange>)
    requires Script(world, core, event, x)
    ensures AllValidated(JudgedOne(world, core, event), Validations(x))
  {
    var cut: nat, fails :| ScriptCut(world, core, event, x, cut, fails);
    hide Handled, CloseScript, JudgedOne, Validations;
    HandlingValidates(world, core, event, x[..cut], fails);
    ClosingValidatesNothing(event, fails, x[cut..]);
    ValidationsConcat(x[..cut], x[cut..]);
    assert x == x[..cut] + x[cut..];
  }

  lemma StartValidatesNothing(x: seq<Exchange>)
    requires StartScript(x)
    ensures Validations(x) == []
  {
    forall k | 0 <= k < |x| ensures !x[k].request.ValidateMessage? {
      if k < |x| - 1 {
        assert x[..|x| - 1][k] == x[k];
      } else {
        assert x[|x| - 1..][0] == x[k];
      }
    }
    NoValidations(x);
  }

  lemma AllValidatedConcat(a: seq<(GossipMessage, Decision)>, x: seq<Request>, b: seq<(GossipMessage, Decision)>,
                           y: seq<Request>)
    requires AllValidated(a, x) && AllValidated(b, y)
    ensures AllValidated(a + b, x + y)
  {
    hide ValidatedAs;
  }

  /** In a log, each message that did not crash the node is validated once, in order, and rightly. */
  lemma {:induction false} LogValidates(world: World, core: Core, events: seq<Incoming>, log: seq<Exchange>)
    requires Logged(world, core, events, log)
    ensures AllValidated(Judged(world, core, events), Validations(log))
    decreases |events|
  {
    if events == [] {
      StartValidatesNothing(log);
    } else {
      var cut: nat :| LoggedCut(world, core, events, log, cut);
      hide Script, JudgedOne, KeptAfter, Validations, AllValidated, Judged, Logged, StartScript;
      LogValidates(world, core, events[..|events| - 1], log[..cut]);
      LastValidates(world, core, events, log, cut);
    }
  }

  lemma LastValidates(world: World, core: Core, events: seq<Incoming>, log: seq<Exchange>, cut: nat)
    requires events != [] && cut <= |log|
    requires Script(world, KeptAfter(world, core, events[..|events| - 1]), events[|events| - 1], log[cut..])
    requires AllValidated(Judged(world, core, events[..|events| - 1]), Validations(log[..cut]))
    ensures AllValidated(Judged(world, core, events), Validations(log))
  {
    hide Script, JudgedOne, KeptAfter, Validations, AllValidated;
    var front, last := events[..|events| - 1], events[|events| - 1];
    ScriptValidates(world, KeptAfter(world, core, front), last, log[cut..]);
    ValidationsConcat(log[..cut], log[cut..]);
    assert log == log[..cut] + log[cut..];
    AllValidatedConcat(Judged(world, core, front), Validations(log[..cut]),
                       JudgedOne(world, KeptAfter(world, core, front), last), Validations(log[cut..]));
  }
}

/**
 The compute node as the source has it: compute/src/node.rs and the publishing half of
 compute/src/handlers/workflow.rs.

 `incoming` is what the arms of the `select!` yield, in the order in which they win. Commands go
 through the commander to the peer-to-peer client, which nobody else commands.
 */
module ComputeNodes {
  import opened Wrappers
  import opened Network
  import opened Tasks
  import opened Handlers
  import opened NodeEvents
  import opened P2PClients
  import Message
  import System
  import C = ClientProcess

  datatype Failure = NotSubscribed | NotUnsubscribed | NotEncrypted | NotPublished | Panicked

  // ---------------------------------------------------------------- what some events do to the node

  lemma {:induction false} InputsOfKindConcat(a: seq<WorkerInput>, b: seq<WorkerInput>, batchable: bool)
    ensures System.InputsOfKind(a + b, batchable) ==
      System.InputsOfKind(a, batchable) + System.InputsOfKind(b, batchable)
    decreases |b|
  {
    if b == [] {
      assert a + b == a;
    } else {
      var n := |b| - 1;
      assert (a + b)[..|a| + n] == a + b[..n];
      InputsOfKindConcat(a, b[..n], batchable);
    }
  }

  /** What the node keeps, what it has sent to each worker, and all its answered commands. */
  datatype View = View(core: Core, sentBatch: seq<WorkerInput>, sentSingle: seq<WorkerInput>, log: seq<Exchange>)
  {
    function Sent(batchable: bool): seq<WorkerInput> {
      if batchable then sentBatch else sentSingle
    }
  }

  /** What one event makes of a view, given whether its publication failed. */
  ghost predicate Turned(world: World, v: View, event: Incoming, fails: bool, v': View) {
    && v'.core == Keeping(world, v.core, event)
    && (forall b :: v'.Sent(b) == v.Sent(b) + System.InputsOfKind(Admitted(world, v.core, event), b))
    && v.log <= v'.log
    && Handled(world, v.core, event, v'.log[|v.log|..], fails)
  }

  /** What some events make of a view, given which of their outputs were published. */
  ghost predicate Took(world: World, v: View, events: seq<Incoming>, published: seq<WorkerOutput>, v': View) {
    && v'.core == KeptAfter(world, v.core, events)
    && (forall b :: v'.Sent(b) == v.Sent(b) + System.InputsOfKind(AllAdmitted(world, v.core, events), b))
    && Published(v'.log) == Published(v.log) + published
  }

  /** The outputs that are published when the last event's publication fails, or when none does. */
  function PublishedOf(events: seq<Incoming>, fails: bool): seq<WorkerOutput> {
    if events != [] && events[|events| - 1].Output? && fails then Outputs(events[..|events| - 1]) else Outputs(events)
  }

  lemma TookNothing(world: World, v: View, v': View)
    requires v' == v.(log := v'.log) && Published(v'.log) == Published(v.log)
    ensures Took(world, v, [], Outputs([]), v')
  {
    hide Published;
  }

  lemma TookOneMore(world: World, v: View, events: seq<Incoming>, v': View, event: Incoming, fails: bool, v'': View)
    requires Took(world, v, events, Outputs(events), v') && Turned(world, v', event, fails, v'')
    ensures Took(world, v, events + [event], PublishedOf(events + [event], fails), v'')
  {
    hide KeptAfter, AllAdmitted, Outputs, Keeping, System.InputsOfKind, Published, PublishedOf, Turned;
    OneMore(world, v.core, events, event);
    TurnKeeps(world, v', event, fails, v'');
    PublishedOneMore(world, v', events, event, fails, v'');
    forall b ensures v''.Sent(b) == v.Sent(b) + System.InputsOfKind(AllAdmitted(world, v.core, events + [event]), b) {
      SentOneMore(world, v, events, v', event, fails, v'', b);
    }
    var x := Published(v''.log[|v'.log|..]);
    assert (Published(v.log) + Outputs(events)) + x == Published(v.log) + (Outputs(events) + x);
  }

  lemma TurnKeeps(world: World, v: View, event: Incoming, fails: bool, v': View)
    requires Turned(world, v, event, fails, v')
    ensures v'.core == Keeping(world, v.core, event) && v.log <= v'.log
  {
    hide Handled, Keeping, Admitted, System.InputsOfKind;
  }

  lemma SentOneMore(world: World, v: View, events: seq<Incoming>, v': View, event: Incoming, fails: bool, v'': View,
                    batchable: bool)
    requires Took(world, v, events, Outputs(events), v') && Turned(world, v', event, fails, v'')
    ensures v''.Sent(batchable)
         == v.Sent(batchable) + System.InputsOfKind(AllAdmitted(world, v.core, events + [event]), batchable)
  {
    OneMore(world, v.core, events, event);
    hide KeptAfter, AllAdmitted, Outputs, Admitted, Keeping, System.InputsOfKind, Handled, Published;
    SentGrows(v.Sent(batchable), AllAdmitted(world, v.core, events), Admitted(world, v'.core, event), batchable);
  }

  lemma SentGrows(sent: seq<WorkerInput>, admitted: seq<WorkerInput>, more: seq<WorkerInput>, batchable: bool)
    ensures sent + System.InputsOfKind(admitted, batchable) + System.InputsOfKind(more, batchable)
         == sent + System.InputsOfKind(admitted + more, batchable)
  {
    hide System.InputsOfKind;
    InputsOfKindConcat(admitted, more, batchable);
  }

  lemma PublishedOneMore(world: World, v: View, events: seq<Incoming>, event: Incoming, fails: bool, v': View)
    requires Turned(world, v, event, fails, v')
    ensures Outputs(events) + Published(v'.log[|v.log|..]) == PublishedOf(events + [event], fails)
    ensures Published(v'.log) == Published(v.log) + Published(v'.log[|v.log|..])
  {
    hide Keeping, Admitted, System.InputsOfKind, Handled, Published;
    assert (events + [event])[..|events|] == events;
    var x := v'.log[|v.log|..];
    HandlingPublishes(world, v.core, event, x, fails);
    PublishedConcat(v.log, x);
    assert v'.log == v.log + x;
    assert Outputs(events) + [] == Outputs(events);
  }

  /** What holds at the head of the loop: nothing has failed, and all commands so far are logged. */
  ghost predicate LoopInv(world: World, v: View, events: seq<Incoming>, start: nat, v': View) {
    && start <= |v.log| && v.log <= v'.log
    && Took(world, v, events, Outputs(events), v')
    && Logged(world, v.core, events, v'.log[start..])
  }

  lemma LoopStarts(world: World, v: View, start: nat)
    requires start <= |v.log| && StartScript(v.log[start..])
    ensures LoopInv(world, v, [], start, v)
  {
    TookNothing(world, v, v);
    hide StartScript, Took;
  }

  lemma TurnHandles(world: World, v: View, event: Incoming, fails: bool, v': View)
    requires Turned(world, v, event, fails, v')
    ensures v.log <= v'.log && Handled(world, v.core, event, v'.log[|v.log|..], fails)
  {
    hide Handled, Keeping, Admitted, System.InputsOfKind;
  }

  lemma LogGoesOn(world: World, core: Core, events: seq<Incoming>, log: seq<Exchange>, event: Incoming,
                  log': seq<Exchange>)
    requires Logged(world, core, events, log) && !EndsLoop(event) && log <= log'
    requires Handled(world, KeptAfter(world, core, events), event, log'[|log|..], false)
    ensures Logged(world, core, events + [event], log')
  {
    hide Logged, Handled, Script, KeptAfter;
    var x := log'[|log|..];
    HandledIsScript(world, KeptAfter(world, core, events), event, x);
    LogOneMore(world, core, events, log, event, x);
    assert log' == log + x;
  }

  lemma LoopGoesOn(world: World, v: View, events: seq<Incoming>, start: nat, v': View, event: Incoming, v'': View)
    requires LoopInv(world, v, events, start, v') && Turned(world, v', event, false, v'') && !EndsLoop(event)
    ensures LoopInv(world, v, events + [event], start, v'')
  {
    hide Took, Logged, Handled, Turned, Outputs, KeptAfter, PublishedOf, EndsLoop;
    TookOneMore(world, v, events, v', event, false, v'');
    NothingFails(events + [event]);
    TookCore(world, v, events, Outputs(events), v');
    TurnHandles(world, v', event, false, v'');
    assert v''.log[start..][|v'.log[start..]|..] == v''.log[|v'.log|..];
    LogGoesOn(world, v.core, events, v'.log[start..], event, v''.log[start..]);
  }

  lemma NothingFails(events: seq<Incoming>)
    ensures PublishedOf(events, false) == Outputs(events)
  {
  }

  lemma TookCore(world: World, v: View, events: seq<Incoming>, published: seq<WorkerOutput>, v': View)
    requires Took(world, v, events, published, v')
    ensures v'.core == KeptAfter(world, v.core, events)
  {
  }

  lemma LoopCore(world: World, v: View, events: seq<Incoming>, start: nat, v': View)
    requires LoopInv(world, v, events, start, v')
    ensures v'.core == KeptAfter(world, v.core, events)
  {
    TookCore(world, v, events, Outputs(events), v');
  }

  /** The events of a loop that is over: all but the last are logged, the last is handled. */
  ghost predicate LoopLogged(world: World, core: Core, events: seq<Incoming>, log: seq<Exchange>, cut: nat,
                             fails: bool) {
    && events != [] && cut <= |log|
    && var front := events[..|events| - 1];
       && Logged(world, core, front, log[..cut])
       && Handled(world, KeptAfter(world, core, front), events[|events| - 1], log[cut..], fails)
  }

  /** The loop is over: all events but the last are logged, and the last is handled. */
  ghost predicate LoopOver(world: World, v: View, events: seq<Incoming>, start: nat, before: nat, fails: bool,
                           v': View) {
    && events != [] && start <= |v.log| && v.log <= v'.log && start <= before <= |v'.log|
    && Took(world, v, events, PublishedOf(events, fails), v')
    && LoopLogged(world, v.core, events, v'.log[start..], before - start, fails)
  }

  lemma LoopIsOver(world: World, v: View, events: seq<Incoming>, start: nat, v': View, event: Incoming, fails: bool,
                   v'': View)
    requires LoopInv(world, v, events, start, v') && Turned(world, v', event, fails, v'')
    ensures LoopOver(world, v, events + [event], start, |v'.log|, fails, v'')
  {
    hide Took, Logged, Handled, Turned, Outputs, KeptAfter, PublishedOf;
    TookOneMore(world, v, events, v', event, fails, v'');
    TookCore(world, v, events, Outputs(events), v');
    TurnHandles(world, v', event, fails, v'');
    assert (events + [event])[..|events|] == events;
    var log, cut := v''.log[start..], |v'.log| - start;
    assert log[..cut] == v'.log[start..] && log[cut..] == v''.log[|v'.log|..];
  }

  /** Commands that publish nothing do not matter for what some events make of a view. */
  lemma LaterPublications(world: World, v: View, events: seq<Incoming>, published: seq<WorkerOutput>, v': View,
                          v'': View)
    requires Took(world, v, events, published, v')
    requires v'' == v'.(log := v''.log) && v'.log <= v''.log && Published(v''.log[|v'.log|..]) == []
    ensures Took(world, v, events, published, v'')
  {
    hide Published, KeptAfter, AllAdmitted, System.InputsOfKind;
    PublishedConcat(v'.log, v''.log[|v'.log|..]);
    assert v''.log == v'.log + v''.log[|v'.log|..];
  }

  lemma EarlierPublications(world: World, v: View, v': View, events: seq<Incoming>, published: seq<WorkerOutput>,
                            v'': View)
    requires v' == v.(log := v'.log) && v.log <= v'.log && Published(v'.log[|v.log|..]) == []
    requires Took(world, v', events, published, v'')
    ensures Took(world, v, events, published, v'')
  {
    hide Published, KeptAfter, AllAdmitted, System.InputsOfKind;
    PublishedConcat(v.log, v'.log[|v.log|..]);
    assert v'.log == v.log + v'.log[|v.log|..];
  }

  // ---------------------------------------------------------------- start and stop

  lemma SwitchingPublishesNothing(subscribe: bool, x: seq<Exchange>, ok: bool)
    requires Switched(subscribe, x, ok)
    ensures Published(x) == []
  {
    NothingPublished(x);
  }

  lemma ShutdownPublishesNothing(x: seq<Exchange>)
    requires IsShutdown(x)
    ensures Published(x) == []
  {
    NothingPublished(x);
  }

  lemma StartSucceeded(x: seq<Exchange>)
    requires Switched(true, x, true)
    ensures StartScript(x)
  {
  }

  lemma StartFailed(world: World, core: Core, x: seq<Exchange>)
    requires Switched(true, x, false)
    ensures forall y :: IsShutdown(y) ==> Logged(world, core, [], x + y)
  {
    forall y | IsShutdown(y) ensures Logged(world, core, [], x + y) {
      assert (x + y)[..|x + y| - 1] == x && (x + y)[|x + y| - 1..] == y;
      hide Switched, IsShutdown;
    }
  }

  lemma StopFailed(x: seq<Exchange>)
    requires Switched(false, x, false)
    ensures forall y :: IsShutdown(y) ==> StopScript(x + y)
  {
    forall y | IsShutdown(y) ensures StopScript(x + y) {
      assert (x + y)[..|x + y| - 1] == x && (x + y)[|x + y| - 1..] == y;
      hide Switched;
    }
  }

  lemma StopSucceeded(x: seq<Exchange>, counts: Exchange, y: seq<Exchange>)
    requires Switched(false, x, true) && Published(x) == [] && counts.request.PeerCounts? && IsShutdown(y)
    ensures StopScript(x + [counts] + y) && Published(x + [counts] + y) == []
  {
    assert StopScript(x + [counts] + y) by {
      var z := x + [counts] + y;
      assert z[..|z| - 2] == x && z[|z| - 2] == counts && z[|z| - 1..] == y;
      hide Switched, Published;
    }
    hide Switched, StopScript;
    NothingPublished([counts]);
    NothingPublished(y);
    PublishedConcat(x, [counts]);
    PublishedConcat(x + [counts], y);
  }

  /** The last event of a run, and what follows it. */
  lemma LastEvent(world: World, core: Core, events: seq<Incoming>, log: seq<Exchange>, event: Incoming,
                  x: seq<Exchange>,
                  fails: bool, y: seq<Exchange>)
    requires Logged(world, core, events, log) && Handled(world, KeptAfter(world, core, events), event, x, fails)
    requires CloseScript(event, fails, y)
    ensures Logged(world, core, events + [event], log + (x + y))
  {
    hide Handled, CloseScript, Logged, Script;
    ClosedIsScript(world, KeptAfter(world, core, events), event, x, fails, y);
    LogOneMore(world, core, events, log, event, x + y);
  }

  lemma LoopEnds(world: World, core: Core, events: seq<Incoming>, log: seq<Exchange>, cut: nat, fails: bool,
                 y: seq<Exchange>)
    requires LoopLogged(world, core, events, log, cut, fails) && CloseScript(events[|events| - 1], fails, y)
    ensures Logged(world, core, events, log + y)
  {
    hide Handled, CloseScript, Logged;
    var n := |events| - 1;
    LastEvent(world, core, events[..n], log[..cut], events[n], log[cut..], fails, y);
    assert events == events[..n] + [events[n]];
    assert log + y == log[..cut] + (log[cut..] + y);
  }

  /** A panic sends nothing more; a failed publication leaves the Shutdown to come. */
  lemma LoopBreaks(world: World, core: Core, events: seq<Incoming>, log: seq<Exchange>, cut: nat, fails: bool)
    requires events != [] && LoopLogged(world, core, events, log, cut, fails)
    ensures !fails && !EndsLoop(events[|events| - 1]) ==> Logged(world, core, events, log)
    ensures fails ==> forall y :: IsShutdown(y) ==> Logged(world, core, events, log + y)
  {
    hide LoopLogged, Logged, IsShutdown;
    if fails {
      forall y | IsShutdown(y) ensures Logged(world, core, events, log + y) {
        LoopEnds(world, core, events, log, cut, fails, y);
      }
    } else if !EndsLoop(events[|events| - 1]) {
      LoopEnds(world, core, events, log, cut, fails, []);
      assert log + [] == log;
    }
  }

  /** After the end of the loop come the commands of `Stop`. */
  lemma LoopStops(world: World, core: Core, events: seq<Incoming>, log: seq<Exchange>, cut: nat, z: seq<Exchange>)
    requires LoopLogged(world, core, events, log, cut, false) && EndsLoop(events[|events| - 1])
    ensures StopScript(z) ==> Logged(world, core, events, log + z)
    ensures (forall y :: IsShutdown(y) ==> StopScript(z + y)) ==>
      forall y :: IsShutdown(y) ==> Logged(world, core, events, (log + z) + y)
  {
    hide LoopLogged, Logged, IsShutdown, StopScript;
    if StopScript(z) {
      LoopEnds(world, core, events, log, cut, false, z);
    }
    if forall y :: IsShutdown(y) ==> StopScript(z + y) {
      forall y | IsShutdown(y) ensures Logged(world, core, events, (log + z) + y) {
        LoopEnds(world, core, events, log, cut, false, z + y);
        assert (log + z) + y == log + (z + y);
      }
    }
  }

  // ---------------------------------------------------------------- single events

  lemma OutputTurn(world: World, v: View, output: WorkerOutput, encrypted: bool, fails: bool, v': View)
    requires v' == v.(core := Completing(v.core, output), log := v'.log) && v.log <= v'.log
    requires PublishScript(output, encrypted, v'.log[|v.log|..], fails)
    ensures Turned(world, v, Output(output, encrypted), fails, v')
  {
    hide PublishScript, Completing;
  }

  lemma MessageTurn(world: World, v: View, message: GossipMessage, moment: Moment, v': View)
    requires v'.core == Keeping(world, v.core, Received(message, moment))
    requires forall b ::
      v'.Sent(b) == v.Sent(b) + System.InputsOfKind(Admitted(world, v.core, Received(message, moment)), b)
    requires v.log <= v'.log
    requires MessageScript(v.core, message, Decide(world, v.core.rpc, message, moment), v'.log[|v.log|..])
    ensures Turned(world, v, Received(message, moment), false, v')
  {
    hide MessageScript, Keeping, Admitted, System.InputsOfKind, Decide;
  }

  lemma RefreshTurn(world: World, v: View, peers: set<PeerId>, addresses: seq<string>, v': View)
    requires v' == v.(core := v.core.(rpc := v.core.rpc + peers), log := v'.log) && v.log <= v'.log
    requires |v'.log| == |v.log| + |addresses|
    requires forall k :: 0 <= k < |addresses| ==> v'.log[|v.log| + k].request == Dial(addresses[k])
    ensures Turned(world, v, Refreshed(peers, addresses), false, v')
  {
  }

  /** Other events leave the node as it is, but for the commands they make it send. */
  lemma QuietTurn(world: World, v: View, event: Incoming, v': View, x: seq<Exchange>)
    requires !event.Output? && !event.Received? && !event.Refreshed?
    requires v' == v.(log := v.log + x) && Handled(world, v.core, event, x, false)
    ensures Turned(world, v, event, false, v')
  {
    assert v'.log[|v.log|..] == x;
    hide Handled;
  }

  /** Whether a publication failed. */
  predicate Fails(failure: Option<Failure>) {
    failure.Some? && failure != Some(Panicked)
  }

  /** The answer to a ping: its id and the numbers of pending tasks. */
  function PongOf(core: Core, uuid: string): Request {
    Publish(PONG_TOPIC, Pong(uuid, |core.pendingSingle|, |core.pendingBatch|))
  }

  lemma OneAnswer(before: seq<Reply>, after: seq<Reply>, command: Command)
    requires before <= after && AnswerAll(after[|before|..], [] + [command])
    ensures after == before + [Reply(command.tag, command.request, after[|after| - 1].ok)]
  {
    assert after == before + after[|before|..];
  }

  /** Only Shutdown closes the client's command channel. */
  lemma ClosesOnShutdown(c: C.Client, c': C.Client)
    requires C.Inv(c) && C.Inv(c') && !c.closed
    requires c'.replies != [] && c'.replies[..|c'.replies| - 1] == c.replies
    ensures c'.closed <==> c'.replies[|c'.replies| - 1].request.Shutdown?
  {
    var n := |c.replies|;
    forall i | 0 <= i < n ensures !c'.replies[i].request.Shutdown? {
      assert c'.replies[i] == c.replies[i];
    }
  }

  lemma PingsAdmitNothing(world: World, m: Message.DriaMessage, moment: Moment)
    ensures !HandlePing(world, m, moment).Admit?
  {
  }

  // ---------------------------------------------------------------- the node

  class DriaComputeNode {
    const world: World
    const p2p: DriaP2PCommander
    /** `dria_nodes.rpc_peerids`. */
    var rpcPeerIds: set<PeerId>
    /** What has been sent to each worker, as far as there is one. */
    var workflowBatchTx: Option<seq<WorkerInput>>
    var workflowSingleTx: Option<seq<WorkerInput>>
    var pendingTasksSingle: set<string>
    var pendingTasksBatch: set<string>
    var completedTasksSingle: nat
    var completedTasksBatch: nat

    ghost predicate Valid()
      reads this, p2p, p2p.client
    {
      && p2p.client.Valid() && p2p.client.connected && p2p.client.queue == []
      && (workflowBatchTx.Some? <==> WorkerExists(world, true))
      && (workflowSingleTx.Some? <==> WorkerExists(world, false))
    }

    /** The command channel is open, as it is until the node shuts down. */
    ghost predicate Open()
      reads this, p2p, p2p.client
    {
      Valid() && !p2p.client.closed
    }

    ghost function Kept(): Core
      reads this
    {
      Core(pendingTasksSingle, pendingTasksBatch, completedTasksSingle, completedTasksBatch, rpcPeerIds)
    }

    ghost function Sent(batchable: bool): seq<WorkerInput>
      reads this
    {
      var tx := if batchable then workflowBatchTx else workflowSingleTx;
      if tx.Some? then tx.value else []
    }

    /** The commands answered so far, with their outcomes. */
    ghost function Commands(): seq<Exchange>
      reads this, p2p, p2p.client
    {
      Log(p2p.client.replies)
    }

    ghost function State(): View
      reads this, p2p, p2p.client
    {
      View(Kept(), Sent(true), Sent(false), Commands())
    }

    /** A worker is created exactly for the kinds of models that are configured. */
    constructor (world: World, p2p: DriaP2PCommander, rpcPeerIds: set<PeerId>)
      requires p2p.client.Valid() && p2p.client.connected && p2p.client.queue == []
      ensures Valid() && this.world == world && this.p2p == p2p
      ensures Kept() == Core({}, {}, 0, 0, rpcPeerIds)
      ensures Sent(true) == Sent(false) == []
    {
      this.world, this.p2p, this.rpcPeerIds := world, p2p, rpcPeerIds;
      workflowBatchTx := if WorkerExists(world, true) then Some([]) else None;
      workflowSingleTx := if WorkerExists(world, false) then Some([]) else None;
      pendingTasksSingle, pendingTasksBatch := {}, {};
      completedTasksSingle, completedTasksBatch := 0, 0;
    }

    method GetPendingTaskCount() returns (single: nat, batch: nat)
      ensures single == |Kept().Pending(false)| && batch == |Kept().Pending(true)|
    {
      single, batch := |pendingTasksSingle|, |pendingTasksBatch|;
    }

    /** A command to the peer-to-peer client and the wait for its reply. */
    method CallP2P(request: Request) returns (ok: bool)
      requires Open()
      modifies p2p, p2p.client
      ensures Valid() && (p2p.client.closed <==> request.Shutdown?)
      ensures Commands() == old(Commands()) + [Exchange(request, ok)]
    {
      hide C.Inv, AnswerAll;
      var result := p2p.Call(request);
      ok := result.value.ok;
      OneAnswer(old(p2p.client.replies), p2p.client.replies, Command(old(p2p.nextTag), request));
      ClosesOnShutdown(old(p2p.client.process), p2p.client.process);
    }

    /** `publish`: the payload under its topic. */
    method Publish(topic: string, payload: Payload) returns (ok: bool)
      requires Open()
      modifies p2p, p2p.client
      ensures Open() && Commands() == old(Commands()) + [Exchange(Request.Publish(topic, payload), ok)]
    {
      ok := CallP2P(Request.Publish(topic, payload));
    }

    /** Sends a task to the worker for its kind and remembers its id; false stands for a missing worker. */
    method SendToWorker(input: WorkerInput) returns (found: bool)
      requires Valid()
      modifies this`workflowBatchTx, this`workflowSingleTx, this`pendingTasksBatch, this`pendingTasksSingle
      ensures Valid() && found == WorkerExists(world, input.batchable)
      ensures found ==>
        Kept() == Admitting(old(Kept()), input) && Sent(input.batchable) == old(Sent(input.batchable)) + [input]
      ensures !found ==> Kept() == old(Kept()) && Sent(input.batchable) == old(Sent(input.batchable))
      ensures Sent(!input.batchable) == old(Sent(!input.batchable))
    {
      if input.batchable {
        match workflowBatchTx {
          case None => return false;
          case Some(sent) =>
            pendingTasksBatch := pendingTasksBatch + {input.taskId};
            workflowBatchTx := Some(sent + [input]);
        }
      } else {
        match workflowSingleTx {
          case None => return false;
          case Some(sent) =>
            pendingTasksSingle := pendingTasksSingle + {input.taskId};
            workflowSingleTx := Some(sent + [input]);
        }
      }
      found := true;
    }

    /** The effect of a decision about a message: what is kept, sent and published, and the verdict. */
    twostate predicate CarriesOut(decision: Decision, new acceptance: Option<Acceptance>)
      reads this, p2p, p2p.client
    {
      && rpcPeerIds == old(rpcPeerIds)
      && match decision
         case Validate(verdict) => acceptance == Some(verdict) && Quiet()
         case Crash => acceptance == None && Quiet()
         case AnswerPing(uuid) => Kept() == old(Kept()) && SameSent() && exists ok ::
             && Commands() == old(Commands()) + [Exchange(PongOf(old(Kept()), uuid), ok)]
             && acceptance == Some(if ok then Accept else Ignore)
         case Admit(input) =>
           && acceptance == Some(Accept) && Commands() == old(Commands())
           && Kept() == Admitting(old(Kept()), input)
           && Sent(input.batchable) == old(Sent(input.batchable)) + [input]
           && Sent(!input.batchable) == old(Sent(!input.batchable))
    }

    twostate predicate SameSent()
      reads this
    {
      Sent(true) == old(Sent(true)) && Sent(false) == old(Sent(false))
    }

    twostate predicate Quiet()
      reads this, p2p, p2p.client
    {
      Kept() == old(Kept()) && SameSent() && Commands() == old(Commands())
    }

    /** `handle_message`: carries out what `Decide` says; no verdict stands for a panic. */
    method HandleMessage(message: GossipMessage, moment: Moment) returns (acceptance: Option<Acceptance>)
      requires Open()
      modifies this`workflowBatchTx, this`workflowSingleTx, this`pendingTasksBatch, this`pendingTasksSingle
      modifies p2p, p2p.client
      ensures Open()
      ensures CarriesOut(Decide(world, old(rpcPeerIds), message, moment), acceptance)
    {
      hide C.Inv, HandleCompute, HandlePing, Message.IsSigned, WorkerExists;
      if message.topic == PING_TOPIC || message.topic == TASK_TOPIC {
        if message.source.None? {
          return Some(Ignore);
        }
        if message.source.value !in rpcPeerIds {
          return Some(Ignore);
        }
        match world.parseMessage(message.data) {
          case None => return Some(Ignore);
          case Some(m) =>
            match Message.IsSigned(world.crypto, m, world.adminKey) {
              case Panic => return None;
              case Failure(_) => return Some(Ignore);
              case Done(valid) =>
                if !valid {
                  return Some(Reject);
                }
            }
            acceptance := HandleBody(m, moment);
        }
      } else if message.topic == PONG_TOPIC || message.topic == RESULTS_TOPIC {
        acceptance := Some(Accept);
      } else {
        acceptance := Some(Reject);
      }
    }

    /** The part of `handle_message` behind the checks. */
    method HandleBody(m: Message.DriaMessage, moment: Moment) returns (acceptance: Option<Acceptance>)
      requires Open()
      modifies this`workflowBatchTx, this`workflowSingleTx, this`pendingTasksBatch, this`pendingTasksSingle
      modifies p2p, p2p.client
      ensures Open()
      ensures CarriesOut(Dispatch(world, m, moment), acceptance)
    {
      hide C.Inv, HandleCompute, HandlePing, WorkerExists;
      if m.topic == TASK_TOPIC {
        match HandleCompute(world, m, moment) {
          case Left(verdict) => return Some(verdict);
          case Error => return Some(Ignore);
          case Panics => return None;
          case Right(input) =>
            var sent := SendToWorker(input);
            return if sent then Some(Accept) else None;
        }
      } else if m.topic == PING_TOPIC {
        match HandlePing(world, m, moment) {
          case Validate(verdict) => return Some(verdict);
          case Crash => return None;
          case AnswerPing(uuid) =>
            var single, batch := GetPendingTaskCount();
            var ok := Publish(PONG_TOPIC, Pong(uuid, single, batch));
            assert Commands() == old(Commands()) + [Exchange(PongOf(old(Kept()), uuid), ok)];
            return Some(if ok then Accept else Ignore);
          case Admit(_) => assert false by { PingsAdmitNothing(world, m, moment); }
        }
      } else {
        return None;
      }
    }

    /**
     `handle_publish`: the outcome, and if it cannot be published a notice that it could not. Exactly
     one publication of the output succeeds, or the call fails and none did.
     */
    method HandlePublish(output: WorkerOutput, encrypted: bool) returns (failure: Option<Failure>)
      requires Open()
      modifies p2p, p2p.client
      ensures Open() && old(Commands()) <= Commands()
      ensures PublishScript(output, encrypted, Commands()[|old(Commands())|..], failure.Some?)
      ensures failure == Some(NotEncrypted) <==> output.result.Answer? && !encrypted
      ensures failure.Some? ==> failure.value.NotEncrypted? || failure.value.NotPublished?
    {
      hide C.Inv;
      if output.result.Answer? && !encrypted {
        return Some(NotEncrypted);
      }
      var ok := Publish(RESULTS_TOPIC, OutcomeOf(output));
      if !ok {
        ok := Publish(RESULTS_TOPIC, NoticeFor(output));
      }
      failure := if ok then None else Some(NotPublished);
    }

    /** An output is counted and its id forgotten, then it is published. */
    method TakeOutput(output: WorkerOutput, encrypted: bool) returns (failure: Option<Failure>)
      requires Open()
      modifies this`pendingTasksSingle, this`pendingTasksBatch, this`completedTasksSingle, this`completedTasksBatch
      modifies p2p, p2p.client
      ensures Open() && Kept() == Completing(old(Kept()), output)
      ensures old(Commands()) <= Commands()
      ensures PublishScript(output, encrypted, Commands()[|old(Commands())|..], failure.Some?)
      ensures failure.Some? ==> failure.value.NotEncrypted? || failure.value.NotPublished?
    {
      hide C.Inv, PublishScript, WorkerExists;
      if output.batchable {
        completedTasksBatch := completedTasksBatch + 1;
        pendingTasksBatch := pendingTasksBatch - {output.taskId};
      } else {
        completedTasksSingle := completedTasksSingle + 1;
        pendingTasksSingle := pendingTasksSingle - {output.taskId};
      }
      failure := HandlePublish(output, encrypted);
    }

    /** `handle_request`: a known RPC node that asks for the specs is answered; errors are only logged. */
    method HandleRequest(request: InboundRequest, isSpec: bool)
      requires Open()
      modifies p2p, p2p.client
      ensures Open() && old(Commands()) <= Commands()
      ensures Handled(world, Kept(), Asked(request, isSpec), Commands()[|old(Commands())|..], false)
    {
      hide C.Inv;
      if request.peer in rpcPeerIds && isSpec {
        var ok := CallP2P(Respond(request.peer));
      }
    }

    /** Adds the refreshed peers and dials every RPC node, one after the other. */
    method HandleRefresh(peers: set<PeerId>, addresses: seq<string>)
      requires Open()
      modifies this`rpcPeerIds, p2p, p2p.client
      ensures Open() && Kept() == old(Kept()).(rpc := old(rpcPeerIds) + peers)
      ensures old(Commands()) <= Commands()
      ensures |Commands()| == |old(Commands())| + |addresses|
      ensures forall k :: 0 <= k < |addresses| ==> Commands()[|old(Commands())| + k].request == Dial(addresses[k])
    {
      hide C.Inv;
      rpcPeerIds := rpcPeerIds + peers;
      for i := 0 to |addresses|
        invariant Open() && rpcPeerIds == old(rpcPeerIds) + peers
        invariant old(Commands()) <= Commands() && |Commands()| == |old(Commands())| + i
        invariant forall k :: 0 <= k < i ==> Commands()[|old(Commands())| + k].request == Dial(addresses[k])
      {
        var ok := CallP2P(Dial(addresses[i]));
      }
    }

    /** A message is handled and then validated with the verdict of its own handling, unless that panics. */
    method TakeMessage(message: GossipMessage, moment: Moment) returns (failure: Option<Failure>)
      requires Open()
      modifies this`workflowBatchTx, this`workflowSingleTx, this`pendingTasksBatch, this`pendingTasksSingle
      modifies p2p, p2p.client
      ensures Open() && Kept() == Keeping(world, old(Kept()), Received(message, moment))
      ensures forall b ::
        Sent(b) == old(Sent(b)) + System.InputsOfKind(Admitted(world, old(Kept()), Received(message, moment)), b)
      ensures old(Commands()) <= Commands()
      ensures MessageScript(old(Kept()), message, Decide(world, old(rpcPeerIds), message, moment),
                            Commands()[|old(Commands())|..])
      ensures failure == if Malformed(world, old(rpcPeerIds), message, moment.now) then Some(Panicked) else None
    {
      hide C.Inv, Decide, Malformed, WorkerExists;
      CrashesExactly(world, rpcPeerIds, message, moment);
      var acceptance := HandleMessage(message, moment);
      match acceptance {
        case None => return Some(Panicked);
        case Some(verdict) =>
          var ok := CallP2P(ValidateMessage(message.id, message.propagatedBy, verdict));
          failure := None;
      }
    }

    /** The event made the node panic: a malformed message from a known RPC node. */
    ghost predicate Panics(core: Core, event: Incoming) {
      event.Received? && Malformed(world, core.rpc, event.message, event.moment.now)
    }

    /** One arm of the `select!`. */
    method Turn(event: Incoming) returns (failure: Option<Failure>)
      requires Open()
      modifies this, p2p, p2p.client
      ensures Open() && Turned(world, old(State()), event, failure.Some? && failure != Some(Panicked), State())
      ensures failure == Some(Panicked) <==> Panics(old(Kept()), event)
      ensures failure.Some? ==> !EndsLoop(event)
      ensures failure.Some? && failure != Some(Panicked) ==>
        event.Output? && (failure.value.NotEncrypted? || failure.value.NotPublished?)
    {
      hide C.Inv, Decide, Malformed, WorkerExists, PublishScript, MessageScript, System.InputsOfKind, Log, Turned,
           Keeping, Admitted, Admitting, Completing;
      failure := None;
      ghost var v, n := State(), |Commands()|;
      match event {
        case Output(output, encrypted) =>
          failure := TakeOutput(output, encrypted);
          OutputTurn(world, v, output, encrypted, failure.Some?, State());
        case Diagnostic =>
          var ok := CallP2P(PeerCounts);
          QuietTurn(world, v, event, State(), [Exchange(PeerCounts, ok)]);
        case Refreshed(peers, addresses) =>
          HandleRefresh(peers, addresses);
          RefreshTurn(world, v, peers, addresses, State());
        case Received(message, moment) =>
          failure := TakeMessage(message, moment);
          MessageTurn(world, v, message, moment, State());
        case Asked(request, isSpec) =>
          HandleRequest(request, isSpec);
          QuietTurn(world, v, event, State(), Commands()[n..]);
        case ChannelClosed => QuietTurn(world, v, event, State(), []);
        case Cancelled => QuietTurn(world, v, event, State(), []);
      }
    }

    /** Subscribes to the four topics, or unsubscribes from them, up to the first failure. */
    method SwitchTopics(subscribe: bool) returns (ok: bool)
      requires Open()
      modifies p2p, p2p.client
      ensures Open() && old(Commands()) <= Commands()
      ensures Switched(subscribe, Commands()[|old(Commands())|..], ok)
    {
      hide C.Inv, Switched, SwitchedSoFar, SwitchOf, WorkerExists, Log;
      ok := true;
      ghost var n := |Commands()|;
      NothingSwitched(subscribe);
      assert Commands()[n..] == [];
      for i := 0 to |TOPICS|
        invariant Open() && ok && old(Commands()) <= Commands() && |Commands()| == n + i
        invariant SwitchedSoFar(subscribe, Commands()[n..])
      {
        ghost var x := Commands()[n..];
        ok := CallP2P(SwitchOf(subscribe, i));
        SwitchedOneMore(subscribe, x, ok);
        SwitchIsNoShutdown(subscribe, i);
        assert Commands()[n..] == x + [Exchange(SwitchOf(subscribe, i), ok)];
        if !ok {
          return;
        }
      }
      SwitchedAll(subscribe, Commands()[n..]);
    }

    /** `shutdown`: the last command this node sends. */
    method Shutdown()
      requires Open()
      modifies p2p, p2p.client
      ensures Valid() && p2p.client.closed
      ensures old(Commands()) <= Commands() && IsShutdown(Commands()[|old(Commands())|..])
    {
      hide C.Inv;
      var _ := CallP2P(Request.Shutdown);
    }

    /**
     The `select!` loop. It waits for events until one ends it, so the last of those to come does.
     `before` is how many commands had been answered when the last event was taken.
     */
    method Loop(incoming: seq<Incoming>, ghost start: nat)
      returns (failure: Option<Failure>, taken: nat, ghost before: nat)
      requires Open() && incoming != [] && EndsLoop(incoming[|incoming| - 1])
      requires start <= |Commands()| && StartScript(Commands()[start..])
      modifies this, p2p, p2p.client
      ensures Open() && 1 <= taken <= |incoming|
      ensures LoopOver(world, old(State()), incoming[..taken], start, before, Fails(failure), State())
      ensures failure == Some(Panicked) <==>
        Panics(KeptAfter(world, old(Kept()), incoming[..taken - 1]), incoming[taken - 1])
      ensures failure.None? <==> EndsLoop(incoming[taken - 1])
      ensures failure.Some? ==> !failure.value.NotSubscribed? && !failure.value.NotUnsubscribed?
    {
      hide C.Inv, KeptAfter, Outputs, Turned, Took, LoopInv, LoopOver, Panics, WorkerExists, Open, Handled, Script,
           StartScript, Published, Log;
      failure, taken := None, 0;
      ghost var v := State();
      LoopStarts(world, v, start);
      assert incoming[..0] == [];
      while true
        invariant Open() && taken < |incoming| && failure.None?
        invariant LoopInv(world, v, incoming[..taken], start, State())
        decreases |incoming| - taken
      {
        var event := incoming[taken];
        ghost var v' := State();
        before := |v'.log|;
        failure := Turn(event);
        LoopCore(world, v, incoming[..taken], start, v');
        assert incoming[..taken + 1] == incoming[..taken] + [event];
        taken := taken + 1;
        if failure.Some? || EndsLoop(event) {
          LoopIsOver(world, v, incoming[..taken - 1], start, v', event, Fails(failure), State());
          return;
        }
        LoopGoesOn(world, v, incoming[..taken - 1], start, v', event, State());
      }
    }

    /** The end of `run`: unsubscribe, look at the peers once more, shut down. */
    method Stop() returns (ok: bool)
      requires Open()
      modifies p2p, p2p.client
      ensures Valid() && (p2p.client.closed <==> ok) && old(Commands()) <= Commands()
      ensures Published(Commands()[|old(Commands())|..]) == []
      ensures ok ==> StopScript(Commands()[|old(Commands())|..])
      ensures !ok ==> forall y :: IsShutdown(y) ==> StopScript(Commands()[|old(Commands())|..] + y)
    {
      hide C.Inv, Switched, IsShutdown, Published, StopScript;
      ghost var n := |Commands()|;
      ok := SwitchTopics(false);
      ghost var x := Commands()[n..];
      SwitchingPublishesNothing(false, x, ok);
      if !ok {
        StopFailed(x);
        return;
      }
      var up := CallP2P(PeerCounts);
      ghost var m := |Commands()|;
      Shutdown();
      ghost var y := Commands()[m..];
      StopSucceeded(x, Exchange(PeerCounts, up), y);
      assert Commands()[n..] == x + [Exchange(PeerCounts, up)] + y;
    }

    /**
     `run`. However it ends, what the node keeps, what it sent to each worker and what it published are
     determined by the events it took: every admitted task was sent once and in order, and every output
     taken was published exactly once, except one whose publication ended the loop. So are all its
     commands, up to the Shutdown that still follows a failure.
     */
    method Run(incoming: seq<Incoming>) returns (failure: Option<Failure>, taken: nat)
      requires Open() && incoming != [] && EndsLoop(incoming[|incoming| - 1])
      modifies this, p2p, p2p.client
      ensures Valid() && taken <= |incoming|
      ensures Took(world, old(State()), incoming[..taken], PublishedOf(incoming[..taken], Fails(failure)), State())
      ensures failure == Some(Panicked) <==>
        taken > 0 && Panics(KeptAfter(world, old(Kept()), incoming[..taken - 1]), incoming[taken - 1])
      ensures p2p.client.closed <==> failure.None?
      ensures old(Commands()) <= Commands()
      ensures failure.None? || failure == Some(Panicked) ==>
        Logged(world, old(Kept()), incoming[..taken], Commands()[|old(Commands())|..])
      ensures failure.Some? && failure != Some(Panicked) ==> forall x :: IsShutdown(x) ==>
        Logged(world, old(Kept()), incoming[..taken], Commands()[|old(Commands())|..] + x)
    {
      hide C.Inv, KeptAfter, Outputs, Panics, WorkerExists, AllAdmitted, System.InputsOfKind, Handled, Published,
           StartScript, StopScript, Logged, Switched, IsShutdown, Took;
      ghost var v := State();
      var ok := SwitchTopics(true);
      ghost var v1 := State();
      ghost var x := v1.log[|v.log|..];
      SwitchingPublishesNothing(true, x, ok);
      LaterPublications(world, v, [], Outputs([]), v, v1) by { TookNothing(world, v, v); }
      assert incoming[..0] == [];
      if !ok {
        StartFailed(world, v.core, x);
        return Some(NotSubscribed), 0;
      }
      StartSucceeded(x);
      ghost var before: nat;
      failure, taken, before := Loop(incoming, |v.log|);
      ghost var v2 := State();
      EarlierPublications(world, v, v1, incoming[..taken], PublishedOf(incoming[..taken], Fails(failure)), v2);
      ghost var loop := v2.log[|v.log|..];
      LoopBreaks(world, v.core, incoming[..taken], loop, before - |v.log|, Fails(failure));
      if failure.None? {
        ok := Stop();
        LoopStops(world, v.core, incoming[..taken], loop, before - |v.log|, Commands()[|v2.log|..]);
        assert Commands()[|v.log|..] == loop + Commands()[|v2.log|..];
        LaterPublications(world, v, incoming[..taken], PublishedOf(incoming[..taken], false), v2, State());
        if !ok {
          failure := Some(NotUnsubscribed);
        }
      }
    }

    /** What the program does with the node: run it, and shut it down if that failed. */
    method RunToEnd(incoming: seq<Incoming>) returns (failure: Option<Failure>, taken: nat)
      requires Open() && incoming != [] && EndsLoop(incoming[|incoming| - 1])
      modifies this, p2p, p2p.client
      ensures Valid() && taken <= |incoming| && old(Commands()) <= Commands()
      ensures Took(world, old(State()), incoming[..taken], PublishedOf(incoming[..taken], Fails(failure)), State())
      ensures Logged(world, old(Kept()), incoming[..taken], Commands()[|old(Commands())|..])
      ensures p2p.client.closed <==> failure != Some(Panicked)
    {
      hide C.Inv, Took, Logged, Panics, Published, WorkerExists;
      failure, taken := Run(incoming);
      if failure.Some? && failure != Some(Panicked) {
        ghost var v, n := State(), |old(Commands())|;
        Shutdown();
        ghost var y := Commands()[|v.log|..];
        ShutdownPublishesNothing(y);
        LaterPublications(world, old(State()), incoming[..taken], PublishedOf(incoming[..taken], true), v, State());
        assert Commands()[n..] == v.log[n..] + y;
      }
    }
  }
}

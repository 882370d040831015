/**
 The peer-to-peer client as a process of atomic steps: p2p/src/client.rs.

 `accepted`, `replies`, `seen` and `mark` are history: they never influence a step.
 */
module ClientProcess {
  import opened Wrappers
  import opened Network

  /** Forwarding is the wait inside `handle_event` for room in the node's channel. */
  datatype Phase = Polling | Forwarding(event: Event) | Returned

  /** How much had been accepted and seen when the command queue was closed. */
  datatype Mark = Mark(accepted: nat, seen: nat)

  datatype Client = Client(
    capacity: nat,
    queue: seq<Command>,
    connected: bool,
    closed: bool,
    phase: Phase,
    accepted: seq<Command>,
    replies: seq<Reply>,
    seen: seq<Event>,
    mark: Option<Mark>)

  function Fresh(capacity: nat): Client {
    Client(capacity, [], true, false, Polling, [], [], [], None)
  }

  datatype Action =
    | AcceptCommand(command: Command)
    | Disconnect
    | Serve(ok: bool)
    | See(event: Event)
    | Forward
    | Return

  /** Whether `cmd_rx.recv()` is ready, which in the biased `select!` excludes every event. */
  predicate CommandReady(c: Client) {
    c.queue != [] || c.closed || !c.connected
  }

  predicate Enabled(c: Client, a: Action) {
    match a
    case AcceptCommand(_) => c.connected && !c.closed && !c.phase.Returned? && |c.queue| < c.capacity
    case Disconnect => c.connected
    case Serve(_) => c.phase.Polling? && c.queue != []
    case See(_) => c.phase.Polling? && !CommandReady(c)
    case Forward => c.phase.Forwarding?
    case Return => c.phase.Polling? && c.queue == [] && CommandReady(c)
  }

  function Apply(c: Client, a: Action): Client
    requires Enabled(c, a)
  {
    match a
    case AcceptCommand(command) => c.(queue := c.queue + [command], accepted := c.accepted + [command])
    case Disconnect => c.(connected := false)
    case Serve(ok) =>
      var command := c.queue[0];
      var served := c.(queue := c.queue[1..],
                       replies := c.replies + [Reply(command.tag, command.request, ok)]);
      if command.request.Shutdown? && !c.closed
      then served.(closed := true, mark := Some(Mark(|c.accepted|, |c.seen|)))
      else served
    case See(event) =>
      var saw := c.(seen := c.seen + [event]);
      if event.Local? then saw else saw.(phase := Forwarding(event))
    case Forward => c.(phase := Polling)
    case Return => c.(phase := Returned)
  }

  ghost predicate Inv(c: Client) {
    && |c.queue| <= c.capacity
    && |c.queue| <= |c.accepted|
    && |c.replies| == |c.accepted| - |c.queue|
    && c.accepted[|c.replies|..] == c.queue
    && (forall i :: 0 <= i < |c.replies| ==> Answers(c.replies[i], c.accepted[i]))
    && (c.closed <==> c.mark.Some?)
    && (c.closed <==> exists i :: 0 <= i < |c.replies| && c.replies[i].request.Shutdown?)
    && (c.closed ==> c.mark.value == Mark(|c.accepted|, |c.seen|))
    && (c.phase.Forwarding? ==> !c.closed && !c.phase.event.Local?)
    && (c.phase.Returned? ==> c.queue == [] && (c.closed || !c.connected))
  }

  lemma FreshInv(capacity: nat)
    ensures Inv(Fresh(capacity))
  {
  }

  lemma ServeKeepsInv(c: Client, ok: bool)
    requires Inv(c) && Enabled(c, Serve(ok))
    ensures Inv(Apply(c, Serve(ok)))
  {
    var c' := Apply(c, Serve(ok));
    assert c.queue[0] == c.accepted[|c.replies|];
    if c.closed {
      var i :| 0 <= i < |c.replies| && c.replies[i].request.Shutdown?;
      assert c'.replies[i].request.Shutdown?;
    } else if c'.closed {
      assert c'.replies[|c.replies|].request.Shutdown?;
    } else {
      forall i | 0 <= i < |c'.replies| ensures !c'.replies[i].request.Shutdown? {
        if i < |c.replies| {
          assert c'.replies[i] == c.replies[i];
        }
      }
    }
  }

  /** Every step keeps the invariant, so it holds in every state of every run. */
  lemma StepKeepsInv(c: Client, a: Action)
    requires Inv(c) && Enabled(c, a)
    ensures Inv(Apply(c, a))
  {
    match a
    case AcceptCommand(_) =>
    case Disconnect =>
    case Serve(ok) => ServeKeepsInv(c, ok);
    case See(_) =>
    case Forward =>
    case Return =>
  }

  ghost predicate Reaches(c: Client, actions: seq<Action>, c': Client)
    decreases |actions|
  {
    if actions == [] then c' == c
    else Enabled(c, actions[0]) && Reaches(Apply(c, actions[0]), actions[1..], c')
  }

  lemma {:induction false} RunKeepsInv(c: Client, actions: seq<Action>, c': Client)
    requires Inv(c) && Reaches(c, actions, c')
    ensures Inv(c')
    decreases |actions|
  {
    if actions != [] {
      StepKeepsInv(c, actions[0]);
      RunKeepsInv(Apply(c, actions[0]), actions[1..], c');
    }
  }

  /**
   Whatever happens after the Shutdown command was answered, no further command is accepted and
   no further swarm event is handled; what was accepted before is answered in the order it came.
   */
  lemma {:induction false} NothingAfterShutdown(c: Client, actions: seq<Action>, c': Client)
    requires Inv(c) && Reaches(c, actions, c')
    requires exists i :: 0 <= i < |c.replies| && c.replies[i].request.Shutdown?
    ensures c'.accepted == c.accepted && c'.seen == c.seen
    ensures |c.replies| <= |c'.replies| <= |c.accepted|
    ensures forall i :: 0 <= i < |c'.replies| ==> Answers(c'.replies[i], c.accepted[i])
    decreases |actions|
  {
    if actions != [] {
      var c1 := Apply(c, actions[0]);
      StepKeepsInv(c, actions[0]);
      assert c.replies <= c1.replies;
      var i :| 0 <= i < |c.replies| && c.replies[i].request.Shutdown?;
      assert c1.replies[i].request.Shutdown?;
      NothingAfterShutdown(c1, actions[1..], c');
    }
  }

  /** Steps of the client itself, as opposed to what callers and the swarm do to it. */
  predicate Own(a: Action) {
    a.Serve? || a.Forward? || a.Return?
  }

  function Work(c: Client): nat {
    2 * |c.queue| + match c.phase case Polling => 1 case Forwarding(_) => 2 case Returned => 0
  }

  /** A closed client works off its queue and returns; nothing can delay it. */
  lemma ClosedClientDrains(c: Client) returns (a: Action)
    requires Inv(c) && c.closed && !c.phase.Returned?
    ensures Own(a) && Enabled(c, a)
    ensures forall b :: Enabled(c, b) && !b.Disconnect? ==> Own(b) && Work(Apply(c, b)) < Work(c)
  {
    a := if c.queue == [] then Return else Serve(true);
  }

  /** A client that has returned has answered every command it ever accepted. */
  lemma ReturnedClientAnsweredAll(c: Client)
    requires Inv(c) && c.phase.Returned?
    ensures |c.replies| == |c.accepted|
    ensures forall i :: 0 <= i < |c.accepted| ==> Answers(c.replies[i], c.accepted[i])
  {
  }

  /** The biased poll: an event is taken up only when every accepted command has been answered. */
  lemma EventsYieldToCommands(c: Client, event: Event)
    requires Inv(c) && Enabled(c, See(event))
    ensures |c.replies| == |c.accepted| && !c.closed
  {
  }
}

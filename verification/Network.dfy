/** What the node and its peer-to-peer client exchange: p2p/src/commands.rs, p2p/src/client.rs. */
module Network {
  import opened Wrappers
  import opened Tasks

  type Byte = x: int | 0 <= x < 256

  type PeerId = string
  type MessageId = string

  /** A gossipsub message together with its id and the peer it came through. */
  datatype GossipMessage = GossipMessage(
    id: MessageId, propagatedBy: PeerId, source: Option<PeerId>, topic: string, data: seq<Byte>)

  datatype InboundRequest = InboundRequest(peer: PeerId, data: seq<Byte>)

  datatype Acceptance = Accept | Reject | Ignore

  /**
   What the node publishes: a task's outcome, a notice that it could not be published, or a pong with
   the numbers of pending tasks.
   */
  datatype Payload =
    | OutcomeOf(output: WorkerOutput)
    | NoticeFor(output: WorkerOutput)
    | Pong(uuid: string, pendingSingle: nat, pendingBatch: nat)

  datatype Request =
    | NetworkInfo
    | Refresh
    | Peers
    | PeerCounts
    | Dial(address: string)
    | Subscribe(topic: string)
    | Unsubscribe(topic: string)
    | Publish(topic: string, payload: Payload)
    | Respond(peer: PeerId)
    | Ask(peer: PeerId)
    | ValidateMessage(id: MessageId, propagatedBy: PeerId, acceptance: Acceptance)
    | Shutdown

  /** `tag` names the fresh oneshot channel through which the reply comes back. */
  datatype Command = Command(tag: nat, request: Request)

  datatype Reply = Reply(tag: nat, request: Request, ok: bool)

  predicate Answers(reply: Reply, command: Command) {
    reply.tag == command.tag && reply.request == command.request
  }

  /** Swarm events: the two kinds that are forwarded to the node, and all others. */
  datatype Event = Gossip(message: GossipMessage) | Inbound(request: InboundRequest) | Local(what: string)

  /** The gossip messages among some events, in order. */
  ghost function Messages(events: seq<Event>): seq<GossipMessage> {
    if events == [] then []
    else
      var last := events[|events| - 1];
      Messages(events[..|events| - 1]) + if last.Gossip? then [last.message] else []
  }

  /** The inbound requests among some events, in order. */
  ghost function Requests(events: seq<Event>): seq<InboundRequest> {
    if events == [] then []
    else
      var last := events[|events| - 1];
      Requests(events[..|events| - 1]) + if last.Inbound? then [last.request] else []
  }

  lemma AppendedEvent(events: seq<Event>, event: Event)
    ensures Messages(events + [event]) == Messages(events) + if event.Gossip? then [event.message] else []
    ensures Requests(events + [event]) == Requests(events) + if event.Inbound? then [event.request] else []
  {
    assert (events + [event])[..|events|] == events;
  }
}

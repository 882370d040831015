/**
 The peer-to-peer client and its commander as the source has them: p2p/src/client.rs and
 p2p/src/commands.rs.

 `offers` is what callers still send, in order, and `events` what the swarm still yields; at every
 await point the environment moves any part of the offers into the command channel. Answers come
 from libp2p and are arbitrary. The ghost field `process` follows the loop step by step.
 */
module P2PClients {
  import opened Wrappers
  import opened Network
  import opened ClientProcess

  datatype CallError = CouldNotSend | CouldNotReceive

  /** What the replies to some commands say besides their outcome. */
  ghost predicate AnswerAll(replies: seq<Reply>, commands: seq<Command>) {
    && |replies| == |commands|
    && forall i :: 0 <= i < |replies| ==> Answers(replies[i], commands[i])
  }

  lemma AllAnswered(c: Client)
    requires Inv(c) && c.queue == []
    ensures AnswerAll(c.replies, c.accepted)
  {
  }

  lemma TailAnswered(replies: seq<Reply>, commands: seq<Command>, n: nat)
    requires AnswerAll(replies, commands) && n < |commands|
    ensures AnswerAll(replies[n..], commands[n..])
    ensures Answers(replies[|replies| - 1], commands[|commands| - 1])
  {
  }

  lemma QueueIsTail(c: Client)
    requires Inv(c)
    ensures |c.replies| + |c.queue| == |c.accepted| && c.accepted[|c.replies|..] == c.queue
  {
  }

  class DriaP2PClient {
    const capacity: nat
    /** The buffer of `cmd_rx`, whether it was closed here, and whether a sender still exists. */
    var queue: seq<Command>
    var closed: bool
    var connected: bool
    var returned: bool
    /** What went back through the oneshot channels, in order. */
    var replies: seq<Reply>
    /** What was forwarded to the node, in order. */
    var messages: seq<GossipMessage>
    var requests: seq<InboundRequest>
    var offers: seq<Command>
    var events: seq<Event>
    ghost var process: Client

    ghost predicate Valid()
      reads this
    {
      && capacity >= 1
      && Inv(process)
      && process.capacity == capacity
      && process.queue == queue
      && process.closed == closed
      && process.connected == connected
      && process.replies == replies
      && messages == Messages(process.seen)
      && requests == Requests(process.seen)
      && (!connected ==> offers == [])
      && |queue| <= capacity
      && (returned ==> closed || !connected)
      && process.phase == if returned then Returned else Polling
    }

    constructor (capacity: nat, offers: seq<Command>, events: seq<Event>)
      requires capacity >= 1
      ensures Valid() && !returned && process == Fresh(capacity)
      ensures this.offers == offers && this.events == events
    {
      this.capacity := capacity;
      queue, closed, connected, returned := [], false, true, false;
      replies, messages, requests := [], [], [];
      this.offers, this.events := offers, events;
      process := Fresh(capacity);
    }

    ghost method Step(a: Action)
      requires Inv(process) && Enabled(process, a)
      modifies this`process
      ensures process == Apply(old(process), a) && Inv(process)
    {
      StepKeepsInv(process, a);
      process := Apply(process, a);
    }

    /** `cmd_tx.send` of one caller goes through. */
    method Push(command: Command)
      requires Valid() && connected && !closed && !returned && |queue| < capacity
      modifies this`queue, this`process
      ensures Valid() && process == Apply(old(process), AcceptCommand(command))
    {
      Step(AcceptCommand(command));
      queue := queue + [command];
    }

    /** What callers may do while the client awaits; they hang up when they have nothing to send. */
    method Await()
      requires Valid() && !returned
      modifies this`queue, this`offers, this`connected, this`process
      ensures Valid() && process.phase == Polling
      ensures process.accepted + offers == old(process.accepted + offers)
      ensures process.seen == old(process.seen) && closed == old(closed) && process.mark == old(process.mark)
      ensures |offers| + |queue| == old(|offers| + |queue|)
      ensures CommandReady(process) || events != []
    {
      hide Inv;
      var stop: bool := *;
      while offers != [] && connected && !closed && |queue| < capacity && (!stop || queue == [])
        invariant Valid() && !returned
        invariant process.accepted + offers == old(process.accepted + offers)
        invariant process.seen == old(process.seen) && closed == old(closed) && process.mark == old(process.mark)
        invariant |offers| + |queue| == old(|offers| + |queue|)
        decreases |offers|
      {
        assert process.accepted + offers == process.accepted + [offers[0]] + offers[1..];
        Push(offers[0]);
        offers := offers[1..];
        stop := *;
      }
      if connected && offers == [] && (stop || queue == []) && events == [] {
        Step(Disconnect);
        connected := false;
      }
    }

    /** Answers a command through its own oneshot; Shutdown also closes the command channel. */
    method HandleCommand()
      requires Valid() && !returned && queue != []
      modifies this`queue, this`closed, this`replies, this`process
      ensures |replies| == |old(replies)| + 1 && old(replies) <= replies
      ensures Answers(replies[|replies| - 1], old(queue[0]))
      ensures Valid() && process == Apply(old(process), Serve(replies[|replies| - 1].ok))
      ensures queue == old(queue[1..]) && closed == (old(closed) || old(queue[0].request.Shutdown?))
    {
      var command := queue[0];
      queue := queue[1..];
      var ok: bool := *;
      if command.request.Shutdown? {
        closed := true;
      }
      replies := replies + [Reply(command.tag, command.request, ok)];
      Step(Serve(ok));
    }

    /** An event is taken up and, if it is one for the node, its forwarding goes through. */
    ghost method Sight(event: Event)
      requires Inv(process) && process.phase == Polling && !CommandReady(process)
      modifies this`process
      ensures Inv(process) && process == old(process).(seen := old(process.seen) + [event])
    {
      hide Inv;
      Step(See(event));
      if !event.Local? {
        Step(Forward);
      }
    }

    /** Forwards gossip messages and inbound requests to the node; other events stay here. */
    method HandleEvent(event: Event)
      requires Valid() && !returned && !CommandReady(process)
      modifies this`messages, this`requests, this`process
      ensures Valid() && process.seen == old(process.seen) + [event]
      ensures process == old(process).(seen := process.seen)
    {
      hide Inv, Messages, Requests;
      AppendedEvent(process.seen, event);
      Sight(event);
      match event {
        case Gossip(message) => messages := messages + [message];
        case Inbound(request) => requests := requests + [request];
        case Local(_) =>
      }
    }

    /** One turn of the biased `select!`. */
    method Turn()
      requires Valid() && !returned
      requires CommandReady(process) || events != []
      modifies this`queue, this`closed, this`replies, this`messages, this`requests, this`returned, this`events
      modifies this`process
      ensures Valid() && process.accepted == old(process.accepted)
      ensures process.seen + events == old(process.seen + events)
      ensures old(queue) != [] ==>
        && queue == old(queue[1..]) && |replies| == |old(replies)| + 1 && old(replies) <= replies
        && closed == (old(closed) || old(queue[0].request.Shutdown?))
        && !returned && events == old(events)
      ensures old(queue) == [] && old(CommandReady(process)) ==> returned && events == old(events)
      ensures old(queue) == [] && !old(CommandReady(process)) ==> !returned && queue == [] && |events| < |old(events)|
    {
      if queue != [] {
        HandleCommand();
      } else if closed || !connected {
        Step(Return);
        returned := true;
      } else {
        assert process.seen + events == process.seen + [events[0]] + events[1..];
        var event := events[0];
        events := events[1..];
        HandleEvent(event);
      }
    }

    /**
     Waits for commands and events, commands first, until the command channel is closed. Every
     accepted command is answered exactly once, in order, and once Shutdown has been answered
     nothing is accepted and no event is handled.
     */
    method Run()
      requires Valid() && !returned
      modifies this
      ensures Valid() && returned && queue == []
      ensures process.accepted <= old(process.accepted + offers)
      ensures AnswerAll(replies, process.accepted)
      ensures closed || offers == []
      ensures closed ==> process.mark == Some(Mark(|process.accepted|, |process.seen|))
      ensures process.seen + events == old(process.seen + events)
      ensures messages == Messages(process.seen) && requests == Requests(process.seen)
    {
      while !returned
        invariant Valid()
        invariant process.accepted + offers == old(process.accepted + offers)
        invariant process.seen + events == old(process.seen + events)
        invariant returned ==> closed || offers == []
        decreases !returned, |offers| + |events| + |queue|
      {
        Await();
        Turn();
      }
    }
  }

  class DriaP2PCommander {
    const client: DriaP2PClient
    var nextTag: nat

    constructor (client: DriaP2PClient)
      ensures this.client == client && nextTag == 0
    {
      this.client := client;
      nextTag := 0;
    }

    /** `sender.send(command).await`: waits for room, and fails only on a closed channel. */
    method Send(command: Command) returns (sent: bool)
      requires client.Valid() && client.connected
      modifies client
      ensures client.Valid() && client.connected == old(client.connected)
      ensures sent <==> !old(SendFails())
      ensures sent ==>
        && !client.returned && client.queue != []
        && client.process.accepted == old(client.process.accepted) + [command]
        && old(client.replies) <= client.replies
    {
      hide Inv;
      if client.closed {
        return false;
      }
      if |client.queue| == client.capacity {
        client.Turn();
        if client.closed {
          return false;
        }
      }
      client.Push(command);
      sent := true;
    }

    /** `receiver.await`: the client works off its queue, the last command of which is ours. */
    method Receive() returns (reply: Reply)
      requires client.Valid() && !client.returned && client.queue != []
      modifies client
      ensures client.Valid() && client.queue == [] && client.connected == old(client.connected)
      ensures client.process.accepted == old(client.process.accepted)
      ensures old(client.replies) <= client.replies
      ensures AnswerAll(client.replies, client.process.accepted)
      ensures |client.replies| > 0 && reply == client.replies[|client.replies| - 1]
    {
      hide Inv;
      while client.queue != []
        invariant client.Valid() && (client.queue != [] ==> !client.returned)
        invariant client.connected == old(client.connected)
        invariant client.process.accepted == old(client.process.accepted)
        invariant old(client.replies) <= client.replies
        invariant client.queue == [] ==> |client.replies| > 0
        decreases |client.queue|
      {
        client.Turn();
      }
      AllAnswered(client.process);
      reply := client.replies[|client.replies| - 1];
    }

    /**
     Every commander method: send the command with a fresh oneshot, then await the reply. The send
     fails only on a closed channel; otherwise everything queued before is answered first, in
     order, and the reply is the one to this very command.
     */
    method Call(request: Request) returns (result: Result<Reply, CallError>)
      requires client.Valid() && client.connected
      modifies this`nextTag, client
      ensures client.Valid() && client.connected && nextTag == old(nextTag) + 1
      ensures result.Err? ==> result.error == CouldNotSend
      ensures result.Ok? <==> !old(SendFails())
      ensures result.Ok? ==>
        && Answers(result.value, Command(old(nextTag), request))
        && client.queue == []
        && old(client.replies) <= client.replies
        && AnswerAll(client.replies[|old(client.replies)|..], old(client.queue) + [Command(old(nextTag), request)])
        && result.value == client.replies[|client.replies| - 1]
    {
      hide Inv, AnswerAll;
      QueueIsTail(client.process);
      var command := Command(nextTag, request);
      nextTag := nextTag + 1;
      var sent := Send(command);
      if !sent {
        return Err(CouldNotSend);
      }
      var reply := Receive();
      assert client.process.accepted[|old(client.replies)|..] == old(client.queue) + [command];
      TailAnswered(client.replies, client.process.accepted, |old(client.replies)|);
      result := Ok(reply);
    }

    /** The only way `cmd_tx.send` fails: the channel is closed, or closes while the send waits. */
    ghost predicate SendFails()
      reads this, client
    {
      client.closed || (client.capacity == |client.queue| && client.queue != [] && client.queue[0].request.Shutdown?)
    }
  }
}

/** What every step of the system keeps: queues, publications, counters, pending ids, provenance. */
module SystemAccounting {
  import opened Wrappers
  import opened Sequences
  import opened Network
  import opened Tasks
  import opened Handlers
  import opened System
  import opened SystemSafety
  import C = ClientProcess
  import W = WorkerProcess
  import WT = WorkerTheorems

  // ---------------------------------------------------------------- queues

  /** The publish channel is a bounded FIFO, and so are the channels from the client. */
  ghost predicate QueueInv(setup: Setup, s: State) {
    && s.history.sent == s.history.completed + s.outputs
    && |s.outputs| <= setup.sizes.publish
    && |s.messages| <= setup.sizes.messages
    && |s.requests| <= setup.sizes.requests
  }

  lemma WorkerStepKeepsQueues(setup: Setup, s: State, batchable: bool, step: W.Action)
    requires QueueInv(setup, s) && Enabled(setup, s, WorkerStep(batchable, step))
    ensures QueueInv(setup, WorkerStepOf(s, batchable, step))
  {
    hide W.Apply, W.Enabled;
  }

  lemma StepKeepsQueues(setup: Setup, s: State, a: Action)
    requires QueueInv(setup, s) && Enabled(setup, s, a)
    ensures QueueInv(setup, Apply(setup, s, a))
  {
    hide W.Apply, W.Enabled, C.Apply, C.Enabled, WorkerStepOf, Decide, InFlightId, Hangup;
    match a
    case WorkerStep(batchable, step) => WorkerStepKeepsQueues(setup, s, batchable, step);
    case TakeOutput(_) =>
      assert s.outputs == [s.outputs[0]] + s.outputs[1..];
    case _ =>
  }

  // ---------------------------------------------------------------- publications

  function GoalOf(phase: NodePhase): Option<Goal> {
    match phase
    case Calling(goal) => Some(goal)
    case Awaiting(goal, _) => Some(goal)
    case _ => None
  }

  function Publishing(phase: NodePhase): Option<WorkerOutput> {
    match GoalOf(phase)
    case None => None
    case Some(goal) => Publication(goal)
  }

  /** The loop is over: the node shuts down or is gone. */
  predicate Leaving(phase: NodePhase) {
    phase.Gone? || GoalOf(phase) == Some(ShuttingDown)
  }

  /** What was taken from the publish channel is published in order, all but the one in hand. */
  ghost predicate PublishInv(s: State) {
    var h := s.history;
    && h.published <= h.completed
    && |h.completed| <= |h.published| + 1
    && (Publishing(s.phase).Some? ==> h.completed == h.published + [Publishing(s.phase).value])
    && (Publishing(s.phase).None? && !Leaving(s.phase) ==> h.completed == h.published)
  }

  lemma TakeReplyKeepsPublish(s: State)
    requires PublishInv(s) && s.phase.Awaiting? && s.reply.Some?
    ensures PublishInv(TakeReplyStep(s))
  {
    hide Hangup;
  }

  lemma StepKeepsPublish(setup: Setup, s: State, a: Action)
    requires setup.sizes.Valid() && RpcInv(setup, s)
    requires PublishInv(s) && Enabled(setup, s, a)
    ensures PublishInv(Apply(setup, s, a))
  {
    hide W.Apply, W.Enabled, C.Apply, C.Enabled, Decide, InFlightId, Hangup, RpcInv, TakeReplyStep;
    match a
    case TakeReply => TakeReplyKeepsPublish(s);
    case CallFails => CallFailsNever(setup, s);
    case _ =>
  }

  // ---------------------------------------------------------------- counters

  ghost predicate CountInv(s: State, batchable: bool) {
    s.core.Completed(batchable) == |OutputsOfKind(s.history.completed, batchable)|
  }

  lemma StepKeepsCount(setup: Setup, s: State, a: Action, batchable: bool)
    requires CountInv(s, batchable) && Enabled(setup, s, a)
    ensures CountInv(Apply(setup, s, a), batchable)
  {
    hide W.Apply, W.Enabled, C.Apply, C.Enabled, Decide, InFlightId, Hangup, OutputsOfKind;
    if a.TakeOutput? {
      OutputsOfKindAppend(s.history.completed, s.outputs[0], batchable);
    }
  }

  // ---------------------------------------------------------------- conservation

  /** The tags of one kind between admission and completion, wherever they are. */
  function InFlight(s: State, batchable: bool): seq<TaskTag> {
    InputTags(s.Hand(batchable))
    + (match s.Worker(batchable) case None => [] case Some(w) => WT.Owed(w))
    + OutputTags(OutputsOfKind(s.outputs, batchable))
  }

  /**
   While the node lives, the admitted tasks of a kind are exactly those completed and those in
   flight: in the node's hand, in the worker's queue, buffer or execution, or in the publish channel.
   */
  lemma KindConservation(setup: Setup, s: State, batchable: bool)
    requires WorkerInv(setup, s, batchable) && QueueInv(setup, s) && !s.phase.Gone?
    ensures multiset(AdmittedTags(s.history, batchable))
         == multiset(CompletedTags(s.history, batchable)) + multiset(InFlight(s, batchable))
  {
    hide W.Inv, WT.Owed;
    OutputsOfKindConcat(s.history.completed, s.outputs, batchable);
    OutputTagsConcat(OutputsOfKind(s.history.completed, batchable), OutputsOfKind(s.outputs, batchable));
    match s.Worker(batchable)
    case None =>
      assert InputTags([]) == [] && OutputTags([]) == [];
    case Some(w) =>
      WT.Conservation(w);
      InputTagsConcat(w.accepted, s.Hand(batchable));
  }

  lemma OutstandingIsInFlight(setup: Setup, s: State, batchable: bool)
    requires WorkerInv(setup, s, batchable) && QueueInv(setup, s) && !s.phase.Gone?
    ensures Outstanding(s.history, batchable) == multiset(InFlight(s, batchable))
    ensures multiset(CompletedTags(s.history, batchable)) <= multiset(AdmittedTags(s.history, batchable))
  {
    hide WorkerInv, InFlight;
    KindConservation(setup, s, batchable);
  }

  /** The next output in the publish channel belongs to an outstanding task. */
  lemma NextOutputIsOutstanding(setup: Setup, s: State)
    requires WorkerInv(setup, s, true) && WorkerInv(setup, s, false) && QueueInv(setup, s)
    requires !s.phase.Gone? && s.outputs != []
    ensures s.outputs[0].Tag() in Outstanding(s.history, s.outputs[0].batchable)
  {
    hide WorkerInv, W.Inv, WT.Owed;
    var output := s.outputs[0];
    var b := output.batchable;
    OutstandingIsInFlight(setup, s, b);
    OutputsOfKindConcat([output], s.outputs[1..], b);
    assert s.outputs == [output] + s.outputs[1..];
    assert OutputsOfKind([output], b) == [output] by {
      OutputsOfKindAppend([], output, b);
      assert [] + [output] == [output];
    }
    assert OutputTags(OutputsOfKind(s.outputs, b))[0] == output.Tag();
    assert output.Tag() in multiset(OutputTags(OutputsOfKind(s.outputs, b)));
  }

  // ---------------------------------------------------------------- pending ids

  /** A set of ids each of which some tag carries is no larger than the bag of tags. */
  lemma {:induction false} CoveredIds(ids: set<string>, tags: multiset<TaskTag>)
    requires forall id :: id in ids ==> exists tag :: tag in tags && tag.taskId == id
    ensures |ids| <= |tags|
    decreases ids
  {
    if ids != {} {
      var id :| id in ids;
      var tag :| tag in tags && tag.taskId == id;
      forall other | other in ids - {id}
        ensures exists t :: t in tags - multiset{tag} && t.taskId == other
      {
        var t :| t in tags && t.taskId == other;
        assert t in tags - multiset{tag};
      }
      CoveredIds(ids - {id}, tags - multiset{tag});
    }
  }

  ghost predicate Covered(ids: set<string>, tags: multiset<TaskTag>) {
    forall id :: id in ids ==> exists tag :: tag in tags && tag.taskId == id
  }

  ghost predicate Matched(ids: set<string>, tags: multiset<TaskTag>) {
    && |ids| == |tags|
    && forall tag :: tag in tags ==> tag.taskId in ids
  }

  /** Pending ids are ids in flight; without re-entry they are all of them, once each. */
  ghost predicate PendingInv(s: State, batchable: bool) {
    var pending, outstanding := s.core.Pending(batchable), Outstanding(s.history, batchable);
    Covered(pending, outstanding) && (batchable !in s.history.reentered ==> Matched(pending, outstanding))
  }

  lemma AddPending(ids: set<string>, tags: multiset<TaskTag>, tag: TaskTag, once: bool)
    requires Covered(ids, tags)
    requires once ==> Matched(ids, tags) && !exists t :: t in tags && t.taskId == tag.taskId
    ensures Covered(ids + {tag.taskId}, tags + multiset{tag})
    ensures once ==> Matched(ids + {tag.taskId}, tags + multiset{tag})
  {
    forall id | id in ids + {tag.taskId}
      ensures exists t :: t in tags + multiset{tag} && t.taskId == id
    {
      if id == tag.taskId {
        assert tag in tags + multiset{tag};
      } else {
        var t :| t in tags && t.taskId == id;
        assert t in tags + multiset{tag};
      }
    }
    if once {
      assert tag.taskId !in ids;
    }
  }

  lemma RemoveCovered(ids: set<string>, tags: multiset<TaskTag>, tag: TaskTag)
    requires Covered(ids, tags)
    ensures Covered(ids - {tag.taskId}, tags - multiset{tag})
  {
    forall id | id in ids - {tag.taskId}
      ensures exists t :: t in tags - multiset{tag} && t.taskId == id
    {
      var t :| t in tags && t.taskId == id;
      assert t in tags - multiset{tag};
    }
  }

  /** If each tag has an id of its own, no second tag has the id of the one taken out. */
  lemma NoTwin(ids: set<string>, tags: multiset<TaskTag>, tag: TaskTag, twin: TaskTag)
    requires Covered(ids, tags) && Matched(ids, tags) && tag in tags
    requires twin in tags - multiset{tag}
    ensures twin.taskId != tag.taskId
  {
    if twin.taskId == tag.taskId {
      RemoveCovered(ids, tags, tag);
      forall id | id in ids
        ensures exists t :: t in tags - multiset{tag} && t.taskId == id
      {
        if id == tag.taskId {
          assert twin.taskId == id;
        } else {
          assert id in ids - {tag.taskId};
        }
      }
      CoveredIds(ids, tags - multiset{tag});
    }
  }

  lemma RemovePending(ids: set<string>, tags: multiset<TaskTag>, tag: TaskTag, once: bool)
    requires Covered(ids, tags) && tag in tags
    requires once ==> Matched(ids, tags)
    ensures Covered(ids - {tag.taskId}, tags - multiset{tag})
    ensures once ==> Matched(ids - {tag.taskId}, tags - multiset{tag})
  {
    RemoveCovered(ids, tags, tag);
    if once {
      forall t | t in tags - multiset{tag}
        ensures t.taskId in ids - {tag.taskId}
      {
        NoTwin(ids, tags, tag, t);
      }
    }
  }

  lemma AdmittedTagsGrow(h: History, h': History, admission: Admission, batchable: bool)
    requires h'.admitted == h.admitted + [admission]
    ensures AdmittedTags(h', batchable)
         == AdmittedTags(h, batchable) + if admission.input.batchable == batchable then [admission.input.Tag()] else []
  {
    hide InputsOfKind;
    var inputs := AdmittedInputs(h.admitted);
    assert AdmittedInputs(h'.admitted) == inputs + [admission.input];
    InputsOfKindAppend(inputs, admission.input, batchable);
  }

  lemma CompletedTagsGrow(h: History, h': History, output: WorkerOutput, batchable: bool)
    requires h'.completed == h.completed + [output]
    ensures CompletedTags(h', batchable)
         == CompletedTags(h, batchable) + if output.batchable == batchable then [output.Tag()] else []
  {
    hide OutputsOfKind;
    OutputsOfKindAppend(h.completed, output, batchable);
  }

  lemma SameCompleted(h: History, h': History, batchable: bool)
    requires h'.completed == h.completed
    ensures CompletedTags(h', batchable) == CompletedTags(h, batchable)
  {
  }

  lemma SameAdmitted(h: History, h': History, batchable: bool)
    requires h'.admitted == h.admitted
    ensures AdmittedTags(h', batchable) == AdmittedTags(h, batchable)
  {
  }

  lemma AdmitGrowsOutstanding(h: History, h': History, admission: Admission, batchable: bool)
    requires h'.admitted == h.admitted + [admission] && h'.completed == h.completed
    requires multiset(CompletedTags(h, batchable)) <= multiset(AdmittedTags(h, batchable))
    ensures admission.input.batchable == batchable ==>
      Outstanding(h', batchable) == Outstanding(h, batchable) + multiset{admission.input.Tag()}
    ensures admission.input.batchable != batchable ==> Outstanding(h', batchable) == Outstanding(h, batchable)
  {
    hide AdmittedTags, CompletedTags;
    AdmittedTagsGrow(h, h', admission, batchable);
    SameCompleted(h, h', batchable);
    AddThenSubtract(AdmittedTags(h, batchable), CompletedTags(h, batchable), admission.input.Tag());
  }

  lemma CompleteShrinksOutstanding(h: History, h': History, output: WorkerOutput, batchable: bool)
    requires h'.admitted == h.admitted && h'.completed == h.completed + [output]
    ensures output.batchable == batchable ==>
      Outstanding(h', batchable) == Outstanding(h, batchable) - multiset{output.Tag()}
    ensures output.batchable != batchable ==> Outstanding(h', batchable) == Outstanding(h, batchable)
  {
    hide AdmittedTags, CompletedTags;
    CompletedTagsGrow(h, h', output, batchable);
    SameAdmitted(h, h', batchable);
    SubtractOneMore(AdmittedTags(h, batchable), CompletedTags(h, batchable), output.Tag());
  }

  lemma TakeMessageKeepsPending(setup: Setup, s: State, moment: Moment, batchable: bool)
    requires WorkerInv(setup, s, batchable) && QueueInv(setup, s) && PendingInv(s, batchable)
    requires s.phase.LoopHead? && s.messages != []
    ensures PendingInv(TakeMessageStep(setup, s, moment), batchable)
  {
    hide WorkerInv, Decide, Outstanding, Covered, Matched, Hangup;
    var s' := TakeMessageStep(setup, s, moment);
    var message := s.messages[0];
    var h1 := s.history.(receipts := s.history.receipts + [Receipt(message, moment.now, s.core.rpc)]);
    SameOutstanding(s.history, h1, batchable);
    match Decide(setup.world, s.core.rpc, message, moment)
    case Admit(input) =>
      OutstandingIsInFlight(setup, s, batchable);
      AdmitGrowsOutstanding(s.history, s'.history, Admission(|s.history.receipts|, input), batchable);
      if input.batchable == batchable {
        AddPending(s.core.Pending(batchable), Outstanding(s.history, batchable), input.Tag(),
                   batchable !in s'.history.reentered);
      }
    case _ => SameOutstanding(s.history, s'.history, batchable);
  }

  lemma SameOutstanding(h: History, h': History, batchable: bool)
    requires h'.admitted == h.admitted && h'.completed == h.completed
    ensures Outstanding(h', batchable) == Outstanding(h, batchable)
  {
  }

  lemma TakeOutputKeepsPending(setup: Setup, s: State, encrypted: bool, batchable: bool)
    requires WorkerInv(setup, s, true) && WorkerInv(setup, s, false) && QueueInv(setup, s) && PendingInv(s, batchable)
    requires s.phase.LoopHead? && s.outputs != []
    ensures PendingInv(TakeOutputStep(s, encrypted), batchable)
  {
    hide WorkerInv, Outstanding, Covered, Matched;
    var output := s.outputs[0];
    var s' := TakeOutputStep(s, encrypted);
    CompleteShrinksOutstanding(s.history, s'.history, output, batchable);
    if output.batchable == batchable {
      NextOutputIsOutstanding(setup, s);
      RemovePending(s.core.Pending(batchable), Outstanding(s.history, batchable), output.Tag(),
                    batchable !in s.history.reentered);
    }
  }

  lemma QuietKeepsPending(setup: Setup, s: State, a: Action, batchable: bool)
    requires PendingInv(s, batchable) && Enabled(setup, s, a)
    requires !a.TakeMessage? && !a.TakeOutput?
    ensures PendingInv(Apply(setup, s, a), batchable)
  {
    hide Outstanding, Covered, Matched, W.Apply, W.Enabled, C.Apply, C.Enabled, Hangup;
    SameOutstanding(s.history, Apply(setup, s, a).history, batchable);
  }

  lemma StepKeepsPending(setup: Setup, s: State, a: Action, batchable: bool)
    requires WorkerInv(setup, s, true) && WorkerInv(setup, s, false) && QueueInv(setup, s)
    requires PendingInv(s, batchable) && Enabled(setup, s, a)
    ensures PendingInv(Apply(setup, s, a), batchable)
  {
    hide PendingInv, WorkerInv, QueueInv, TakeMessageStep, TakeOutputStep;
    match a
    case TakeMessage(moment) => TakeMessageKeepsPending(setup, s, moment, batchable);
    case TakeOutput(encrypted) => TakeOutputKeepsPending(setup, s, encrypted, batchable);
    case _ => QuietKeepsPending(setup, s, a, batchable);
  }

  // ---------------------------------------------------------------- provenance

  ghost predicate AdmissionOk(setup: Setup, h: History, rpc: set<PeerId>, admission: Admission) {
    && admission.receipt < |h.receipts|
    && var receipt := h.receipts[admission.receipt];
       && Warranted(setup.world, receipt.rpc, receipt.message, receipt.now, admission.input)
       && receipt.rpc <= rpc
  }

  /** Every admitted task rests on a receipt whose sender is still known. */
  ghost predicate ProvenanceInv(setup: Setup, s: State) {
    forall k :: 0 <= k < |s.history.admitted| ==> AdmissionOk(setup, s.history, s.core.rpc, s.history.admitted[k])
  }

  lemma TakeMessageKeepsProvenance(setup: Setup, s: State, moment: Moment)
    requires ProvenanceInv(setup, s) && s.messages != []
    ensures ProvenanceInv(setup, TakeMessageStep(setup, s, moment))
  {
    hide Decide, Warranted, InFlightId, Hangup;
    var s' := TakeMessageStep(setup, s, moment);
    var message := s.messages[0];
    var decision := Decide(setup.world, s.core.rpc, message, moment);
    forall k | 0 <= k < |s'.history.admitted|
      ensures AdmissionOk(setup, s'.history, s'.core.rpc, s'.history.admitted[k])
    {
      if k < |s.history.admitted| {
        assert AdmissionOk(setup, s.history, s.core.rpc, s.history.admitted[k]);
      } else {
        AdmittedIsWarranted(setup.world, s.core.rpc, message, moment, decision.input);
      }
    }
  }

  lemma StepKeepsProvenance(setup: Setup, s: State, a: Action)
    requires ProvenanceInv(setup, s) && Enabled(setup, s, a)
    ensures ProvenanceInv(setup, Apply(setup, s, a))
  {
    hide W.Apply, W.Enabled, C.Apply, C.Enabled, TakeMessageStep, Warranted, Hangup;
    match a
    case TakeMessage(moment) => TakeMessageKeepsProvenance(setup, s, moment);
    case _ =>
      var s' := Apply(setup, s, a);
      forall k | 0 <= k < |s'.history.admitted|
        ensures AdmissionOk(setup, s'.history, s'.core.rpc, s'.history.admitted[k])
      {
        assert AdmissionOk(setup, s.history, s.core.rpc, s.history.admitted[k]);
      }
  }

  // ---------------------------------------------------------------- delivery

  function ReceivedMessages(receipts: seq<Receipt>): (r: seq<GossipMessage>)
    ensures |r| == |receipts|
    ensures forall i :: 0 <= i < |r| ==> r[i] == receipts[i].message
  {
    seq(|receipts|, i requires 0 <= i < |receipts| => receipts[i].message)
  }

  /** The event the client is about to forward. */
  function Underway(client: C.Client): seq<Event> {
    if client.phase.Forwarding? then [client.phase.event] else []
  }

  /**
   The channels from the client are FIFO and lose nothing: what the swarm delivered is, in order, what
   the node took up, what waits for it, and what the client is about to forward.
   */
  ghost predicate DeliveryInv(s: State) {
    var seen, underway := s.client.seen, Underway(s.client);
    if s.phase.Gone? then
      && ReceivedMessages(s.history.receipts) <= Messages(seen)
      && s.history.asked <= Requests(seen)
    else
      && Messages(seen) == ReceivedMessages(s.history.receipts) + s.messages + Messages(underway)
      && Requests(seen) == s.history.asked + s.requests + Requests(underway)
  }

  lemma OneEvent(event: Event)
    ensures Messages([event]) == if event.Gossip? then [event.message] else []
    ensures Requests([event]) == if event.Inbound? then [event.request] else []
    ensures Messages([]) == [] && Requests([]) == []
  {
    assert [event][..0] == [];
  }

  lemma SeeKeepsDelivery(setup: Setup, s: State, event: Event)
    requires DeliveryInv(s) && Enabled(setup, s, See(event)) && !s.phase.Gone?
    ensures DeliveryInv(Apply(setup, s, See(event)))
  {
    hide Messages, Requests;
    AppendedEvent(s.client.seen, event);
    OneEvent(event);
    var r := ReceivedMessages(s.history.receipts);
    assert r + s.messages + [] == r + s.messages;
    assert s.history.asked + s.requests + [] == s.history.asked + s.requests;
  }

  lemma ForwardKeepsDelivery(setup: Setup, s: State)
    requires DeliveryInv(s) && Enabled(setup, s, Forward)
    ensures DeliveryInv(ForwardStep(s))
  {
    hide Messages, Requests;
    OneEvent(s.client.phase.event);
    var r := ReceivedMessages(s.history.receipts);
    assert forall x: seq<GossipMessage> :: r + s.messages + x == r + (s.messages + x);
    assert forall x: seq<InboundRequest> :: s.history.asked + s.requests + x == s.history.asked + (s.requests + x);
  }

  lemma TakeMessageKeepsDelivery(setup: Setup, s: State, moment: Moment)
    requires DeliveryInv(s) && s.messages != [] && !s.phase.Gone?
    ensures DeliveryInv(TakeMessageStep(setup, s, moment))
  {
    hide Decide, InFlightId, Messages, Requests, Hangup;
    var message := s.messages[0];
    var receipts' := s.history.receipts + [Receipt(message, moment.now, s.core.rpc)];
    assert ReceivedMessages(receipts') == ReceivedMessages(s.history.receipts) + [message];
    assert s.messages == [message] + s.messages[1..];
    assert ReceivedMessages(receipts') + s.messages[1..] == ReceivedMessages(s.history.receipts) + s.messages;
  }

  lemma TakeRequestKeepsDelivery(setup: Setup, s: State, isSpec: bool)
    requires DeliveryInv(s) && Enabled(setup, s, TakeRequest(isSpec))
    ensures DeliveryInv(Apply(setup, s, TakeRequest(isSpec)))
  {
    hide Messages, Requests;
    assert s.requests == [s.requests[0]] + s.requests[1..];
    assert (s.history.asked + [s.requests[0]]) + s.requests[1..] == s.history.asked + s.requests;
  }

  /** Steps that deliver nothing and take nothing up. */
  lemma QuietKeepsDelivery(s: State, s': State)
    requires DeliveryInv(s) && s'.client.seen == s.client.seen
    requires s'.history.receipts == s.history.receipts && s'.history.asked == s.history.asked
    requires s.phase.Gone? ==> s'.phase.Gone?
    requires !s'.phase.Gone? ==>
      s'.messages == s.messages && s'.requests == s.requests && Underway(s'.client) == Underway(s.client)
    ensures DeliveryInv(s')
  {
    hide Messages, Requests, Underway;
  }

  lemma QuietFrame(setup: Setup, s: State, a: Action)
    requires C.Inv(s.client) && Enabled(setup, s, a)
    requires !a.See? && !a.Forward? && !a.TakeMessage? && !a.TakeRequest?
    ensures
      var s' := Apply(setup, s, a);
      && s'.client.seen == s.client.seen
      && s'.history.receipts == s.history.receipts && s'.history.asked == s.history.asked
      && (s.phase.Gone? ==> s'.phase.Gone?)
      && s'.messages == s.messages && s'.requests == s.requests && Underway(s'.client) == Underway(s.client)
  {
    hide W.Apply, W.Enabled, C.Inv, InFlightId, Decide;
  }

  lemma StepKeepsDelivery(setup: Setup, s: State, a: Action)
    requires RpcInv(setup, s) && DeliveryInv(s) && Enabled(setup, s, a)
    ensures DeliveryInv(Apply(setup, s, a))
  {
    hide DeliveryInv, ForwardStep, TakeMessageStep, C.Inv, W.Apply, W.Enabled, WorkerStepOf, TakeReplyStep,
         TakeOutputStep, ServeStep;
    match a
    case See(event) => SeeKeepsDelivery(setup, s, event);
    case Forward => ForwardKeepsDelivery(setup, s);
    case TakeMessage(moment) => TakeMessageKeepsDelivery(setup, s, moment);
    case TakeRequest(isSpec) => TakeRequestKeepsDelivery(setup, s, isSpec);
    case _ =>
      QuietFrame(setup, s, a);
      QuietKeepsDelivery(s, Apply(setup, s, a));
  }
}

/** The invariant of the whole system, and what it means in every state of every run. */
module SystemRuns {
  import opened Wrappers
  import opened Network
  import opened Tasks
  import opened Handlers
  import opened System
  import opened SystemSafety
  import opened SystemAccounting
  import C = ClientProcess
  import W = WorkerProcess
  import WS = WorkerSafety

  // ---------------------------------------------------------------- publications on the wire

  /** The output a reply reports as published. */
  function PublishedBy(reply: Reply): Option<WorkerOutput> {
    if !reply.ok || !reply.request.Publish? then None
    else
      match reply.request.payload
      case OutcomeOf(output) => Some(output)
      case NoticeFor(output) => Some(output)
      case Pong(_, _, _) => None
  }

  /** The outputs whose publication the client reported as successful, in order. */
  function OnTheWire(replies: seq<Reply>): seq<WorkerOutput> {
    if replies == [] then []
    else
      var n := |replies| - 1;
      OnTheWire(replies[..n]) + match PublishedBy(replies[n]) case None => [] case Some(output) => [output]
  }

  /** The node's count of publications agrees with the client's, but for a reply still under way. */
  ghost predicate WireInv(s: State) {
    OnTheWire(s.client.replies)
    == s.history.published + match s.reply case None => [] case Some(reply) =>
         match PublishedBy(reply) case None => [] case Some(output) => [output]
  }

  lemma ServeKeepsWire(setup: Setup, s: State, ok: bool)
    requires RpcInv(setup, s) && WireInv(s) && C.Enabled(s.client, C.Serve(ok))
    ensures WireInv(ServeStep(s, ok))
  {
    var replies' := C.Apply(s.client, C.Serve(ok)).replies;
    assert replies'[..|replies'| - 1] == s.client.replies;
  }

  lemma TakeReplyKeepsWire(setup: Setup, s: State)
    requires RpcInv(setup, s) && WireInv(s) && s.phase.Awaiting? && s.reply.Some?
    ensures WireInv(TakeReplyStep(s))
  {
    var reply := s.reply.value;
    assert reply.request == RequestOf(s.phase.goal);
    assert PublishedBy(reply) == if reply.ok then Publication(s.phase.goal) else None;
    assert TakeReplyStep(s).client.replies == s.client.replies;
    assert s.history.published + [] == s.history.published;
  }

  lemma QuietKeepsWire(setup: Setup, s: State, a: Action)
    requires WireInv(s) && Enabled(setup, s, a)
    requires !a.Serve? && !a.TakeReply?
    ensures WireInv(Apply(setup, s, a))
  {
    hide OnTheWire, PublishedBy, W.Apply, W.Enabled, Decide, InFlightId, Hangup;
  }

  lemma StepKeepsWire(setup: Setup, s: State, a: Action)
    requires RpcInv(setup, s) && WireInv(s) && Enabled(setup, s, a)
    ensures WireInv(Apply(setup, s, a))
  {
    hide WireInv, RpcInv, ServeStep, TakeReplyStep;
    match a
    case Serve(ok) => ServeKeepsWire(setup, s, ok);
    case TakeReply => TakeReplyKeepsWire(setup, s);
    case _ => QuietKeepsWire(setup, s, a);
  }

  // ---------------------------------------------------------------- re-entry

  /** Two admitted tasks of one kind have the same id. */
  ghost predicate SharesId(h: History, batchable: bool) {
    exists i, j :: 0 <= i < j < |AdmittedTags(h, batchable)| && SameIdAt(AdmittedTags(h, batchable), i, j)
  }

  predicate SameIdAt(tags: seq<TaskTag>, i: nat, j: nat)
    requires i < |tags| && j < |tags|
  {
    tags[i].taskId == tags[j].taskId
  }

  ghost predicate ReentryInv(s: State, batchable: bool) {
    batchable in s.history.reentered ==> SharesId(s.history, batchable)
  }

  lemma SharesIdStays(h: History, h': History, batchable: bool)
    requires SharesId(h, batchable) && AdmittedTags(h, batchable) <= AdmittedTags(h', batchable)
    ensures SharesId(h', batchable)
  {
    var i: nat, j: nat :| 0 <= i < j < |AdmittedTags(h, batchable)| && SameIdAt(AdmittedTags(h, batchable), i, j);
    assert SameIdAt(AdmittedTags(h', batchable), i, j);
  }

  lemma ReentrySharesId(h: History, h': History, admission: Admission)
    requires h'.admitted == h.admitted + [admission]
    requires InFlightId(h, admission.input.batchable, admission.input.taskId)
    ensures SharesId(h', admission.input.batchable)
  {
    var b := admission.input.batchable;
    var tag :| tag in Outstanding(h, b) && tag.taskId == admission.input.taskId;
    AdmittedTagsGrow(h, h', admission, b);
    var tags := AdmittedTags(h, b);
    assert tag in multiset(tags);
    var i: nat :| i < |tags| && tags[i] == tag;
    assert SameIdAt(AdmittedTags(h', b), i, |tags|);
  }

  lemma TakeMessageKeepsReentry(setup: Setup, s: State, moment: Moment, batchable: bool)
    requires ReentryInv(s, batchable) && s.messages != []
    ensures ReentryInv(TakeMessageStep(setup, s, moment), batchable)
  {
    hide AdmittedTags, SharesId, InFlightId, Decide, Hangup;
    var s' := TakeMessageStep(setup, s, moment);
    var decision := Decide(setup.world, s.core.rpc, s.messages[0], moment);
    if decision.Admit? {
      var admission := Admission(|s.history.receipts|, decision.input);
      AdmittedTagsGrow(s.history, s'.history, admission, batchable);
      if batchable in s.history.reentered {
        SharesIdStays(s.history, s'.history, batchable);
      } else if batchable in s'.history.reentered {
        ReentrySharesId(s.history, s'.history, admission);
      }
    } else {
      QuietKeepsReentry(s, s', batchable);
    }
  }

  lemma QuietKeepsReentry(s: State, s': State, batchable: bool)
    requires ReentryInv(s, batchable)
    requires s'.history.admitted == s.history.admitted && s'.history.reentered == s.history.reentered
    ensures ReentryInv(s', batchable)
  {
    hide SharesId, AdmittedTags;
    SameAdmitted(s.history, s'.history, batchable);
    if SharesId(s.history, batchable) {
      SharesIdStays(s.history, s'.history, batchable);
    }
  }

  lemma StepKeepsReentry(setup: Setup, s: State, a: Action, batchable: bool)
    requires ReentryInv(s, batchable) && Enabled(setup, s, a)
    ensures ReentryInv(Apply(setup, s, a), batchable)
  {
    hide ReentryInv, TakeMessageStep, W.Apply, W.Enabled, C.Apply, C.Enabled, Hangup;
    match a
    case TakeMessage(moment) => TakeMessageKeepsReentry(setup, s, moment, batchable);
    case _ => QuietKeepsReentry(s, Apply(setup, s, a), batchable);
  }

  // ---------------------------------------------------------------- the invariant

  ghost predicate SystemInv(setup: Setup, s: State) {
    && setup.sizes.Valid()
    && RpcInv(setup, s)
    && WorkerInv(setup, s, true)
    && WorkerInv(setup, s, false)
    && QueueInv(setup, s)
    && PublishInv(s)
    && CountInv(s, true)
    && CountInv(s, false)
    && PendingInv(s, true)
    && PendingInv(s, false)
    && ProvenanceInv(setup, s)
    && WireInv(s)
    && DeliveryInv(s)
    && ReentryInv(s, true)
    && ReentryInv(s, false)
  }

  lemma InitInv(setup: Setup, rpc: set<PeerId>)
    requires setup.sizes.Valid()
    ensures SystemInv(setup, Init(setup, rpc))
  {
    hide RpcInv, WorkerInv, QueueInv, PublishInv, CountInv, PendingInv, ProvenanceInv, WireInv, DeliveryInv,
         ReentryInv, Init;
    InitWorker(setup, rpc, true);
    InitWorker(setup, rpc, false);
    InitRpc(setup, rpc);
    InitAccounts(setup, rpc, true);
    InitAccounts(setup, rpc, false);
    InitQueues(setup, rpc);
  }

  lemma InitRpc(setup: Setup, rpc: set<PeerId>)
    ensures RpcInv(setup, Init(setup, rpc))
  {
    C.FreshInv(setup.sizes.commands);
    hide WorkerExists;
  }

  lemma InitAccounts(setup: Setup, rpc: set<PeerId>, batchable: bool)
    ensures CountInv(Init(setup, rpc), batchable) && PendingInv(Init(setup, rpc), batchable)
  {
    hide WorkerExists;
    assert Outstanding(Init(setup, rpc).history, batchable) == multiset{};
  }

  lemma InitQueues(setup: Setup, rpc: set<PeerId>)
    ensures QueueInv(setup, Init(setup, rpc)) && PublishInv(Init(setup, rpc)) && ProvenanceInv(setup, Init(setup, rpc))
    ensures DeliveryInv(Init(setup, rpc))
    ensures WireInv(Init(setup, rpc)) && ReentryInv(Init(setup, rpc), true) && ReentryInv(Init(setup, rpc), false)
  {
    hide WorkerExists;
  }

  lemma InitWorker(setup: Setup, rpc: set<PeerId>, batchable: bool)
    requires setup.sizes.Valid()
    ensures WorkerInv(setup, Init(setup, rpc), batchable)
  {
    hide W.Inv, WorkerExists;
    var w := W.Fresh(ModeOf(setup, batchable), setup.sizes.workflow);
    WS.FreshInv(ModeOf(setup, batchable), setup.sizes.workflow);
    var s := Init(setup, rpc);
    assert s.Worker(batchable) == if WorkerExists(setup.world, batchable) then Some(w) else None;
  }

  /** Every step of every component keeps the invariant. */
  lemma StepKeepsInv(setup: Setup, s: State, a: Action)
    requires SystemInv(setup, s) && Enabled(setup, s, a)
    ensures SystemInv(setup, Apply(setup, s, a))
  {
    hide RpcInv, WorkerInv, QueueInv, PublishInv, CountInv, PendingInv, ProvenanceInv, WireInv, DeliveryInv, ReentryInv,
         Enabled, Apply;
    StepKeepsRpc(setup, s, a);
    StepKeepsWorker(setup, s, a, true);
    StepKeepsWorker(setup, s, a, false);
    StepKeepsQueues(setup, s, a);
    StepKeepsPublish(setup, s, a);
    StepKeepsCount(setup, s, a, true);
    StepKeepsCount(setup, s, a, false);
    StepKeepsPending(setup, s, a, true);
    StepKeepsPending(setup, s, a, false);
    StepKeepsProvenance(setup, s, a);
    StepKeepsWire(setup, s, a);
    StepKeepsDelivery(setup, s, a);
    StepKeepsReentry(setup, s, a, true);
    StepKeepsReentry(setup, s, a, false);
  }

  /** A state of a run but for the first is the one before after its step. */
  lemma StepOfRun(setup: Setup, states: seq<State>, actions: seq<Action>, i: nat)
    requires IsRun(setup, states, actions) && 0 < i < |states|
    ensures |states| == |actions| + 1
    ensures Enabled(setup, states[i - 1], actions[i - 1]) && states[i] == Apply(setup, states[i - 1], actions[i - 1])
  {
    hide Enabled, Apply, Init;
    assert IsStep(setup, states, actions, i - 1);
  }

  /** The invariant holds in every state of every run. */
  lemma {:induction false} RunKeepsInv(setup: Setup, states: seq<State>, actions: seq<Action>, i: nat)
    requires IsRun(setup, states, actions) && i < |states|
    ensures SystemInv(setup, states[i])
    decreases i
  {
    hide SystemInv, Enabled, Apply, Init;
    if i == 0 {
      var rpc :| states[0] == Init(setup, rpc);
      InitInv(setup, rpc);
    } else {
      RunKeepsInv(setup, states, actions, i - 1);
      assert IsStep(setup, states, actions, i - 1);
      StepKeepsInv(setup, states[i - 1], actions[i - 1]);
    }
  }
}

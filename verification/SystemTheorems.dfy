/** What holds in every state of every run of the system. */
module SystemTheorems {
  import opened Wrappers
  import opened Sequences
  import opened Network
  import opened Tasks
  import opened Handlers
  import opened System
  import opened SystemSafety
  import opened SystemAccounting
  import opened SystemRuns
  import C = ClientProcess
  import W = WorkerProcess
  import WT = WorkerTheorems

  // ---------------------------------------------------------------- conservation

  lemma {:induction false} KindsSplitInputs(inputs: seq<WorkerInput>)
    ensures multiset(InputTags(inputs))
         == multiset(InputTags(InputsOfKind(inputs, true))) + multiset(InputTags(InputsOfKind(inputs, false)))
    decreases |inputs|
  {
    if inputs != [] {
      var front, last := inputs[..|inputs| - 1], inputs[|inputs| - 1];
      KindsSplitInputs(front);
      assert inputs == front + [last];
      InputTagsConcat(front, [last]);
      InputTagsConcat(InputsOfKind(front, last.batchable), [last]);
      assert InputsOfKind(inputs, last.batchable) == InputsOfKind(front, last.batchable) + [last];
      assert InputsOfKind(inputs, !last.batchable) == InputsOfKind(front, !last.batchable);
      assert last.batchable == true || last.batchable == false;
    }
  }

  lemma {:induction false} KindsSplitOutputs(outputs: seq<WorkerOutput>)
    ensures multiset(OutputTags(outputs))
         == multiset(OutputTags(OutputsOfKind(outputs, true))) + multiset(OutputTags(OutputsOfKind(outputs, false)))
    decreases |outputs|
  {
    if outputs != [] {
      var front, last := outputs[..|outputs| - 1], outputs[|outputs| - 1];
      KindsSplitOutputs(front);
      assert outputs == front + [last];
      OutputTagsConcat(front, [last]);
      OutputTagsConcat(OutputsOfKind(front, last.batchable), [last]);
      assert OutputsOfKind(outputs, last.batchable) == OutputsOfKind(front, last.batchable) + [last];
      assert OutputsOfKind(outputs, !last.batchable) == OutputsOfKind(front, !last.batchable);
      assert last.batchable == true || last.batchable == false;
    }
  }

  /**
   End to end, at every loop head: the admitted tasks are exactly those published and those in the
   workers' queues, buffers and executions and in the publish channel. Under any interleaving
   nothing is lost, duplicated or altered.
   */
  lemma NothingIsLost(setup: Setup, states: seq<State>, actions: seq<Action>, i: nat)
    requires IsRun(setup, states, actions) && i < |states| && states[i].phase.LoopHead?
    ensures
      var s := states[i];
      multiset(InputTags(AdmittedInputs(s.history.admitted)))
      == multiset(OutputTags(s.history.published)) + multiset(InFlight(s, true)) + multiset(InFlight(s, false))
  {
    hide IsRun, InFlight, WorkerInv, RpcInv, PendingInv, ProvenanceInv, InputsOfKind, OutputsOfKind;
    RunKeepsInv(setup, states, actions, i);
    var s := states[i];
    KindConservation(setup, s, true);
    KindConservation(setup, s, false);
    KindsSplitInputs(AdmittedInputs(s.history.admitted));
    KindsSplitOutputs(s.history.completed);
  }

  // ---------------------------------------------------------------- order

  /** Tasks for the series worker are published in exactly the order in which they were admitted. */
  lemma SingleTasksKeepOrder(setup: Setup, states: seq<State>, actions: seq<Action>, i: nat)
    requires IsRun(setup, states, actions) && i < |states|
    ensures CompletedTags(states[i].history, false) <= AdmittedTags(states[i].history, false)
  {
    hide IsRun, W.Inv, RpcInv, PendingInv, ProvenanceInv, InputsOfKind, OutputsOfKind;
    RunKeepsInv(setup, states, actions, i);
    var s := states[i];
    CompletedIsPrefix(setup, s, false);
    match s.Worker(false)
    case None =>
    case Some(w) => WT.SeriesKeepsOrder(w);
  }

  lemma CompletedIsPrefix(setup: Setup, s: State, batchable: bool)
    requires WorkerInv(setup, s, batchable) && QueueInv(setup, s)
    ensures match s.Worker(batchable)
      case None => CompletedTags(s.history, batchable) == []
      case Some(w) =>
        && |CompletedTags(s.history, batchable)| <= |w.done|
        && CompletedTags(s.history, batchable) == OutputTags(w.done[..|CompletedTags(s.history, batchable)|])
        && InputTags(w.accepted) <= AdmittedTags(s.history, batchable)
  {
    hide W.Inv, InputsOfKind, OutputsOfKind;
    OutputsOfKindConcat(s.history.completed, s.outputs, batchable);
  }

  /** Where in the order of admission the p-th published batch task stood. */
  ghost predicate Origin(h: History, order: seq<nat>, p: nat) {
    && p < |CompletedTags(h, true)| && p < |order|
    && order[p] < |AdmittedTags(h, true)|
    && CompletedTags(h, true)[p] == AdmittedTags(h, true)[order[p]]
  }

  ghost predicate NoRepeats(order: seq<nat>) {
    forall p, q :: 0 <= p < q < |order| ==> order[p] != order[q]
  }

  /**
   Tasks for the batch worker are reordered within a window: each published one is a different
   admitted one, and one admitted a batch size or more before another is published before it.
   */
  lemma BatchTasksStayInWindow(setup: Setup, states: seq<State>, actions: seq<Action>, i: nat) returns (order: seq<nat>)
    requires IsRun(setup, states, actions) && i < |states|
    ensures |order| == |CompletedTags(states[i].history, true)|
    ensures forall p: nat :: p < |order| ==> Origin(states[i].history, order, p)
    ensures NoRepeats(order)
    ensures forall p: nat, q: nat :: p < |order| && q < |order| && order[p] + setup.sizes.batch <= order[q] ==> p < q
  {
    hide IsRun, W.Inv, RpcInv, PendingInv, ProvenanceInv, InputsOfKind, OutputsOfKind, WT.Owed;
    RunKeepsInv(setup, states, actions, i);
    var s := states[i];
    CompletedIsPrefix(setup, s, true);
    match s.Worker(true)
    case None => order := [];
    case Some(w) =>
      order := w.order[..|CompletedTags(s.history, true)|] by { WorkerOutputs(w); }
      WorkerOutputs(w);
      forall p: nat | p < |order| ensures Origin(s.history, order, p) {
        assert w.done[p].Tag() == w.accepted[w.order[p]].Tag();
        assert InputTags(w.accepted)[w.order[p]] == AdmittedTags(s.history, true)[w.order[p]];
      }
      forall p: nat, q: nat | p < |order| && q < |order| && order[p] + setup.sizes.batch <= order[q]
        ensures p < q
      {
        WT.BoundedReordering(w, p, q);
      }
      forall p, q | 0 <= p < q < |order| ensures order[p] != order[q] {
        OrderHasNoRepeats(w, p, q);
      }
  }

  lemma WorkerOutputs(w: W.Worker)
    requires W.Inv(w)
    ensures |w.order| == |w.done|
    ensures forall p :: 0 <= p < |w.order| ==>
      w.order[p] < |w.accepted| && w.done[p].Tag() == w.accepted[w.order[p]].Tag()
  {
  }

  /** The worker never hands out a task twice. */
  lemma OrderHasNoRepeats(w: W.Worker, p: nat, q: nat)
    requires W.Inv(w) && p < q < |w.order|
    ensures w.order[p] != w.order[q]
  {
    if w.order[p] == w.order[q] {
      if w.phase.Running? {
        WT.RunningPlaces(w, w.phase.base, w.phase.members);
        RangeMembers(0, w.Taken(), w.order[q]);
        TwiceInBag(w.order, p, q, W.Indices(w.phase.members));
      } else {
        RangeMembers(0, |w.order|, w.order[q]);
        assert w.order[0..|w.order|] == w.order;
        assert w.order + [] == w.order;
        TwiceInBag(w.order, p, q, []);
      }
    }
  }

  lemma TwiceInBag(s: seq<nat>, p: nat, q: nat, rest: seq<nat>)
    requires p < q < |s| && s[p] == s[q]
    ensures multiset(s + rest)[s[q]] >= 2
  {
    var all := s + rest;
    assert all == all[..p] + [all[p]] + all[p + 1..q] + [all[q]] + all[q + 1..];
  }

  // ---------------------------------------------------------------- pending ids

  /**
   The pending set of a kind holds only ids of tasks in flight, and never more ids than there are
   such tasks; the tasks admitted are those counted as completed and those in flight.
   */
  lemma PendingIsInFlight(setup: Setup, states: seq<State>, actions: seq<Action>, i: nat, batchable: bool)
    requires IsRun(setup, states, actions) && i < |states| && !states[i].phase.Gone?
    ensures Covered(states[i].core.Pending(batchable), multiset(InFlight(states[i], batchable)))
    ensures |states[i].core.Pending(batchable)| <= |InFlight(states[i], batchable)|
    ensures |AdmittedTags(states[i].history, batchable)| ==
      states[i].core.Completed(batchable) + |InFlight(states[i], batchable)|
  {
    hide IsRun, WorkerInv, RpcInv, ProvenanceInv, QueueInv, PublishInv, InFlight, InputsOfKind, OutputsOfKind,
         Outstanding, AdmittedTags;
    RunKeepsInv(setup, states, actions, i);
    var s := states[i];
    OutstandingIsInFlight(setup, s, batchable);
    KindConservation(setup, s, batchable);
    CoveredIds(s.core.Pending(batchable), Outstanding(s.history, batchable));
    assert |multiset(AdmittedTags(s.history, batchable))| == |AdmittedTags(s.history, batchable)|;
    assert |CompletedTags(s.history, batchable)| == s.core.Completed(batchable);
  }

  /** Without re-entry the pending ids are exactly the ids in flight, each of one task. */
  lemma PendingIsExact(setup: Setup, states: seq<State>, actions: seq<Action>, i: nat, batchable: bool)
    requires IsRun(setup, states, actions) && i < |states| && !states[i].phase.Gone?
    requires !SharesId(states[i].history, batchable)
    ensures forall id :: id in states[i].core.Pending(batchable) <==>
      exists k :: 0 <= k < |InFlight(states[i], batchable)| && InFlight(states[i], batchable)[k].taskId == id
    ensures |states[i].core.Pending(batchable)| == |InFlight(states[i], batchable)|
  {
    hide IsRun, WorkerInv, RpcInv, ProvenanceInv, QueueInv, PublishInv, InFlight, InputsOfKind, OutputsOfKind,
         Outstanding, AdmittedTags, SharesId;
    RunKeepsInv(setup, states, actions, i);
    var s := states[i];
    OutstandingIsInFlight(setup, s, batchable);
    var pending, flight := s.core.Pending(batchable), InFlight(s, batchable);
    assert Covered(pending, multiset(flight)) && Matched(pending, multiset(flight));
    forall id | id in pending
      ensures exists k :: 0 <= k < |flight| && flight[k].taskId == id
    {
      var tag :| tag in multiset(flight) && tag.taskId == id;
      var k :| 0 <= k < |flight| && flight[k] == tag;
    }
    forall k | 0 <= k < |flight| ensures flight[k].taskId in pending {
      assert flight[k] in multiset(flight);
    }
  }

  /** The pending set of a kind is as large as the number of tasks of that kind in flight. */
  ghost predicate CountsAgree(s: State, batchable: bool) {
    |s.core.Pending(batchable)| == |Outstanding(s.history, batchable)|
  }

  /** The step admits a task of the kind while one with the same id is in flight in that kind. */
  ghost predicate Reenters(setup: Setup, s: State, a: Action, batchable: bool) {
    && a.TakeMessage? && s.messages != []
    && var decision := Decide(setup.world, s.core.rpc, s.messages[0], a.moment);
       && decision.Admit?
       && decision.input.batchable == batchable
       && InFlightId(s.history, batchable, decision.input.taskId)
  }

  /** The ids of some tags together with one they already have cannot be as many as the tags and one more. */
  lemma TwinBreaksCount(ids: set<string>, tags: multiset<TaskTag>, id: string)
    requires Covered(ids, tags)
    requires exists tag :: tag in tags && tag.taskId == id
    ensures |ids + {id}| < |tags| + 1
  {
    assert Covered(ids + {id}, tags);
    CoveredIds(ids + {id}, tags);
  }

  /** Admitting an id that is already in flight makes the pending set too small. */
  lemma ReentryBreaksCount(setup: Setup, s: State, moment: Moment, input: WorkerInput)
    requires SystemInv(setup, s) && s.phase.LoopHead? && s.messages != []
    requires Decide(setup.world, s.core.rpc, s.messages[0], moment) == Admit(input)
    requires InFlightId(s.history, input.batchable, input.taskId)
    ensures !CountsAgree(TakeMessageStep(setup, s, moment), input.batchable)
  {
    var s' := TakeMessageStep(setup, s, moment);
    var b := input.batchable;
    AdmitEffect(setup, s, moment, input);
    hide WorkerInv, RpcInv, QueueInv, ProvenanceInv, PublishInv, WireInv, DeliveryInv, ReentryInv, CountInv, Decide,
         Outstanding, Matched, Covered, TakeMessageStep, Admitting;
    OutstandingIsInFlight(setup, s, b);
    AdmitGrowsOutstanding(s.history, s'.history, Admission(|s.history.receipts|, input), b);
    TwinBreaksCount(s.core.Pending(b), Outstanding(s.history, b), input.taskId);
    assert |Outstanding(s'.history, b)| == |Outstanding(s.history, b)| + 1;
    assert |s'.core.Pending(b)| != |Outstanding(s'.history, b)|;
  }

  lemma AdmitEffect(setup: Setup, s: State, moment: Moment, input: WorkerInput)
    requires s.messages != [] && Decide(setup.world, s.core.rpc, s.messages[0], moment) == Admit(input)
    ensures
      var s' := TakeMessageStep(setup, s, moment);
      && s'.core.Pending(input.batchable) == s.core.Pending(input.batchable) + {input.taskId}
      && s'.history.admitted == s.history.admitted + [Admission(|s.history.receipts|, input)]
      && s'.history.completed == s.history.completed
  {
    hide Decide, InFlightId, Hangup;
  }

  lemma MessageReentry(setup: Setup, s: State, moment: Moment, batchable: bool)
    requires s.phase.LoopHead? && s.messages != []
    ensures batchable in TakeMessageStep(setup, s, moment).history.reentered <==>
      batchable in s.history.reentered || Reenters(setup, s, TakeMessage(moment), batchable)
  {
    hide Decide, Hangup, InFlightId;
  }

  lemma OtherStepsDoNotReenter(setup: Setup, s: State, a: Action)
    requires Enabled(setup, s, a) && !a.TakeMessage?
    ensures Apply(setup, s, a).history.reentered == s.history.reentered
  {
    hide Outstanding, W.Apply, W.Enabled, C.Apply, C.Enabled, Hangup, Decide;
  }

  lemma StepReentry(setup: Setup, s: State, a: Action, batchable: bool)
    requires Enabled(setup, s, a)
    ensures batchable in Apply(setup, s, a).history.reentered <==>
      batchable in s.history.reentered || Reenters(setup, s, a, batchable)
  {
    hide Reenters, TakeMessageStep, TakeReplyStep, TakeOutputStep, ServeStep, ForwardStep,
         WorkerStepOf, Leave, W.Apply, W.Enabled, C.Apply, C.Enabled;
    if a.TakeMessage? {
      MessageReentry(setup, s, a.moment, batchable);
    } else {
      OtherStepsDoNotReenter(setup, s, a);
      OnlyMessagesReenter(setup, s, a, batchable);
    }
  }

  lemma OnlyMessagesReenter(setup: Setup, s: State, a: Action, batchable: bool)
    ensures Reenters(setup, s, a, batchable) ==> a.TakeMessage?
  {
  }

  lemma ReentryDisagrees(setup: Setup, s: State, a: Action, batchable: bool)
    requires SystemInv(setup, s) && Enabled(setup, s, a) && Reenters(setup, s, a, batchable)
    ensures !CountsAgree(Apply(setup, s, a), batchable)
  {
    hide SystemInv, CountsAgree, TakeMessageStep, InFlightId, Decide;
    ReentryBreaksCount(setup, s, a.moment, Decide(setup.world, s.core.rpc, s.messages[0], a.moment).input);
  }

  /** Some step before the i-th state re-enters. */
  ghost predicate ReenteredBefore(setup: Setup, states: seq<State>, actions: seq<Action>, i: nat, batchable: bool)
    requires i <= |actions| < |states|
  {
    exists j :: 0 <= j < i && Reenters(setup, states[j], actions[j], batchable)
  }

  lemma OneStepLater(setup: Setup, states: seq<State>, actions: seq<Action>, i: nat, batchable: bool)
    requires 0 < i <= |actions| < |states|
    ensures ReenteredBefore(setup, states, actions, i, batchable) <==>
      ReenteredBefore(setup, states, actions, i - 1, batchable) ||
        Reenters(setup, states[i - 1], actions[i - 1], batchable)
  {
    hide Reenters;
  }

  /** The record of re-entries is right. */
  lemma {:induction false} ReentryIsRecorded(setup: Setup, states: seq<State>, actions: seq<Action>, i: nat,
                                             batchable: bool)
    requires IsRun(setup, states, actions) && i <= |actions| < |states|
    ensures batchable in states[i].history.reentered <==> ReenteredBefore(setup, states, actions, i, batchable)
    decreases i
  {
    if i == 0 {
      InitHasNoReentry(setup, states, actions);
    } else {
      hide *;
      ReentryIsRecorded(setup, states, actions, i - 1, batchable);
      StepOfRun(setup, states, actions, i);
      StepReentry(setup, states[i - 1], actions[i - 1], batchable);
      OneStepLater(setup, states, actions, i, batchable);
    }
  }

  /** The counts of a kind agree in every state up to the i-th. */
  ghost predicate AgreeUpTo(states: seq<State>, i: nat, batchable: bool)
    requires i < |states|
  {
    forall j :: 0 <= j <= i ==> CountsAgree(states[j], batchable)
  }

  lemma AgreesOnceMore(states: seq<State>, i: nat, batchable: bool)
    requires 0 < i < |states|
    ensures AgreeUpTo(states, i, batchable) <==>
      AgreeUpTo(states, i - 1, batchable) && CountsAgree(states[i], batchable)
  {
    hide CountsAgree;
  }

  /**
   The size reported for the pending tasks of a kind is right in every state up to the i-th exactly
   if no step before admitted a task of the kind whose id was in flight in that kind at that moment.
   */
  lemma CountsAgreeIffNoReentry(setup: Setup, states: seq<State>, actions: seq<Action>, i: nat, batchable: bool)
    requires IsRun(setup, states, actions) && i <= |actions| < |states|
    ensures (forall j :: 0 <= j <= i ==> CountsAgree(states[j], batchable))
       <==> !(exists j :: 0 <= j < i && Reenters(setup, states[j], actions[j], batchable))
  {
    AgreeIff(setup, states, actions, i, batchable);
    hide Reenters, CountsAgree;
  }

  lemma {:induction false} AgreeIff(setup: Setup, states: seq<State>, actions: seq<Action>, i: nat, batchable: bool)
    requires IsRun(setup, states, actions) && i <= |actions| < |states|
    ensures AgreeUpTo(states, i, batchable) <==> !ReenteredBefore(setup, states, actions, i, batchable)
    decreases i
  {
    if i == 0 {
      InitHasNoReentry(setup, states, actions);
      RunKeepsInv(setup, states, actions, i);
      hide SystemInv, CountsAgree;
      NoReentryAgrees(setup, states[0], batchable);
    } else {
      hide *;
      AgreeIff(setup, states, actions, i - 1, batchable);
      AgreesOnceMore(states, i, batchable);
      OneStepLater(setup, states, actions, i, batchable);
      AgreeStep(setup, states, actions, i, batchable);
    }
  }

  lemma AgreeStep(setup: Setup, states: seq<State>, actions: seq<Action>, i: nat, batchable: bool)
    requires IsRun(setup, states, actions) && 0 < i <= |actions| < |states|
    ensures Reenters(setup, states[i - 1], actions[i - 1], batchable) ==> !CountsAgree(states[i], batchable)
    ensures !ReenteredBefore(setup, states, actions, i, batchable) ==> CountsAgree(states[i], batchable)
  {
    hide *;
    RunKeepsInv(setup, states, actions, i - 1);
    RunKeepsInv(setup, states, actions, i);
    StepOfRun(setup, states, actions, i);
    if Reenters(setup, states[i - 1], actions[i - 1], batchable) {
      ReentryDisagrees(setup, states[i - 1], actions[i - 1], batchable);
    }
    ReentryIsRecorded(setup, states, actions, i, batchable);
    if !ReenteredBefore(setup, states, actions, i, batchable) {
      NoReentryAgrees(setup, states[i], batchable);
    }
  }

  lemma NoReentryAgrees(setup: Setup, s: State, batchable: bool)
    requires SystemInv(setup, s) && batchable !in s.history.reentered
    ensures CountsAgree(s, batchable)
  {
    hide WorkerInv, RpcInv, QueueInv, ProvenanceInv, PublishInv, Outstanding;
  }

  lemma InitHasNoReentry(setup: Setup, states: seq<State>, actions: seq<Action>)
    requires IsRun(setup, states, actions)
    ensures states[0].history.reentered == {}
  {
  }

  // ---------------------------------------------------------------- provenance

  /** A receipt that warrants the task, from a sender the node still knows. */
  ghost predicate TracesBack(setup: Setup, s: State, tag: TaskTag, k: nat) {
    && k < |s.history.admitted|
    && s.history.admitted[k].input.Tag() == tag
    && AdmissionOk(setup, s.history, s.core.rpc, s.history.admitted[k])
    && s.history.receipts[s.history.admitted[k].receipt].message.source.Some?
    && s.history.receipts[s.history.admitted[k].receipt].message.source.value in s.core.rpc
  }

  /**
   Every published outcome traces back to a message that was received before: from an RPC node
   known then and still known now, signed by the admin key, received before its deadline and
   addressed to this node.
   */
  lemma PublishedTracesBack(setup: Setup, states: seq<State>, actions: seq<Action>, i: nat, p: nat) returns (k: nat)
    requires IsRun(setup, states, actions) && i < |states| && p < |states[i].history.published|
    ensures TracesBack(setup, states[i], states[i].history.published[p].Tag(), k)
  {
    hide IsRun, RpcInv, PendingInv, W.Inv, InputsOfKind, OutputsOfKind, Warranted;
    RunKeepsInv(setup, states, actions, i);
    var s := states[i];
    var output := s.history.completed[p];
    k := CompletedWasAdmitted(setup, s, output);
    assert AdmissionOk(setup, s.history, s.core.rpc, s.history.admitted[k]);
    WarrantedHasSource(setup, s, k);
  }

  lemma WarrantedHasSource(setup: Setup, s: State, k: nat)
    requires k < |s.history.admitted| && AdmissionOk(setup, s.history, s.core.rpc, s.history.admitted[k])
    ensures
      var receipt := s.history.receipts[s.history.admitted[k].receipt];
      receipt.message.source.Some? && receipt.message.source.value in s.core.rpc
  {
  }

  /** An output the node took up was handed out by a worker for a task of the same tag. */
  lemma CompletedWasDone(setup: Setup, s: State, output: WorkerOutput) returns (n: nat)
    requires WorkerInv(setup, s, output.batchable) && QueueInv(setup, s)
    requires output in s.history.completed
    ensures
      var tags := InputTags(InputsOfKind(AdmittedInputs(s.history.admitted), output.batchable));
      n < |tags| && tags[n] == output.Tag()
  {
    hide W.Inv, InputsOfKind, OutputsOfKind;
    var b := output.batchable;
    var completed := OutputsOfKind(s.history.completed, b);
    KeepsMembers(s.history.completed, output);
    OutputsOfKindConcat(s.history.completed, s.outputs, b);
    var d: nat :| d < |completed| && completed[d] == output;
    assert OutputsOfKind(s.history.sent, b)[d] == output;
    assert s.Worker(b).Some?;
    var w := s.Worker(b).value;
    WorkerOutputs(w);
    assert w.done[d] == output;
    n := w.order[d];
  }

  lemma CompletedWasAdmitted(setup: Setup, s: State, output: WorkerOutput) returns (k: nat)
    requires WorkerInv(setup, s, output.batchable) && QueueInv(setup, s)
    requires output in s.history.completed
    ensures k < |s.history.admitted| && s.history.admitted[k].input.Tag() == output.Tag()
  {
    hide WorkerInv, QueueInv, InputsOfKind;
    var inputs := AdmittedInputs(s.history.admitted);
    var n := CompletedWasDone(setup, s, output);
    var input := InputsOfKind(inputs, output.batchable)[n];
    KindMembers(inputs, output.batchable, input);
    k :| 0 <= k < |inputs| && inputs[k] == input;
  }

  lemma {:induction false} KeepsMembers(outputs: seq<WorkerOutput>, output: WorkerOutput)
    requires output in outputs
    ensures output in OutputsOfKind(outputs, output.batchable)
    decreases |outputs|
  {
    var n := |outputs| - 1;
    if outputs[n] != output {
      assert output in outputs[..n];
      KeepsMembers(outputs[..n], output);
    }
  }

  lemma {:induction false} KindMembers(inputs: seq<WorkerInput>, batchable: bool, input: WorkerInput)
    requires input in InputsOfKind(inputs, batchable)
    ensures input in inputs
    decreases |inputs|
  {
    if inputs != [] {
      var n := |inputs| - 1;
      if input in InputsOfKind(inputs[..n], batchable) {
        KindMembers(inputs[..n], batchable, input);
      }
    }
  }

  // ---------------------------------------------------------------- publications

  /**
   At every loop head the node has published exactly the outputs it has counted as completed, in the
   order in which it took them up, and these are the successful publications the client reported.
   */
  lemma PublishedExactlyOnce(setup: Setup, states: seq<State>, actions: seq<Action>, i: nat)
    requires IsRun(setup, states, actions) && i < |states| && states[i].phase.LoopHead?
    ensures
      var s := states[i];
      && s.history.published == s.history.completed
      && |s.history.published| == s.core.completedSingle + s.core.completedBatch
      && OnTheWire(s.client.replies) == s.history.published
  {
    hide IsRun, WorkerInv, PendingInv, ProvenanceInv, OutputsOfKind, OnTheWire;
    RunKeepsInv(setup, states, actions, i);
    var s := states[i];
    KindsSplitOutputs(s.history.completed);
    var all := OutputTags(s.history.completed);
    var batch, single := CompletedTags(s.history, true), CompletedTags(s.history, false);
    assert |multiset(all)| == |multiset(batch) + multiset(single)|;
    assert s.core.Completed(true) == s.core.completedBatch && s.core.Completed(false) == s.core.completedSingle;
    assert s.history.published + [] == s.history.published;
  }

  /** Also in the middle of a handler or after an error, at most the output in hand is unpublished. */
  lemma AtMostOneUnpublished(setup: Setup, states: seq<State>, actions: seq<Action>, i: nat)
    requires IsRun(setup, states, actions) && i < |states|
    ensures states[i].history.published <= states[i].history.completed
    ensures |states[i].history.completed| <= |states[i].history.published| + 1
    ensures |states[i].history.completed| == |states[i].history.published| + 1 ==>
      Publishing(states[i].phase).Some? || Leaving(states[i].phase)
  {
    hide IsRun, RpcInv, WorkerInv, QueueInv, PendingInv, ProvenanceInv, OutputsOfKind, OnTheWire;
    RunKeepsInv(setup, states, actions, i);
  }

  // ---------------------------------------------------------------- arms that are never taken

  /** In no reachable state can a command or a task fail to be sent. */
  lemma SendsNeverFail(setup: Setup, states: seq<State>, actions: seq<Action>, i: nat)
    requires IsRun(setup, states, actions) && i < |states|
    ensures !Enabled(setup, states[i], SendTaskFails) && !Enabled(setup, states[i], CallFails)
  {
    hide IsRun, RpcInv, WorkerInv, QueueInv, PendingInv, ProvenanceInv, OutputsOfKind, OnTheWire;
    RunKeepsInv(setup, states, actions, i);
    SendFailsNever(setup, states[i], true);
    CallFailsNever(setup, states[i]);
  }

  /**
   With at least one model, no channel the loop reads from is ever found closed. With none there is no
   worker, so the loop ends by the closed publish channel as soon as it is reached.
   */
  lemma ChannelsStayOpen(setup: Setup, states: seq<State>, actions: seq<Action>, i: nat)
    requires IsRun(setup, states, actions) && i < |states|
    ensures Enabled(setup, states[i], ChannelLost) <==> states[i].phase.LoopHead? && setup.world.models == []
  {
    hide IsRun, QueueInv, PendingInv, ProvenanceInv, OutputsOfKind, OnTheWire, WorkerInv;
    RunKeepsInv(setup, states, actions, i);
    var s := states[i];
    if s.phase.LoopHead? {
      WorkerStays(setup, s, true);
      WorkerStays(setup, s, false);
      if setup.world.models != [] {
        assert setup.world.models[0] in setup.world.models;
      } else {
        NoWorkerNoOutput(setup, s);
      }
    }
  }

  lemma NoWorkerNoOutput(setup: Setup, s: State)
    requires WorkerInv(setup, s, true) && WorkerInv(setup, s, false) && QueueInv(setup, s)
    requires s.batch == None && s.single == None
    ensures s.outputs == []
  {
    hide W.Inv, InputsOfKind, OutputsOfKind;
    if s.history.sent != [] {
      KeepsMembers(s.history.sent, s.history.sent[0]);
    }
  }

  /**
   The node dies in its loop only on a malformed message of a known RPC node. That subtracting the
   liveness interval from the current instant does not panic is assumed, as on any platform whose
   clock reaches that far back.
   */
  lemma OnlyMalformedMessagesCrash(setup: Setup, states: seq<State>, actions: seq<Action>, i: nat)
    requires IsRun(setup, states, actions) && i < |actions|
    requires !states[i].phase.Gone? && states[i + 1].phase.Gone?
    ensures
      var s, a := states[i], actions[i];
      || (a.TakeMessage? && s.messages != [] && Malformed(setup.world, s.core.rpc, s.messages[0], a.moment.now))
      || (a.TakeReply? && s.phase.Awaiting? && s.phase.goal.ShuttingDown?)
  {
    assert IsStep(setup, states, actions, i);
    SendsNeverFail(setup, states, actions, i);
    hide IsRun, Decide, Malformed, W.Apply, W.Enabled, C.Apply, C.Enabled, Hangup, InFlightId;
    if actions[i].TakeMessage? {
      CrashesExactly(setup.world, states[i].core.rpc, states[i].messages[0], actions[i].moment);
    }
  }

  // ---------------------------------------------------------------- commands

  /**
   The node's commands: at most one is outstanding, each gets exactly one reply, in order, and the
   reply the node goes on with is the reply to its own command.
   */
  lemma RepliesMatchCommands(setup: Setup, states: seq<State>, actions: seq<Action>, i: nat)
    requires IsRun(setup, states, actions) && i < |states|
    ensures
      var s := states[i];
      && |s.client.queue| <= 1
      && |s.client.replies| + |s.client.queue| == s.nextTag == |s.client.accepted|
      && (forall k :: 0 <= k < |s.client.replies| ==>
           s.client.replies[k].tag == k && Answers(s.client.replies[k], s.client.accepted[k]))
      && (s.phase.Awaiting? && s.reply.Some? ==> Answers(s.reply.value, Command(s.phase.tag, RequestOf(s.phase.goal))))
  {
    hide IsRun, WorkerInv, QueueInv, PendingInv, ProvenanceInv, OutputsOfKind, OnTheWire;
    RunKeepsInv(setup, states, actions, i);
  }
}

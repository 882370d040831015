/** Where what the node handles comes from, over whole runs: messages from the swarm, outcomes from executions. */
module SystemProvenance {
  import opened Wrappers
  import opened Network
  import opened Tasks
  import opened Handlers
  import opened System
  import opened SystemSafety
  import opened SystemAccounting
  import opened SystemRuns
  import opened SystemTheorems
  import C = ClientProcess
  import W = WorkerProcess
  import WT = WorkerTheorems

  // ---------------------------------------------------------------- messages

  /** The events the swarm delivered in some steps, in order. */
  function Sighted(actions: seq<Action>): seq<Event> {
    if actions == [] then []
    else
      var last := actions[|actions| - 1];
      Sighted(actions[..|actions| - 1]) + if last.See? then [last.event] else []
  }

  lemma StepSees(setup: Setup, s: State, a: Action)
    requires Enabled(setup, s, a)
    ensures Apply(setup, s, a).client.seen == s.client.seen + if a.See? then [a.event] else []
  {
    hide W.Apply, W.Enabled, InFlightId, Decide, Hangup, Admitting, Completing, Publication, RequestOf, After;
  }

  /** The client has seen just what the swarm delivered. */
  lemma {:induction false} SeenIsSighted(setup: Setup, states: seq<State>, actions: seq<Action>, i: nat)
    requires IsRun(setup, states, actions) && i <= |actions| < |states|
    ensures states[i].client.seen == Sighted(actions[..i])
    decreases i
  {
    if i > 0 {
      assert actions[..i][..i - 1] == actions[..i - 1];
      hide IsRun, Enabled, Apply, Init;
      SeenIsSighted(setup, states, actions, i - 1);
      StepOfRun(setup, states, actions, i);
      StepSees(setup, states[i - 1], actions[i - 1]);
    }
  }

  /**
   In every state of every run while the node lives, the gossip messages the swarm has delivered are, in
   the order of delivery, those the node took up, those that wait in its channel, and the one the client
   is about to forward; and so are the inbound requests.
   */
  lemma DeliveryKeepsOrder(setup: Setup, states: seq<State>, actions: seq<Action>, i: nat)
    requires IsRun(setup, states, actions) && i <= |actions| < |states| && !states[i].phase.Gone?
    ensures
      var s := states[i];
      && Messages(Sighted(actions[..i]))
         == ReceivedMessages(s.history.receipts) + s.messages + Messages(Underway(s.client))
      && Requests(Sighted(actions[..i])) == s.history.asked + s.requests + Requests(Underway(s.client))
  {
    SeenIsSighted(setup, states, actions, i);
    hide IsRun, Sighted, Messages, Requests, RpcInv, WorkerInv, PendingInv, ProvenanceInv, ReceivedMessages;
    RunKeepsInv(setup, states, actions, i);
  }

  /** Also once the node is gone, what it took up is what the swarm had delivered first. */
  lemma TakenWasDelivered(setup: Setup, states: seq<State>, actions: seq<Action>, i: nat)
    requires IsRun(setup, states, actions) && i <= |actions| < |states|
    ensures ReceivedMessages(states[i].history.receipts) <= Messages(Sighted(actions[..i]))
    ensures states[i].history.asked <= Requests(Sighted(actions[..i]))
  {
    SeenIsSighted(setup, states, actions, i);
    hide IsRun, Sighted, Messages, Requests, RpcInv, WorkerInv, PendingInv, ProvenanceInv, ReceivedMessages;
    RunKeepsInv(setup, states, actions, i);
  }

  /**
   Every published outcome traces back to a message that the swarm delivered: the receipt it rests on is
   the receipt of the message delivered in its place.
   */
  lemma PublishedWasDelivered(setup: Setup, states: seq<State>, actions: seq<Action>, i: nat, p: nat) returns (k: nat)
    requires IsRun(setup, states, actions) && i <= |actions| < |states| && p < |states[i].history.published|
    ensures TracesBack(setup, states[i], states[i].history.published[p].Tag(), k)
    ensures
      var h, delivered := states[i].history, Messages(Sighted(actions[..i]));
      var r := h.admitted[k].receipt;
      r < |delivered| && h.receipts[r].message == delivered[r]
  {
    k := PublishedTracesBack(setup, states, actions, i, p);
    TakenWasDelivered(setup, states, actions, i);
    hide IsRun, Sighted, Messages, Requests, Warranted;
    assert ReceivedMessages(states[i].history.receipts)[states[i].history.admitted[k].receipt]
        == states[i].history.receipts[states[i].history.admitted[k].receipt].message;
  }

  // ---------------------------------------------------------------- outcomes

  /** What a step of the system does to a worker. */
  ghost predicate WorkerSteps(s: State, a: Action, s': State, batchable: bool) {
    match s.Worker(batchable)
    case None => s'.Worker(batchable) == None
    case Some(w) =>
      || s'.Worker(batchable) == Some(w)
      || (exists step: W.Action ::
            && (step.Accept? || step.Disconnect? || a == WorkerStep(batchable, step))
            && W.Enabled(w, step) && s'.Worker(batchable) == Some(W.Apply(w, step)))
  }

  lemma HangupSteps(s: State, a: Action, s': State, batchable: bool)
    requires s'.Worker(batchable) == Hangup(s.Worker(batchable))
    ensures WorkerSteps(s, a, s', batchable)
  {
    if s.Worker(batchable).Some? && s.Worker(batchable).value.connected {
      assert W.Enabled(s.Worker(batchable).value, W.Disconnect);
    }
  }

  lemma LeavingSteps(setup: Setup, s: State, a: Action, batchable: bool)
    requires Enabled(setup, s, a) && (a.TakeMessage? || a.TakeReply? || a.CallFails?)
    ensures WorkerSteps(s, a, Apply(setup, s, a), batchable)
  {
    hide Decide, InFlightId, W.Apply, W.Enabled, Hangup, WorkerSteps;
    var s' := Apply(setup, s, a);
    if s'.Worker(batchable) == s.Worker(batchable) {
      SameWorkerSteps(s, a, s', batchable);
    } else {
      HangupSteps(s, a, s', batchable);
    }
  }

  lemma SameWorkerSteps(s: State, a: Action, s': State, batchable: bool)
    requires s'.Worker(batchable) == s.Worker(batchable)
    ensures WorkerSteps(s, a, s', batchable)
  {
  }

  lemma OneStepSteps(s: State, a: Action, s': State, batchable: bool, step: W.Action)
    requires s.Worker(batchable).Some? && W.Enabled(s.Worker(batchable).value, step)
    requires step.Accept? || step.Disconnect? || a == WorkerStep(batchable, step)
    requires s'.Worker(batchable) == Some(W.Apply(s.Worker(batchable).value, step))
    ensures WorkerSteps(s, a, s', batchable)
  {
  }

  lemma StepSteps(setup: Setup, s: State, a: Action, batchable: bool)
    requires Enabled(setup, s, a)
    ensures WorkerSteps(s, a, Apply(setup, s, a), batchable)
  {
    hide TakeMessageStep, TakeReplyStep, C.Apply, C.Enabled, W.Apply, W.Enabled, WorkerSteps, Leave;
    var s' := Apply(setup, s, a);
    if a.TakeMessage? || a.TakeReply? || a.CallFails? {
      LeavingSteps(setup, s, a, batchable);
    } else if a.SendTask? && s.phase.input.batchable == batchable {
      OneStepSteps(s, a, s', batchable, W.Accept(s.phase.input));
    } else if a.WorkerStep? && a.batchable == batchable {
      OneStepSteps(s, a, s', batchable, a.step);
    } else {
      SameWorkerSteps(s, a, s', batchable);
    }
  }

  /** The j-th step of a run is the execution of a task by the m-th member of a round, with this outcome. */
  ghost predicate IsExecution(states: seq<State>, actions: seq<Action>, j: nat, m: nat, batchable: bool,
                              input: WorkerInput, result: Outcome) {
    && j < |actions| < |states|
    && actions[j] == WorkerStep(batchable, W.Finish(m, result))
    && states[j].Worker(batchable).Some?
    && var phase := states[j].Worker(batchable).value.phase;
       && phase.Running? && m < |phase.members|
       && phase.members[m].Executing? && phase.members[m].input == input
  }

  /** Either the outcome was recorded before, or this step is the execution. */
  lemma RecordedOrExecuted(setup: Setup, s: State, a: Action, batchable: bool, n: nat)
    requires WorkerInv(setup, s, batchable) && Enabled(setup, s, a)
    requires WorkerSteps(s, a, Apply(setup, s, a), batchable)
    requires Apply(setup, s, a).Worker(batchable).Some?
    requires n in Apply(setup, s, a).Worker(batchable).value.executed
    requires n < |Apply(setup, s, a).Worker(batchable).value.accepted|
    ensures
      var w' := Apply(setup, s, a).Worker(batchable).value;
      && s.Worker(batchable).Some?
      && var w := s.Worker(batchable).value;
         if n in w.executed then
           n < |w.accepted| && w.accepted[n] == w'.accepted[n] && w.executed[n] == w'.executed[n]
         else
           && a.WorkerStep? && a.batchable == batchable && a.step.Finish?
           && a.step.result == w'.executed[n]
           && w.phase.Running? && a.step.member < |w.phase.members|
           && w.phase.members[a.step.member] == W.Executing(n, w'.accepted[n])
  {
    hide Enabled, Apply;
    var w, w' := s.Worker(batchable).value, Apply(setup, s, a).Worker(batchable).value;
    if w' != w {
      var step: W.Action :|
        && (step.Accept? || step.Disconnect? || a == WorkerStep(batchable, step))
        && W.Enabled(w, step) && w' == W.Apply(w, step);
      OwnRecord(w, step, n);
    } else {
      OutcomesArePlaced(w, n);
    }
  }

  lemma OutcomesArePlaced(w: W.Worker, n: nat)
    requires W.Inv(w) && n in w.executed
    ensures n < |w.accepted|
  {
  }

  lemma OwnRecord(w: W.Worker, step: W.Action, n: nat)
    requires W.Inv(w) && W.Enabled(w, step) && n in W.Apply(w, step).executed
    ensures
      var w' := W.Apply(w, step);
      if n in w.executed then
        n < |w.accepted| && w.accepted[n] == w'.accepted[n] && w.executed[n] == w'.executed[n]
      else
        && step.Finish? && step.result == w'.executed[n]
        && w'.accepted == w.accepted && n < |w.accepted|
        && w.phase.Running? && step.member < |w.phase.members|
        && w.phase.members[step.member] == W.Executing(n, w.accepted[n])
  {
    WT.OutcomesAreRecordedOnce(w, step, n);
    if n in w.executed {
      OutcomesArePlaced(w, n);
    }
    hide W.Inv;
  }

  /** The step that reaches the i-th state leaves an outcome as it was recorded, or is its execution. */
  lemma StepRecords(setup: Setup, states: seq<State>, actions: seq<Action>, i: nat, batchable: bool, n: nat)
    requires IsRun(setup, states, actions) && 0 < i <= |actions| < |states|
    requires states[i].Worker(batchable).Some? && n in states[i].Worker(batchable).value.executed
    requires n < |states[i].Worker(batchable).value.accepted|
    ensures states[i - 1].Worker(batchable).Some?
    ensures
      var w, w' := states[i - 1].Worker(batchable).value, states[i].Worker(batchable).value;
      if n in w.executed then
        n < |w.accepted| && w.accepted[n] == w'.accepted[n] && w.executed[n] == w'.executed[n]
      else
        && actions[i - 1].WorkerStep? && actions[i - 1].step.Finish?
        && IsExecution(states, actions, i - 1, actions[i - 1].step.member, batchable, w'.accepted[n], w'.executed[n])
  {
    hide IsRun, Enabled, Apply, Init, WorkerInv, WorkerSteps;
    StepOfRun(setup, states, actions, i);
    WorkerInvOfRun(setup, states, actions, i - 1, batchable);
    StepSteps(setup, states[i - 1], actions[i - 1], batchable);
    RecordedOrExecuted(setup, states[i - 1], actions[i - 1], batchable, n);
  }

  lemma WorkerInvOfRun(setup: Setup, states: seq<State>, actions: seq<Action>, i: nat, batchable: bool)
    requires IsRun(setup, states, actions) && i < |states|
    ensures WorkerInv(setup, states[i], batchable)
  {
    hide IsRun, Init, RpcInv, WorkerInv, QueueInv, PublishInv, CountInv, PendingInv, ProvenanceInv, WireInv,
         DeliveryInv, ReentryInv;
    RunKeepsInv(setup, states, actions, i);
  }

  /** Each recorded outcome was produced by an execution of its very task, earlier in the run. */
  lemma {:induction false} OutcomeWasExecuted(setup: Setup, states: seq<State>, actions: seq<Action>, i: nat,
                                              batchable: bool, n: nat) returns (j: nat, m: nat)
    requires IsRun(setup, states, actions) && i <= |actions| < |states|
    requires states[i].Worker(batchable).Some? && n in states[i].Worker(batchable).value.executed
    requires n < |states[i].Worker(batchable).value.accepted|
    ensures j < i
    ensures
      var w := states[i].Worker(batchable).value;
      IsExecution(states, actions, j, m, batchable, w.accepted[n], w.executed[n])
    decreases i
  {
    hide *;
    if i == 0 {
      StartExecutesNothing(setup, states, actions, batchable);
      assert false;
    } else {
      StepRecords(setup, states, actions, i, batchable, n);
      if n in states[i - 1].Worker(batchable).value.executed {
        j, m := OutcomeWasExecuted(setup, states, actions, i - 1, batchable, n);
      } else {
        j, m := i - 1, actions[i - 1].step.member;
      }
    }
  }

  lemma StartExecutesNothing(setup: Setup, states: seq<State>, actions: seq<Action>, batchable: bool)
    requires IsRun(setup, states, actions)
    ensures states[0].Worker(batchable).Some? ==> states[0].Worker(batchable).value.executed == map[]
  {
    hide WorkerExists;
  }

  /** An output the node took up is the output of an admitted task, with the outcome recorded for it. */
  lemma CompletedIsCarried(setup: Setup, s: State, output: WorkerOutput) returns (k: nat, n: nat)
    requires WorkerInv(setup, s, output.batchable) && QueueInv(setup, s)
    requires output in s.history.completed
    ensures s.Worker(output.batchable).Some?
    ensures
      var w := s.Worker(output.batchable).value;
      && k < |s.history.admitted| && n < |w.accepted| && n in w.executed
      && s.history.admitted[k].input == w.accepted[n]
      && Carries(w.accepted[n], w.executed[n], output)
  {
    var b := output.batchable;
    var p := CompletedIsDone(setup, s, output);
    var w := s.Worker(b).value;
    WT.OutputsCarryTheirOutcomes(w, p);
    n := w.order[p];
    hide W.Inv, InputsOfKind, OutputsOfKind;
    var inputs := AdmittedInputs(s.history.admitted);
    assert InputsOfKind(inputs, b)[n] == w.accepted[n];
    KindMembers(inputs, b, w.accepted[n]);
    k :| 0 <= k < |inputs| && inputs[k] == w.accepted[n];
  }

  lemma CompletedIsDone(setup: Setup, s: State, output: WorkerOutput) returns (p: nat)
    requires WorkerInv(setup, s, output.batchable) && QueueInv(setup, s)
    requires output in s.history.completed
    ensures s.Worker(output.batchable).Some? && W.Inv(s.Worker(output.batchable).value)
    ensures p < |s.Worker(output.batchable).value.done| && s.Worker(output.batchable).value.done[p] == output
  {
    hide W.Inv, InputsOfKind, OutputsOfKind;
    var b := output.batchable;
    var completed := OutputsOfKind(s.history.completed, b);
    KeepsMembers(s.history.completed, output);
    OutputsOfKindConcat(s.history.completed, s.outputs, b);
    p :| p < |completed| && completed[p] == output;
    assert OutputsOfKind(s.history.sent, b)[p] == output;
  }

  /**
   Every published output is that of an admitted task, field by field, and carries the outcome that an
   execution of this very task produced earlier in the run.
   */
  lemma PublishedWasExecuted(setup: Setup, states: seq<State>, actions: seq<Action>, i: nat, p: nat)
    returns (k: nat, j: nat, m: nat)
    requires IsRun(setup, states, actions) && i <= |actions| < |states| && p < |states[i].history.published|
    ensures k < |states[i].history.admitted| && j < i
    ensures
      var input, output := states[i].history.admitted[k].input, states[i].history.published[p];
      IsExecution(states, actions, j, m, input.batchable, input, output.result) && Carries(input, output.result, output)
  {
    hide IsRun, RpcInv, WorkerInv, CountInv, PendingInv, ProvenanceInv, WireInv, DeliveryInv, ReentryInv;
    RunKeepsInv(setup, states, actions, i);
    var s := states[i];
    var output := s.history.completed[p];
    var n: nat;
    k, n := CompletedIsCarried(setup, s, output);
    hide PublishInv, QueueInv;
    j, m := OutcomeWasExecuted(setup, states, actions, i, output.batchable, n);
  }
}

/** What every step of the system keeps. */
module SystemSafety {
  import opened Wrappers
  import opened Network
  import opened Tasks
  import opened Handlers
  import opened System
  import C = ClientProcess
  import W = WorkerProcess
  import WS = WorkerSafety

  // ---------------------------------------------------------------- commands and replies

  /** The node has at most one command outstanding, and the reply it finds is the reply to it. */
  ghost predicate RpcInv(setup: Setup, s: State) {
    && C.Inv(s.client)
    && s.client.capacity == setup.sizes.commands
    && |s.client.accepted| == s.nextTag
    && (forall i :: 0 <= i < s.nextTag ==> s.client.accepted[i].tag == i)
    && (s.client.connected <==> !s.phase.Gone?)
    && (s.phase.Awaiting? ==> RpcPending(s, s.phase.goal, s.phase.tag))
    && (!s.phase.Awaiting? ==> s.client.queue == [] && s.reply.None?)
    && (s.client.closed ==> s.phase.Gone? || (s.phase.Awaiting? && s.phase.goal.ShuttingDown? && s.reply.Some?))
  }

  ghost predicate RpcPending(s: State, goal: Goal, tag: nat) {
    var command := Command(tag, RequestOf(goal));
    && tag + 1 == s.nextTag == |s.client.accepted|
    && s.client.accepted[tag] == command
    && (s.reply.None? ==> s.client.queue == [command])
    && (s.reply.Some? ==> s.client.queue == [] && |s.client.replies| == s.nextTag)
    && (s.reply.Some? ==> s.reply.value == s.client.replies[tag])
  }

  lemma ServeKeepsRpc(setup: Setup, s: State, ok: bool)
    requires RpcInv(setup, s) && Enabled(setup, s, Serve(ok))
    ensures RpcInv(setup, Apply(setup, s, Serve(ok)))
  {
    C.StepKeepsInv(s.client, C.Serve(ok));
  }

  lemma CallKeepsRpc(setup: Setup, s: State)
    requires RpcInv(setup, s) && Enabled(setup, s, Call)
    ensures RpcInv(setup, Apply(setup, s, Call))
  {
    C.StepKeepsInv(s.client, C.AcceptCommand(Command(s.nextTag, RequestOf(s.phase.goal))));
  }

  lemma LeaveKeepsRpc(setup: Setup, s: State)
    requires RpcInv(setup, s) && !s.phase.Awaiting?
    ensures RpcInv(setup, Leave(s))
  {
    if s.client.connected {
      C.StepKeepsInv(s.client, C.Disconnect);
    }
  }

  lemma TakeReplyKeepsRpc(setup: Setup, s: State)
    requires RpcInv(setup, s) && Enabled(setup, s, TakeReply)
    ensures RpcInv(setup, Apply(setup, s, TakeReply))
  {
    var next := After(s.phase.goal, s.reply.value.ok);
    if next.Gone? {
      C.StepKeepsInv(s.client, C.Disconnect);
    }
  }

  lemma ClientKeepsRpc(setup: Setup, s: State, a: Action)
    requires RpcInv(setup, s) && Enabled(setup, s, a)
    requires a.See? || a.Forward? || a.ClientReturn?
    ensures RpcInv(setup, Apply(setup, s, a))
  {
    C.StepKeepsInv(s.client, if a.See? then C.See(a.event) else if a.Forward? then C.Forward else C.Return);
  }

  /** A command can always be sent: the channel is open and empty. */
  lemma CallsSucceed(setup: Setup, s: State)
    requires setup.sizes.Valid() && RpcInv(setup, s) && s.phase.Calling?
    ensures Enabled(setup, s, Call) && !Enabled(setup, s, CallFails)
  {
  }

  /** The other components and the local steps of the node do not touch commands and replies. */
  lemma QuietKeepsRpc(setup: Setup, s: State, a: Action)
    requires RpcInv(setup, s) && Enabled(setup, s, a)
    requires a.WorkerStep? || a.SendTask? || a.SendTaskFails? || a.TakeOutput? || a.TakeRequest? || a.TickDiagnostic?
      || a.TickRefresh? || a.ChannelLost? || a.Cancel?
    ensures RpcInv(setup, Apply(setup, s, a))
  {
  }

  lemma TakeMessageKeepsRpc(setup: Setup, s: State, moment: Moment)
    requires RpcInv(setup, s) && Enabled(setup, s, TakeMessage(moment))
    ensures RpcInv(setup, Apply(setup, s, TakeMessage(moment)))
  {
    hide Decide;
    if Decide(setup.world, s.core.rpc, s.messages[0], moment).Crash? {
      var message := s.messages[0];
      var h := s.history.(receipts := s.history.receipts + [Receipt(message, moment.now, s.core.rpc)]);
      LeaveKeepsRpc(setup, s.(messages := s.messages[1..], history := h));
    }
  }

  lemma StepKeepsRpc(setup: Setup, s: State, a: Action)
    requires setup.sizes.Valid() && RpcInv(setup, s) && Enabled(setup, s, a)
    ensures RpcInv(setup, Apply(setup, s, a))
  {
    hide RpcInv, Apply, Enabled;
    match a
    case TakeMessage(moment) => TakeMessageKeepsRpc(setup, s, moment);
    case Call => CallKeepsRpc(setup, s);
    case CallFails => CallFailsNever(setup, s);
    case TakeReply => TakeReplyKeepsRpc(setup, s);
    case Serve(ok) => ServeKeepsRpc(setup, s, ok);
    case See(_) => ClientKeepsRpc(setup, s, a);
    case Forward => ClientKeepsRpc(setup, s, a);
    case ClientReturn => ClientKeepsRpc(setup, s, a);
    case _ => QuietKeepsRpc(setup, s, a);
  }

  // ---------------------------------------------------------------- tasks by kind

  lemma InputsOfKindAppend(inputs: seq<WorkerInput>, input: WorkerInput, batchable: bool)
    ensures InputsOfKind(inputs + [input], batchable)
         == InputsOfKind(inputs, batchable) + if input.batchable == batchable then [input] else []
  {
    assert (inputs + [input])[..|inputs|] == inputs;
  }

  lemma OutputsOfKindAppend(outputs: seq<WorkerOutput>, output: WorkerOutput, batchable: bool)
    ensures OutputsOfKind(outputs + [output], batchable)
         == OutputsOfKind(outputs, batchable) + if output.batchable == batchable then [output] else []
  {
    assert (outputs + [output])[..|outputs|] == outputs;
  }

  lemma {:induction false} OutputsOfKindConcat(a: seq<WorkerOutput>, b: seq<WorkerOutput>, batchable: bool)
    ensures OutputsOfKind(a + b, batchable) == OutputsOfKind(a, batchable) + OutputsOfKind(b, batchable)
    decreases |b|
  {
    if b == [] {
      assert a + b == a;
    } else {
      var n := |b| - 1;
      assert a + b == (a + b[..n]) + [b[n]];
      OutputsOfKindAppend(a + b[..n], b[n], batchable);
      OutputsOfKindConcat(a, b[..n], batchable);
    }
  }

  lemma {:induction false} KindOfInputs(inputs: seq<WorkerInput>, batchable: bool, i: nat)
    requires i < |InputsOfKind(inputs, batchable)|
    ensures InputsOfKind(inputs, batchable)[i].batchable == batchable
    decreases |inputs|
  {
    if inputs != [] {
      var n := |inputs| - 1;
      if i < |InputsOfKind(inputs[..n], batchable)| {
        KindOfInputs(inputs[..n], batchable, i);
      }
    }
  }

  function ModeOf(setup: Setup, batchable: bool): W.Mode {
    if batchable then W.Batch(setup.sizes.batch) else W.Series
  }

  /**
   A worker exists exactly if the configuration needs it. It has accepted exactly the admitted tasks
   of its kind, in order, but for one the node may still hold; while the node lives, what it has
   handed out is, in order, what entered the publish channel of its kind.
   */
  ghost predicate WorkerInv(setup: Setup, s: State, batchable: bool) {
    var admitted := InputsOfKind(AdmittedInputs(s.history.admitted), batchable);
    var sent := OutputsOfKind(s.history.sent, batchable);
    match s.Worker(batchable)
    case None => !WorkerExists(setup.world, batchable) && admitted == [] && sent == [] && s.Hand(batchable) == []
    case Some(w) =>
      && WorkerExists(setup.world, batchable)
      && W.Inv(w)
      && w.mode == ModeOf(setup, batchable)
      && w.capacity == setup.sizes.workflow
      && (w.connected <==> !s.phase.Gone?)
      && admitted == w.accepted + s.Hand(batchable)
      && sent <= w.done
      && (!s.phase.Gone? ==> sent == w.done)
  }

  lemma AcceptedAreOfKind(setup: Setup, s: State, batchable: bool, i: nat)
    requires WorkerInv(setup, s, batchable) && s.Worker(batchable).Some?
    requires i < |s.Worker(batchable).value.accepted|
    ensures s.Worker(batchable).value.accepted[i].batchable == batchable
  {
    KindOfInputs(AdmittedInputs(s.history.admitted), batchable, i);
  }

  /** While a worker exists and the node lives, the worker has not returned. */
  lemma WorkerStays(setup: Setup, s: State, batchable: bool)
    requires WorkerInv(setup, s, batchable) && !s.phase.Gone?
    ensures s.Worker(batchable).Some? <==> WorkerExists(setup.world, batchable)
    ensures s.Worker(batchable).Some? ==> !s.Worker(batchable).value.phase.Returned?
  {
  }

  lemma LeaveKeepsWorker(setup: Setup, s: State, batchable: bool)
    requires WorkerInv(setup, s, batchable) && s.Hand(batchable) == [] && !s.phase.Gone?
    ensures WorkerInv(setup, Leave(s), batchable)
  {
    if s.Worker(batchable).Some? {
      WS.StepKeepsInv(s.Worker(batchable).value, W.Disconnect);
    }
  }

  lemma ProceedKeepsWorker(setup: Setup, s: State, phase: NodePhase, batchable: bool)
    requires WorkerInv(setup, s, batchable) && s.Hand(batchable) == [] && !s.phase.Gone? && !phase.SendingTask?
    ensures WorkerInv(setup, Proceed(s, phase), batchable)
  {
    if phase.Gone? {
      LeaveKeepsWorker(setup, s, batchable);
    }
  }

  lemma SendTaskKeepsWorker(setup: Setup, s: State, batchable: bool)
    requires WorkerInv(setup, s, batchable) && Enabled(setup, s, SendTask)
    ensures WorkerInv(setup, Apply(setup, s, SendTask), batchable)
  {
    var input := s.phase.input;
    if input.batchable == batchable {
      WS.StepKeepsInv(s.Worker(batchable).value, W.Accept(input));
    }
  }

  lemma AdmitKeepsWorker(setup: Setup, s: State, s': State, message: GossipMessage, input: WorkerInput, batchable: bool)
    requires WorkerInv(setup, s, batchable) && s.phase.LoopHead?
    requires WorkerExists(setup.world, input.batchable)
    requires s'.phase == SendingTask(input, message) && s'.Worker(batchable) == s.Worker(batchable)
    requires AdmittedInputs(s'.history.admitted) == AdmittedInputs(s.history.admitted) + [input]
    requires s'.history.sent == s.history.sent
    ensures WorkerInv(setup, s', batchable)
  {
    InputsOfKindAppend(AdmittedInputs(s.history.admitted), input, batchable);
  }

  lemma TakeMessageKeepsWorker(setup: Setup, s: State, moment: Moment, batchable: bool)
    requires WorkerInv(setup, s, batchable) && s.phase.LoopHead? && s.messages != []
    ensures WorkerInv(setup, TakeMessageStep(setup, s, moment), batchable)
  {
    hide Decide, W.Inv, Leave, InFlightId;
    var message := s.messages[0];
    var s' := TakeMessageStep(setup, s, moment);
    match Decide(setup.world, s.core.rpc, message, moment)
    case Validate(_) =>
    case AnswerPing(_) =>
    case Crash =>
      var h := s.history.(receipts := s.history.receipts + [Receipt(message, moment.now, s.core.rpc)]);
      LeaveKeepsWorker(setup, s.(messages := s.messages[1..], history := h), batchable);
    case Admit(input) =>
      AdmittedIsWarranted(setup.world, s.core.rpc, message, moment, input);
      assert AdmittedInputs(s'.history.admitted) == AdmittedInputs(s.history.admitted) + [input];
      AdmitKeepsWorker(setup, s, s', message, input, batchable);
  }

  /** A worker's own step leaves alone what concerns the others, but for an output it hands over. */
  lemma OwnStepFrame(w: W.Worker, step: W.Action)
    requires W.Inv(w) && W.Enabled(w, step) && !step.Accept? && !step.Disconnect?
    ensures
      var w' := W.Apply(w, step);
      && W.Inv(w')
      && w'.mode == w.mode && w'.capacity == w.capacity && w'.connected == w.connected && w'.accepted == w.accepted
      && (if step.Hand? then |w'.done| == |w.done| + 1 && w'.done[..|w.done|] == w.done else w'.done == w.done)
  {
    WS.StepKeepsInv(w, step);
  }

  lemma LastDoneIsOfKind(setup: Setup, s: State, batchable: bool, w': W.Worker)
    requires WorkerInv(setup, s, batchable) && s.Worker(batchable).Some?
    requires W.Inv(w') && w'.accepted == s.Worker(batchable).value.accepted && w'.done != []
    ensures w'.done[|w'.done| - 1].batchable == batchable
  {
    var i := |w'.done| - 1;
    assert w'.order[i] < |w'.accepted|;
    AcceptedAreOfKind(setup, s, batchable, w'.order[i]);
    assert w'.done[i].Tag() == w'.accepted[w'.order[i]].Tag();
  }

  lemma OwnStepKeepsWorker(setup: Setup, s: State, batchable: bool, step: W.Action)
    requires WorkerInv(setup, s, batchable) && s.Worker(batchable).Some?
    requires W.Enabled(s.Worker(batchable).value, step) && !step.Accept? && !step.Disconnect?
    ensures WorkerInv(setup, WorkerStepOf(s, batchable, step), batchable)
  {
    hide W.Inv, W.Enabled, W.Apply, InputsOfKind, OutputsOfKind, WorkerExists;
    var w := s.Worker(batchable).value;
    var w' := W.Apply(w, step);
    OwnStepFrame(w, step);
    if step.Hand? && !s.phase.Gone? {
      LastDoneIsOfKind(setup, s, batchable, w');
      OutputsOfKindAppend(s.history.sent, w'.done[|w.done|], batchable);
      assert w'.done == w.done + [w'.done[|w.done|]];
    }
  }

  lemma OtherStepKeepsWorker(setup: Setup, s: State, batchable: bool, step: W.Action)
    requires WorkerInv(setup, s, batchable) && WorkerInv(setup, s, !batchable) && s.Worker(!batchable).Some?
    requires W.Enabled(s.Worker(!batchable).value, step) && !step.Accept? && !step.Disconnect?
    ensures WorkerInv(setup, WorkerStepOf(s, !batchable, step), batchable)
  {
    hide W.Inv, W.Enabled, W.Apply, InputsOfKind, OutputsOfKind, WorkerExists;
    var w := s.Worker(!batchable).value;
    var w' := W.Apply(w, step);
    OwnStepFrame(w, step);
    if step.Hand? && !s.phase.Gone? {
      LastDoneIsOfKind(setup, s, !batchable, w');
      OutputsOfKindAppend(s.history.sent, w'.done[|w.done|], batchable);
    }
  }

  /** The invariant of a worker depends on this much of the state only. */
  lemma WorkerInvFrame(setup: Setup, s: State, s': State, batchable: bool)
    requires WorkerInv(setup, s, batchable)
    requires s'.Worker(batchable) == s.Worker(batchable) && s'.Hand(batchable) == s.Hand(batchable)
    requires s'.phase.Gone? == s.phase.Gone?
    requires s'.history.admitted == s.history.admitted && s'.history.sent == s.history.sent
    ensures WorkerInv(setup, s', batchable)
  {
    hide W.Inv;
  }

  lemma QuietKeepsWorker(setup: Setup, s: State, a: Action, batchable: bool)
    requires WorkerInv(setup, s, batchable) && Enabled(setup, s, a)
    requires a.TakeOutput? || a.TakeRequest? || a.TickDiagnostic? || a.TickRefresh? || a.ChannelLost? || a.Cancel?
      || a.Call? || a.Serve? || a.See? || a.Forward? || a.ClientReturn?
    ensures WorkerInv(setup, Apply(setup, s, a), batchable)
  {
    hide WorkerInv, C.Apply, C.Enabled;
    WorkerInvFrame(setup, s, Apply(setup, s, a), batchable);
  }

  lemma TakeReplyKeepsWorker(setup: Setup, s: State, batchable: bool)
    requires WorkerInv(setup, s, batchable) && s.phase.Awaiting? && s.reply.Some?
    ensures WorkerInv(setup, TakeReplyStep(s), batchable)
  {
    hide W.Inv, Proceed;
    var goal, ok := s.phase.goal, s.reply.value.ok;
    var h := if ok && Publication(goal).Some?
             then s.history.(published := s.history.published + [Publication(goal).value])
             else s.history;
    ProceedKeepsWorker(setup, s.(reply := None, history := h), After(goal, ok), batchable);
  }

  /** `tx.send` of an admitted task never fails. */
  lemma SendsSucceed(setup: Setup, s: State)
    requires WorkerInv(setup, s, true) && WorkerInv(setup, s, false)
    requires s.phase.SendingTask?
    ensures s.Worker(s.phase.input.batchable).Some? && !Enabled(setup, s, SendTaskFails)
  {
    var b := s.phase.input.batchable;
    WorkerStays(setup, s, b);
    assert s.Hand(b) == [s.phase.input];
  }

  lemma StepKeepsWorker(setup: Setup, s: State, a: Action, batchable: bool)
    requires setup.sizes.Valid() && RpcInv(setup, s)
    requires WorkerInv(setup, s, batchable) && WorkerInv(setup, s, !batchable) && Enabled(setup, s, a)
    ensures WorkerInv(setup, Apply(setup, s, a), batchable)
  {
    hide RpcInv, WorkerInv, W.Apply, W.Enabled, C.Apply, C.Enabled, TakeMessageStep, TakeReplyStep, WorkerStepOf;
    match a
    case TakeMessage(moment) => TakeMessageKeepsWorker(setup, s, moment, batchable);
    case SendTask => SendTaskKeepsWorker(setup, s, batchable);
    case SendTaskFails => SendFailsNever(setup, s, batchable);
    case CallFails => CallFailsNever(setup, s);
    case TakeReply => TakeReplyKeepsWorker(setup, s, batchable);
    case WorkerStep(b, step) =>
      if b == batchable {
        OwnStepKeepsWorker(setup, s, batchable, step);
      } else {
        OtherStepKeepsWorker(setup, s, batchable, step);
      }
    case _ => QuietKeepsWorker(setup, s, a, batchable);
  }

  lemma SendFailsNever(setup: Setup, s: State, batchable: bool)
    requires WorkerInv(setup, s, batchable) && WorkerInv(setup, s, !batchable)
    ensures !Enabled(setup, s, SendTaskFails)
  {
    if s.phase.SendingTask? {
      SendsSucceed(setup, s);
    }
  }

  lemma CallFailsNever(setup: Setup, s: State)
    requires setup.sizes.Valid() && RpcInv(setup, s)
    ensures !Enabled(setup, s, CallFails)
  {
    if s.phase.Calling? {
      CallsSucceed(setup, s);
    }
  }
}

/** What the worker invariant means: order, conservation and termination. */
module WorkerTheorems {
  import opened Sequences
  import opened Tasks
  import opened WorkerProcess
  import opened WorkerSafety

  // ---------------------------------------------------------------- runs

  /** The worker after a run of steps, each of which must be possible where it is taken. */
  ghost predicate Reaches(w: Worker, actions: seq<Action>, w': Worker)
    decreases |actions|
  {
    if actions == [] then w' == w
    else Enabled(w, actions[0]) && Reaches(Apply(w, actions[0]), actions[1..], w')
  }

  lemma {:induction false} RunKeepsInv(w: Worker, actions: seq<Action>, w': Worker)
    requires Inv(w) && Reaches(w, actions, w')
    ensures Inv(w')
    decreases |actions|
  {
    if actions != [] {
      StepKeepsInv(w, actions[0]);
      RunKeepsInv(Apply(w, actions[0]), actions[1..], w');
    }
  }

  // ---------------------------------------------------------------- order

  /** Tasks accepted at least one batch apart leave the worker in the order they came. */
  lemma BoundedReordering(w: Worker, p: nat, q: nat)
    requires Inv(w) && p < |w.order| && q < |w.order|
    requires w.order[p] + w.Limit() <= w.order[q]
    ensures p < q
  {
  }

  /** The tag of the task accepted at a given place. */
  function TagAt(accepted: seq<WorkerInput>): nat -> TaskTag {
    (n: nat) => if n < |accepted| then accepted[n].Tag() else TaskTag("", "", "", false)
  }

  lemma PermutesTags(w: Worker, lo: nat, hi: nat)
    requires OutputInv(w) && Permutes(w.order, lo, hi) && hi <= |w.accepted|
    ensures multiset(OutputTags(w.done[lo..hi])) == multiset(InputTags(w.accepted[lo..hi]))
  {
    var f := TagAt(w.accepted);
    PermutedImage(f, w.order[lo..hi], Range(lo, hi));
    assert Image(f, w.order[lo..hi]) == OutputTags(w.done[lo..hi]);
    assert Image(f, Range(lo, hi)) == InputTags(w.accepted[lo..hi]);
  }

  lemma SettledIsAccepted(w: Worker)
    requires Inv(w)
    ensures w.cuts[|w.cuts| - 1] <= |w.order| <= |w.accepted|
    ensures Rounds(w.order, w.cuts, w.Limit(), w.cuts[|w.cuts| - 1])
  {
  }

  /**
   The outputs are the concatenation of rounds: the cuts split the accepted tasks into
   consecutive segments of 1 to `Limit` tasks, and each segment leaves as a permutation of itself.
   */
  lemma RoundIsPermutation(w: Worker, k: nat)
    requires Inv(w) && k + 1 < |w.cuts|
    ensures 1 <= w.cuts[k + 1] - w.cuts[k] <= w.Limit()
    ensures w.cuts[k + 1] <= |w.done| && w.cuts[k + 1] <= |w.accepted|
    ensures multiset(OutputTags(w.done[w.cuts[k]..w.cuts[k + 1]]))
         == multiset(InputTags(w.accepted[w.cuts[k]..w.cuts[k + 1]]))
  {
    SettledIsAccepted(w);
    assert RoundOk(w.order, w.cuts, w.Limit(), k);
    CutsAreBounded(w.order, w.cuts, w.Limit(), w.cuts[|w.cuts| - 1], k + 1);
    PermutesTags(w, w.cuts[k], w.cuts[k + 1]);
  }

  lemma UnitWindowEndsWithLast(order: seq<nat>)
    requires order != [] && WithinWindow(order, 1)
    requires multiset(order) == multiset(Range(0, |order|))
    ensures order[|order| - 1] == |order| - 1
  {
    var n := |order| - 1;
    RangeMembers(0, n + 1, n);
    RangeMembers(0, n + 1, order[n]);
    assert n in multiset(order) && order[n] in multiset(order);
    var i :| 0 <= i <= n && order[i] == n;
  }

  /** `outputs` is `inputs` cut into segments of 1 to `limit` tasks, each of them permuted. */
  ghost predicate Batching(inputs: seq<TaskTag>, outputs: seq<TaskTag>, cuts: seq<nat>, limit: nat) {
    && |inputs| == |outputs|
    && |cuts| > 0 && cuts[0] == 0 && cuts[|cuts| - 1] == |inputs|
    && forall k: nat :: k + 1 < |cuts| ==> SegmentPermuted(inputs, outputs, cuts, limit, k)
  }

  ghost predicate SegmentPermuted(
    inputs: seq<TaskTag>, outputs: seq<TaskTag>, cuts: seq<nat>, limit: nat, k: nat)
    requires k + 1 < |cuts|
  {
    && 1 <= cuts[k + 1] - cuts[k] <= limit
    && cuts[k + 1] <= |inputs| && cuts[k + 1] <= |outputs|
    && multiset(outputs[cuts[k]..cuts[k + 1]]) == multiset(inputs[cuts[k]..cuts[k + 1]])
  }

  /** A worker that has returned has handed out its whole input batch by batch. */
  lemma ReturnedIsBatching(w: Worker)
    requires Inv(w) && w.phase.Returned?
    ensures Batching(InputTags(w.accepted), OutputTags(w.done), w.cuts, w.Limit())
    ensures WithinWindow(w.order, w.Limit())
  {
    var inputs, outputs := InputTags(w.accepted), OutputTags(w.done);
    forall k: nat | k + 1 < |w.cuts|
      ensures SegmentPermuted(inputs, outputs, w.cuts, w.Limit(), k)
    {
      RoundIsPermutation(w, k);
      assert OutputTags(w.done[w.cuts[k]..w.cuts[k + 1]]) == outputs[w.cuts[k]..w.cuts[k + 1]];
      assert InputTags(w.accepted[w.cuts[k]..w.cuts[k + 1]]) == inputs[w.cuts[k]..w.cuts[k + 1]];
    }
  }

  /** A permutation in which nothing overtakes anything is the identity. */
  lemma {:induction false} UnitWindowIsIdentity(order: seq<nat>)
    requires WithinWindow(order, 1)
    requires multiset(order) == multiset(Range(0, |order|))
    ensures order == Range(0, |order|)
    decreases |order|
  {
    if order != [] {
      var n := |order| - 1;
      UnitWindowEndsWithLast(order);
      assert Range(0, n + 1) == Range(0, n) + [n];
      assert order == order[..n] + [n];
      assert multiset(order[..n]) == multiset(order) - multiset{n};
      UnitWindowIsIdentity(order[..n]);
    }
  }

  lemma SingleRoundSettlesPrefix(w: Worker, base: nat, members: seq<Member>)
    requires QueueInv(w) && RunningInv(w, base, members) && w.Limit() == 1
    ensures multiset(w.order) == multiset(Range(0, |w.order|))
  {
    hide MemberOk, RoundOk, ExecutedBefore, DistinctIndices;
    assert w.order[0..base] == w.order[..base];
    if members == [] {
      SplitMultiset(w.order, base);
      RangeSplit(0, base, w.Taken());
      assert Indices(members) == [];
    } else {
      assert w.order == w.order[..base];
    }
  }

  /** Between and within its rounds, a worker that takes tasks singly has settled a prefix. */
  lemma SeriesSettlesPrefix(w: Worker)
    requires Inv(w) && w.Limit() == 1
    ensures multiset(w.order) == multiset(Range(0, |w.order|))
  {
    assert w.order[0..|w.order|] == w.order;
    if w.phase.Running? {
      hide RunningInv;
      SingleRoundSettlesPrefix(w, w.phase.base, w.phase.members);
    }
  }

  /** `run_series` hands out its outputs in exactly the order in which the tasks came. */
  lemma SeriesKeepsOrder(w: Worker)
    requires Inv(w) && w.Limit() == 1
    ensures |w.done| <= |w.accepted|
    ensures OutputTags(w.done) == InputTags(w.accepted[..|w.done|])
    ensures w.phase.Returned? ==> |w.done| == |w.accepted|
  {
    SeriesSettlesPrefix(w);
    UnitWindowIsIdentity(w.order);
    if |w.order| > 0 {
      assert w.order[|w.order| - 1] < |w.accepted|;
    }
  }

  /** A batch runs with fewer tasks than it may hold only if the queue was found empty. */
  lemma ShortBatchMeansEmptyQueue(w: Worker)
    requires Inv(w) && w.phase.Sleeping?
    ensures Apply(w, Wake).phase.Running? <==> |w.phase.buffer| == w.Limit() || w.queue == []
    ensures Apply(w, Wake).phase.Running? ==> Indices(Apply(w, Wake).phase.members) == Range(|w.order|, w.Taken())
    ensures !Apply(w, Wake).phase.Running? ==> Apply(w, Wake) == w.(phase := Collecting(w.phase.buffer))
  {
  }

  // ---------------------------------------------------------------- executions

  /** Whatever a worker hands out is the output of its own task and carries what its execution produced. */
  lemma OutputsCarryTheirOutcomes(w: Worker, p: nat)
    requires Inv(w) && p < |w.done|
    ensures p < |w.order| && w.order[p] < |w.accepted| && w.order[p] in w.executed
    ensures Carries(w.accepted[w.order[p]], w.executed[w.order[p]], w.done[p])
  {
  }

  /** Each output is that of the task its place in the order points to, with the outcome recorded for it. */
  ghost predicate AllCarried(accepted: seq<WorkerInput>, order: seq<nat>, executed: map<nat, Outcome>,
                             outputs: seq<WorkerOutput>) {
    && |order| == |outputs|
    && forall p :: 0 <= p < |order| ==>
      && order[p] < |accepted| && order[p] in executed
      && Carries(accepted[order[p]], executed[order[p]], outputs[p])
  }

  lemma OutputsAreCarried(w: Worker)
    requires Inv(w)
    ensures AllCarried(w.accepted, w.order, w.executed, w.done)
  {
  }

  /** An outcome is recorded by the one execution of the task, and stays recorded. */
  lemma OutcomesAreRecordedOnce(w: Worker, a: Action, n: nat)
    requires Inv(w) && Enabled(w, a)
    ensures n in w.executed ==> n in Apply(w, a).executed && Apply(w, a).executed[n] == w.executed[n]
    ensures n !in w.executed && n in Apply(w, a).executed ==>
      && a.Finish? && w.phase.members[a.member].index == n && n < |w.accepted|
      && w.phase.members[a.member].input == w.accepted[n]
      && Apply(w, a).executed[n] == a.result
  {
    if a.Finish? {
      RunningMember(w, w.phase.base, w.phase.members, a.member);
    }
  }

  lemma RunningMember(w: Worker, base: nat, members: seq<Member>, m: nat)
    requires QueueInv(w) && RunningInv(w, base, members) && m < |members|
    ensures MemberOk(members[m], w, base, w.Taken())
  {
  }

  // ---------------------------------------------------------------- conservation

  /** The tags a worker still owes: in its hands, in its buffer and in its queue. */
  function Owed(w: Worker): seq<TaskTag> {
    (match w.phase
     case Collecting(buffer) => InputTags(buffer)
     case Sleeping(buffer) => InputTags(buffer)
     case Running(_, members) => MemberTags(members)
     case Returned => [])
    + InputTags(w.queue)
  }

  lemma RunningImages(w: Worker, base: nat, members: seq<Member>)
    requires QueueInv(w) && OutputInv(w) && RunningInv(w, base, members)
    ensures Image(TagAt(w.accepted), w.order) == OutputTags(w.done)
    ensures Image(TagAt(w.accepted), Indices(members)) == MemberTags(members)
    ensures Image(TagAt(w.accepted), Range(0, w.Taken())) == InputTags(w.accepted[..w.Taken()])
  {
    forall i | 0 <= i < |members|
      ensures Image(TagAt(w.accepted), Indices(members))[i] == MemberTags(members)[i]
    {
      assert MemberOk(members[i], w, base, w.Taken());
    }
  }

  lemma RunningPlaces(w: Worker, base: nat, members: seq<Member>)
    requires QueueInv(w) && RunningInv(w, base, members)
    ensures multiset(w.order + Indices(members)) == multiset(Range(0, w.Taken()))
  {
    SplitMultiset(w.order, base);
    assert w.order[0..base] == w.order[..base];
    RangeSplit(0, base, w.Taken());
  }

  lemma RunningConservation(w: Worker, base: nat, members: seq<Member>)
    requires QueueInv(w) && OutputInv(w) && RunningInv(w, base, members)
    ensures multiset(InputTags(w.accepted[..w.Taken()])) == multiset(OutputTags(w.done)) + multiset(MemberTags(members))
  {
    var f := TagAt(w.accepted);
    RunningPlaces(w, base, members);
    PermutedImage(f, w.order + Indices(members), Range(0, w.Taken()));
    RunningImages(w, base, members);
    assert Image(f, w.order + Indices(members)) == Image(f, w.order) + Image(f, Indices(members));
  }

  /** Nothing a worker accepted is lost, duplicated or altered. */
  lemma Conservation(w: Worker)
    requires Inv(w)
    ensures multiset(InputTags(w.accepted)) == multiset(OutputTags(w.done)) + multiset(Owed(w))
  {
    hide RunningInv, BufferInv, OutputInv, WithinWindow;
    assert w.accepted == w.accepted[..w.Taken()] + w.queue;
    InputTagsConcat(w.accepted[..w.Taken()], w.queue);
    match w.phase
    case Running(base, members) => RunningConservation(w, base, members);
    case Collecting(buffer) => BufferConservation(w, buffer);
    case Sleeping(buffer) => BufferConservation(w, buffer);
    case Returned => BufferConservation(w, []);
  }

  lemma BufferConservation(w: Worker, buffer: seq<WorkerInput>)
    requires QueueInv(w) && OutputInv(w) && BufferInv(w, buffer)
    ensures multiset(InputTags(w.accepted[..w.Taken()])) == multiset(OutputTags(w.done)) + multiset(InputTags(buffer))
  {
    PermutesTags(w, 0, |w.order|);
    assert w.done[0..|w.order|] == w.done;
    assert w.accepted[..w.Taken()] == w.accepted[0..|w.order|] + buffer;
    InputTagsConcat(w.accepted[0..|w.order|], buffer);
  }

  // ---------------------------------------------------------------- draining

  /** A step the worker takes by itself, as opposed to the two the node takes on its channel. */
  predicate Own(a: Action) {
    !a.Accept? && !a.Disconnect?
  }

  function MemberWork(members: seq<Member>): nat {
    if members == [] then 0
    else (if members[0].Executing? then 2 else 1) + MemberWork(members[1..])
  }

  /** How many steps of its own a worker can still take at most. */
  function Work(w: Worker): nat {
    6 * |w.queue| +
    match w.phase
    case Collecting(buffer) => 3 * |buffer| + 1
    case Sleeping(buffer) => 3 * |buffer| + 2
    case Running(_, members) => MemberWork(members) + 2
    case Returned => 0
  }

  lemma {:induction false} MemberWorkSplit(a: seq<Member>, b: seq<Member>)
    ensures MemberWork(a + b) == MemberWork(a) + MemberWork(b)
    decreases |a|
  {
    if a == [] {
      assert a + b == b;
    } else {
      assert (a + b)[1..] == a[1..] + b;
      MemberWorkSplit(a[1..], b);
    }
  }

  lemma {:induction false} FreshMembersWork(base: nat, inputs: seq<WorkerInput>)
    ensures MemberWork(Members(base, inputs)) == 2 * |inputs|
    decreases |inputs|
  {
    if inputs != [] {
      assert Members(base, inputs)[1..] == Members(base + 1, inputs[1..]);
      FreshMembersWork(base + 1, inputs[1..]);
    }
  }

  lemma MemberWorkAt(members: seq<Member>, m: nat, replacement: seq<Member>)
    requires m < |members|
    ensures MemberWork(members[..m] + replacement + members[m + 1..])
         == MemberWork(members) - MemberWork([members[m]]) + MemberWork(replacement)
  {
    var front, back := members[..m], members[m + 1..];
    assert members == front + [members[m]] + back;
    MemberWorkSplit(front + [members[m]], back);
    MemberWorkSplit(front, [members[m]]);
    MemberWorkSplit(front + replacement, back);
    MemberWorkSplit(front, replacement);
  }

  lemma FinishShrinksWork(w: Worker, m: nat, result: Outcome)
    requires Enabled(w, Finish(m, result))
    ensures Work(Apply(w, Finish(m, result))) < Work(w)
  {
    var members := w.phase.members;
    var members' := Apply(w, Finish(m, result)).phase.members;
    assert members' == members[..m] + [members'[m]] + members[m + 1..];
    MemberWorkAt(members, m, [members'[m]]);
  }

  lemma HandShrinksWork(w: Worker, m: nat)
    requires Enabled(w, Hand(m))
    ensures Work(Apply(w, Hand(m))) < Work(w)
  {
    var members := w.phase.members;
    assert Without(members, m) == members[..m] + [] + members[m + 1..];
    MemberWorkAt(members, m, []);
  }

  /** Every step a worker takes by itself brings it strictly closer to returning. */
  lemma OwnStepsTerminate(w: Worker, a: Action)
    requires Inv(w) && Enabled(w, a) && Own(a)
    ensures Work(Apply(w, a)) < Work(w)
  {
    match a
    case Accept(_) =>
    case Disconnect =>
    case Collect(count) => FreshMembersWork(|w.order|, w.phase.buffer + w.queue[..count]);
    case Wake => FreshMembersWork(|w.order|, w.phase.buffer);
    case Finish(m, result) => FinishShrinksWork(w, m, result);
    case Hand(m) => HandShrinksWork(w, m);
    case Regroup =>
    case Return =>
  }

  /** Once the node has dropped its sender, a worker that has not returned can step. */
  lemma DrainingNeverBlocks(w: Worker) returns (a: Action)
    requires Inv(w) && !w.connected && !w.phase.Returned?
    ensures Own(a) && Enabled(w, a)
  {
    match w.phase
    case Collecting(buffer) => a := if w.queue == [] then Return else Collect(1);
    case Sleeping(_) => a := Wake;
    case Running(_, members) =>
      if members == [] {
        a := Regroup;
      } else if members[0].Executing? {
        a := Finish(0, Answer(""));
      } else {
        a := Hand(0);
      }
  }

  /** A run that ends where the worker cannot step by itself ends with everything executed once. */
  lemma DrainedMeansDone(w: Worker, actions: seq<Action>, w': Worker)
    requires Inv(w) && Reaches(w, actions, w')
    requires !w'.connected
    requires forall a :: Own(a) ==> !Enabled(w', a)
    ensures w'.phase.Returned?
    ensures multiset(OutputTags(w'.done)) == multiset(InputTags(w'.accepted))
    ensures |w'.done| == |w'.accepted|
  {
    RunKeepsInv(w, actions, w');
    if !w'.phase.Returned? {
      var a := DrainingNeverBlocks(w');
      assert false;
    }
    Conservation(w');
    assert InputTags([]) == [];
    assert Owed(w') == [];
  }

  /** After the sender is gone a run of own steps is no longer than the work that was left. */
  lemma {:induction false} DrainingRunIsShort(w: Worker, actions: seq<Action>, w': Worker)
    requires Inv(w) && Reaches(w, actions, w')
    requires forall i :: 0 <= i < |actions| ==> Own(actions[i])
    ensures |actions| + Work(w') <= Work(w)
    decreases |actions|
  {
    if actions != [] {
      OwnStepsTerminate(w, actions[0]);
      StepKeepsInv(w, actions[0]);
      DrainingRunIsShort(Apply(w, actions[0]), actions[1..], w');
    }
  }

  /** A partial batch is never dropped: the worker returns only with nothing in its hands. */
  lemma ReturnsEmptyHanded(w: Worker)
    requires Inv(w) && Enabled(w, Return)
    ensures w.phase.buffer == [] && w.queue == [] && !w.connected
  {
  }

  /** The dispatch in `run_batch` is only reached with a batch size its `match` knows. */
  lemma DispatchArmExists(w: Worker, a: Action)
    requires Inv(w) && Enabled(w, a) && (a.Wake? || a.Collect?)
    requires w.Limit() <= MAX_BATCH_SIZE
    requires Apply(w, a).phase.Running?
    ensures 1 <= |Apply(w, a).phase.members| <= MAX_BATCH_SIZE
  {
  }

  /**
   What all of this rests on: a batch size of at least one. A worker of size zero takes nothing;
   the first thing it does, and the only one it can do, is to return with its queue as it is.
   */
  lemma ZeroSizeWorkerDropsItsQueue(w: Worker, a: Action)
    requires w.mode == Batch(0) && w.phase == Collecting([]) && Own(a)
    ensures Enabled(w, a) <==> a == Return
    ensures Enabled(w, a) ==> Apply(w, a) == w.(phase := Returned)
  {
  }
}

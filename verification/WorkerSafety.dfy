/** What every step of a worker keeps, and what it means for whole runs of the worker. */
module WorkerSafety {
  import opened Sequences
  import opened Tasks
  import opened WorkerProcess

  lemma FreshInv(mode: Mode, capacity: nat)
    requires mode.Batch? ==> mode.size >= 1
    ensures Inv(Fresh(mode, capacity))
  {
  }

  lemma OutputFrame(w: Worker, w': Worker)
    requires OutputInv(w)
    requires w'.accepted == w.accepted && w'.executed == w.executed && w'.order == w.order && w'.done == w.done
    ensures OutputInv(w')
  {
  }

  lemma AcceptKeepsInv(w: Worker, input: WorkerInput)
    requires Inv(w) && Enabled(w, Accept(input))
    ensures Inv(Apply(w, Accept(input)))
  {
    var w' := Apply(w, Accept(input));
    assert w'.accepted[w'.Taken()..] == w.accepted[w.Taken()..] + [input];
    if w.phase.Collecting? || w.phase.Sleeping? {
      assert w'.accepted[|w.order|..w.Taken()] == w.accepted[|w.order|..w.Taken()];
    }
  }

  lemma FreshMembers(w: Worker, inputs: seq<WorkerInput>, w': Worker)
    requires QueueInv(w) && BufferInv(w, inputs)
    requires w'.accepted == w.accepted && w'.executed == w.executed
    ensures
      var members := Members(|w.order|, inputs);
      && DistinctIndices(members)
      && Indices(members) == Range(|w.order|, w.Taken())
      && forall i :: 0 <= i < |members| ==> MemberOk(members[i], w', |w.order|, w.Taken())
  {
    hide Rounds;
  }

  lemma DispatchKeepsInv(w: Worker, inputs: seq<WorkerInput>)
    requires 1 <= |inputs| <= w.Limit()
    requires QueueInv(w) && OutputInv(w) && BufferInv(w, inputs)
    requires WithinWindow(w.order, w.Limit())
    ensures Inv(Dispatch(w, inputs))
  {
    var w' := Dispatch(w, inputs);
    hide Rounds, MemberOk, DistinctIndices, WithinWindow, Indices, Members;
    FreshMembers(w, inputs, w');
    OutputFrame(w, w');
    hide OutputInv;
    assert w.order[|w.order|..] == [];
  }

  lemma SleepKeepsInv(w: Worker, buffer: seq<WorkerInput>)
    requires 1 <= |buffer| <= w.Limit()
    requires QueueInv(w) && OutputInv(w) && BufferInv(w, buffer)
    requires WithinWindow(w.order, w.Limit())
    ensures Inv(w.(phase := Sleeping(buffer)))
  {
    hide Rounds, WithinWindow;
  }

  /** What was collected is the next of what was accepted. */
  lemma CollectedBuffer(w: Worker, count: nat, w': Worker)
    requires QueueInv(w) && OutputInv(w) && Enabled(w, Collect(count)) && BufferInv(w, w.phase.buffer)
    requires w' == w.(queue := w.queue[count..])
    ensures QueueInv(w') && OutputInv(w') && BufferInv(w', w.phase.buffer + w.queue[..count])
  {
    hide Rounds;
    assert w'.accepted[w'.Taken()..] == w.accepted[w.Taken()..][count..];
    assert w.phase.buffer + w.queue[..count] == w'.accepted[|w.order|..w'.Taken()];
  }

  lemma CollectKeepsInv(w: Worker, count: nat)
    requires Inv(w) && Enabled(w, Collect(count))
    ensures Inv(Apply(w, Collect(count)))
  {
    var w1 := w.(queue := w.queue[count..]);
    var buffer := w.phase.buffer + w.queue[..count];
    assert BufferInv(w, w.phase.buffer);
    hide BufferInv, QueueInv, OutputInv, WithinWindow, PhaseInv;
    CollectedBuffer(w, count, w1);
    if w.mode.Series? {
      DispatchKeepsInv(w1, buffer);
    } else {
      SleepKeepsInv(w1, buffer);
    }
  }

  lemma FinishKeepsInv(w: Worker, m: nat, result: Outcome)
    requires Inv(w) && Enabled(w, Finish(m, result))
    ensures Inv(Apply(w, Finish(m, result)))
  {
    FinishKeepsOutput(w, w.phase.base, w.phase.members, m, result);
    FinishKeepsRunning(w, w.phase.base, w.phase.members, m, result);
    hide RunningInv, OutputInv, WithinWindow;
  }

  /** A recorded outcome is never overwritten. */
  lemma FinishKeepsOutput(w: Worker, base: nat, members: seq<Member>, m: nat, result: Outcome)
    requires QueueInv(w) && OutputInv(w) && RunningInv(w, base, members)
    requires w.phase == Running(base, members) && Enabled(w, Finish(m, result))
    ensures OutputInv(Apply(w, Finish(m, result)))
  {
    assert MemberOk(members[m], w, base, w.Taken());
    hide Rounds;
  }

  lemma FinishKeepsMembers(w: Worker, base: nat, members: seq<Member>, m: nat, result: Outcome, i: nat)
    requires QueueInv(w) && RunningInv(w, base, members) && i < |members|
    requires w.phase == Running(base, members) && Enabled(w, Finish(m, result))
    ensures
      var w' := Apply(w, Finish(m, result));
      MemberOk(w'.phase.members[i], w', base, w.Taken())
  {
    assert MemberOk(members[i], w, base, w.Taken()) && MemberOk(members[m], w, base, w.Taken());
    assert i != m ==> members[i].index != members[m].index;
    hide Rounds;
  }

  lemma SameIndices(members: seq<Member>, m: nat, member: Member)
    requires DistinctIndices(members) && m < |members| && member.index == members[m].index
    ensures Indices(members[m := member]) == Indices(members) && DistinctIndices(members[m := member])
  {
  }

  lemma FinishKeepsRunning(w: Worker, base: nat, members: seq<Member>, m: nat, result: Outcome)
    requires QueueInv(w) && RunningInv(w, base, members)
    requires w.phase == Running(base, members) && Enabled(w, Finish(m, result))
    ensures QueueInv(Apply(w, Finish(m, result)))
    ensures RunningInv(Apply(w, Finish(m, result)), base, Apply(w, Finish(m, result)).phase.members)
  {
    var w' := Apply(w, Finish(m, result));
    var members' := w'.phase.members;
    hide Rounds, MemberOk, DistinctIndices, Indices;
    SameIndices(members, m, members'[m]);
    forall i | 0 <= i < |members'|
      ensures MemberOk(members'[i], w', base, w.Taken())
    {
      FinishKeepsMembers(w, base, members, m, result, i);
    }
    assert ExecutedBefore(w', w'.Taken()) by { FinishedPlace(w, base, members, m); }
  }

  lemma FinishedPlace(w: Worker, base: nat, members: seq<Member>, m: nat)
    requires QueueInv(w) && RunningInv(w, base, members) && m < |members|
    ensures members[m].index < w.Taken()
  {
    assert MemberOk(members[m], w, base, w.Taken());
  }

  lemma CutsAreBounded(order: seq<nat>, cuts: seq<nat>, limit: nat, last: nat, k: nat)
    requires Rounds(order, cuts, limit, last) && k < |cuts|
    ensures cuts[k] <= last
    decreases |cuts| - k
  {
    if k + 1 < |cuts| {
      assert RoundOk(order, cuts, limit, k);
      CutsAreBounded(order, cuts, limit, last, k + 1);
    }
  }

  /** Appending to the order does not disturb the finished rounds. */
  lemma RoundsGrow(order: seq<nat>, order': seq<nat>, cuts: seq<nat>, limit: nat, last: nat)
    requires Rounds(order, cuts, limit, last)
    requires last <= |order'| && order'[..last] == order[..last]
    ensures Rounds(order', cuts, limit, last)
  {
    forall k: nat | k + 1 < |cuts|
      ensures RoundOk(order', cuts, limit, k)
    {
      CutsAreBounded(order, cuts, limit, last, k + 1);
      assert RoundOk(order, cuts, limit, k);
      assert order'[cuts[k]..cuts[k + 1]] == order'[..last][cuts[k]..cuts[k + 1]];
      assert order[cuts[k]..cuts[k + 1]] == order[..last][cuts[k]..cuts[k + 1]];
    }
    assert order'[0..last] == order'[..last] && order[0..last] == order[..last];
  }

  /** An output of the running round never overtakes its window. */
  lemma HandKeepsWindow(w: Worker, base: nat, members: seq<Member>, m: nat)
    requires QueueInv(w) && RunningInv(w, base, members) && m < |members|
    requires WithinWindow(w.order, w.Limit())
    ensures WithinWindow(w.order + [members[m].index], w.Limit())
  {
    assert MemberOk(members[m], w, base, w.Taken());
    forall p | 0 <= p < |w.order|
      ensures w.order[p] < w.Taken()
    {
      if p < base {
        assert w.order[p] in multiset(w.order[0..base]);
        RangeMembers(0, base, w.order[p]);
      } else {
        assert w.order[p] in multiset(w.order[base..]);
        RangeMembers(base, w.Taken(), w.order[p]);
      }
    }
  }

  lemma HandKeepsIndices(order: seq<nat>, base: nat, taken: nat, members: seq<Member>, m: nat)
    requires m < |members| && base <= |order| && base <= taken
    requires multiset(order[base..]) + multiset(Indices(members)) == multiset(Range(base, taken))
    ensures multiset((order + [members[m].index])[base..]) + multiset(Indices(Without(members, m)))
         == multiset(Range(base, taken))
  {
    assert Indices(Without(members, m)) == Without(Indices(members), m);
    assert (order + [members[m].index])[base..] == order[base..] + [members[m].index];
  }

  lemma MemberFrame(member: Member, w: Worker, w': Worker, lo: nat, hi: nat)
    requires MemberOk(member, w, lo, hi) && w'.accepted == w.accepted && w'.executed == w.executed
    ensures MemberOk(member, w', lo, hi)
  {
  }

  lemma HandKeepsMembers(w: Worker, lo: nat, hi: nat, members: seq<Member>, m: nat, w': Worker)
    requires DistinctIndices(members) && m < |members|
    requires forall i :: 0 <= i < |members| ==> MemberOk(members[i], w, lo, hi)
    requires w'.accepted == w.accepted && w'.executed == w.executed
    ensures DistinctIndices(Without(members, m))
    ensures forall i :: 0 <= i < |members| - 1 ==> MemberOk(Without(members, m)[i], w', lo, hi)
  {
    hide MemberOk;
    forall i | 0 <= i < |members| - 1
      ensures MemberOk(Without(members, m)[i], w', lo, hi)
    {
      var k := if i < m then i else i + 1;
      assert Without(members, m)[i] == members[k];
      MemberFrame(members[k], w, w', lo, hi);
    }
  }

  lemma HandKeepsRounds(order: seq<nat>, index: nat, cuts: seq<nat>, limit: nat, base: nat)
    requires Rounds(order, cuts, limit, base)
    ensures base <= |order| && Rounds(order + [index], cuts, limit, base)
  {
    assert (order + [index])[..base] == order[..base];
    RoundsGrow(order, order + [index], cuts, limit, base);
    hide RoundOk;
  }

  lemma HandKeepsRunning(w: Worker, base: nat, members: seq<Member>, m: nat, w': Worker)
    requires QueueInv(w) && RunningInv(w, base, members) && m < |members|
    requires w' == w.(phase := Running(base, Without(members, m)),
                      order := w.order + [members[m].index], done := w'.done)
    ensures RunningInv(w', base, Without(members, m))
  {
    hide Rounds, MemberOk, DistinctIndices, Indices;
    HandKeepsRounds(w.order, members[m].index, w.cuts, w.Limit(), base);
    HandKeepsIndices(w.order, base, w.Taken(), members, m);
    HandKeepsMembers(w, base, w.Taken(), members, m, w');
  }

  lemma HandKeepsOutput(w: Worker, member: Member, w': Worker)
    requires OutputInv(w) && member.Finished?
    requires member.index < |w.accepted| && member.index in w.executed
    requires Carries(w.accepted[member.index], w.executed[member.index], member.output)
    requires w'.accepted == w.accepted && w'.executed == w.executed
    requires w'.order == w.order + [member.index] && w'.done == w.done + [member.output]
    ensures OutputInv(w')
  {
  }

  lemma HandedMember(w: Worker, base: nat, members: seq<Member>, m: nat)
    requires QueueInv(w) && RunningInv(w, base, members) && m < |members| && members[m].Finished?
    ensures members[m].index < |w.accepted| && members[m].index in w.executed
    ensures Carries(w.accepted[members[m].index], w.executed[members[m].index], members[m].output)
  {
    assert MemberOk(members[m], w, base, w.Taken());
    hide Rounds, DistinctIndices;
  }

  lemma HandKeepsInv(w: Worker, m: nat)
    requires Inv(w) && Enabled(w, Hand(m))
    ensures Inv(Apply(w, Hand(m)))
  {
    hide Rounds, MemberOk, RunningInv, OutputInv, WithinWindow, DistinctIndices;
    var w' := Apply(w, Hand(m));
    var base, members := w.phase.base, w.phase.members;
    HandedMember(w, base, members, m);
    HandKeepsWindow(w, base, members, m);
    HandKeepsRunning(w, base, members, m, w');
    HandKeepsOutput(w, members[m], w');
  }

  lemma RegroupKeepsRounds(order: seq<nat>, cuts: seq<nat>, limit: nat, base: nat)
    requires Rounds(order, cuts, limit, base)
    requires base < |order| <= base + limit
    requires multiset(order[base..]) == multiset(Range(base, |order|))
    ensures Rounds(order, cuts + [|order|], limit, |order|)
  {
    var cuts' := cuts + [|order|];
    assert order[base..|order|] == order[base..];
    SplitMultiset(order, base);
    RangeSplit(0, base, |order|);
    assert order[0..base] == order[..base] && order[0..|order|] == order;
    forall k: nat | k + 1 < |cuts'|
      ensures RoundOk(order, cuts', limit, k)
    {
      if k + 1 < |cuts| {
        assert RoundOk(order, cuts, limit, k);
      }
    }
  }

  /** A round without members is over, and joins the finished ones. */
  lemma FinishedRound(w: Worker, base: nat)
    requires QueueInv(w) && RunningInv(w, base, [])
    ensures |w.order| == w.Taken() && ExecutedBefore(w, |w.order|)
    ensures Rounds(w.order, w.cuts + [|w.order|], w.Limit(), |w.order|)
  {
    hide Rounds, ExecutedBefore, MemberOk;
    assert Indices([]) == [];
    FinishedOrder(w.order, base, w.Taken());
    RegroupKeepsRounds(w.order, w.cuts, w.Limit(), base);
  }

  lemma FinishedOrder(order: seq<nat>, base: nat, taken: nat)
    requires base <= |order| && base <= taken
    requires multiset(order[base..]) + multiset([]) == multiset(Range(base, taken))
    ensures multiset(order[base..]) == multiset(Range(base, taken))
  {
  }

  lemma RegroupKeepsInv(w: Worker)
    requires Inv(w) && Enabled(w, Regroup)
    ensures Inv(Apply(w, Regroup))
  {
    hide Rounds, OutputInv, WithinWindow, RunningInv;
    FinishedRound(w, w.phase.base);
    OutputFrame(w, Apply(w, Regroup));
  }

  lemma WakeKeepsInv(w: Worker)
    requires Inv(w) && Enabled(w, Wake)
    ensures Inv(Apply(w, Wake))
  {
    if !(|w.phase.buffer| < w.Limit() && w.queue != []) {
      DispatchKeepsInv(w, w.phase.buffer);
    }
  }

  lemma ReturnKeepsInv(w: Worker)
    requires Inv(w) && Enabled(w, Return)
    ensures Inv(Apply(w, Return))
  {
  }

  lemma DisconnectKeepsInv(w: Worker)
    requires Inv(w) && Enabled(w, Disconnect)
    ensures Inv(Apply(w, Disconnect))
  {
    hide Rounds, WithinWindow;
  }

  /** Every step keeps the invariant, so it holds in every state of every run. */
  lemma StepKeepsInv(w: Worker, a: Action)
    requires Inv(w) && Enabled(w, a)
    ensures Inv(Apply(w, a))
  {
    hide Inv, Enabled, Apply;
    match a
    case Accept(input) => AcceptKeepsInv(w, input);
    case Disconnect => DisconnectKeepsInv(w);
    case Collect(count) => CollectKeepsInv(w, count);
    case Wake => WakeKeepsInv(w);
    case Finish(m, result) => FinishKeepsInv(w, m, result);
    case Hand(m) => HandKeepsInv(w, m);
    case Regroup => RegroupKeepsInv(w);
    case Return => ReturnKeepsInv(w);
  }
}

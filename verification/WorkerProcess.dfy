/**
 A worker seen as a process of atomic steps: compute/src/workers/workflow.rs.

 Each step is the code between two await points of `run_series` or `run_batch`. The fields
 `accepted`, `order`, `done`, `cuts` and `executed` are history: they never influence a step. `executed`
 has the outcome of each execution, by the place at which its task was accepted.
 */
module WorkerProcess {
  import opened Sequences
  import opened Tasks

  const MAX_BATCH_SIZE: nat := 8

  /** One future of the `join!`: executing, or holding an output it wants to send. */
  datatype Member =
    | Executing(index: nat, input: WorkerInput)
    | Finished(index: nat, output: WorkerOutput)
  {
    function Tag(): TaskTag {
      if Executing? then input.Tag() else output.Tag()
    }
  }

  datatype Phase =
    | Collecting(buffer: seq<WorkerInput>)
    | Sleeping(buffer: seq<WorkerInput>)
    | Running(base: nat, members: seq<Member>)
    | Returned

  datatype Mode = Series | Batch(size: nat)

  datatype Worker = Worker(
    mode: Mode,
    capacity: nat,
    queue: seq<WorkerInput>,
    connected: bool,
    phase: Phase,
    accepted: seq<WorkerInput>,
    order: seq<nat>,
    done: seq<WorkerOutput>,
    cuts: seq<nat>,
    executed: map<nat, Outcome>)
  {
    /** How many tasks one round may take from the queue. */
    function Limit(): nat {
      if mode.Series? then 1 else mode.size
    }

    /** How many accepted tasks have left the queue. */
    function Taken(): nat
      requires |queue| <= |accepted|
    {
      |accepted| - |queue|
    }
  }

  function Fresh(mode: Mode, capacity: nat): Worker {
    Worker(mode, capacity, [], true, Collecting([]), [], [], [], [0], map[])
  }

  datatype Action =
    | Accept(input: WorkerInput)
    | Disconnect
    | Collect(count: nat)
    | Wake
    | Finish(member: nat, result: Outcome)
    | Hand(member: nat)
    | Regroup
    | Return

  /** `recv_many` takes a non-empty prefix; it waits on an open empty queue. */
  predicate CanCollect(w: Worker, count: nat) {
    && w.phase.Collecting?
    && |w.phase.buffer| <= w.Limit()
    && 1 <= count <= w.Limit() - |w.phase.buffer|
    && count <= |w.queue|
  }

  predicate Enabled(w: Worker, a: Action) {
    match a
    case Accept(_) => w.connected && !w.phase.Returned? && |w.queue| < w.capacity
    case Disconnect => w.connected
    case Collect(count) => CanCollect(w, count)
    case Wake => w.phase.Sleeping?
    case Finish(m, _) => w.phase.Running? && m < |w.phase.members| && w.phase.members[m].Executing?
    case Hand(m) => w.phase.Running? && m < |w.phase.members| && w.phase.members[m].Finished?
    case Regroup => w.phase.Running? && w.phase.members == []
    case Return =>
      && w.phase.Collecting?
      && (w.Limit() <= |w.phase.buffer| || (w.queue == [] && !w.connected))
  }

  function Members(base: nat, inputs: seq<WorkerInput>): (r: seq<Member>)
    ensures |r| == |inputs|
    ensures forall i :: 0 <= i < |r| ==> r[i] == Executing(base + i, inputs[i])
  {
    seq(|inputs|, i requires 0 <= i < |inputs| => Executing(base + i, inputs[i]))
  }

  /** Leaving the collection loop: every collected task becomes a member of the round. */
  function Dispatch(w: Worker, inputs: seq<WorkerInput>): Worker {
    w.(phase := Running(|w.order|, Members(|w.order|, inputs)))
  }

  function Apply(w: Worker, a: Action): Worker
    requires Enabled(w, a)
  {
    match a
    case Accept(input) => w.(queue := w.queue + [input], accepted := w.accepted + [input])
    case Disconnect => w.(connected := false)
    case Collect(count) =>
      var buffer := w.phase.buffer + w.queue[..count];
      var w' := w.(queue := w.queue[count..]);
      if w.mode.Series? then Dispatch(w', buffer) else w'.(phase := Sleeping(buffer))
    case Wake =>
      if |w.phase.buffer| < w.Limit() && w.queue != []
      then w.(phase := Collecting(w.phase.buffer))
      else Dispatch(w, w.phase.buffer)
    case Finish(m, result) =>
      var member := w.phase.members[m];
      var finished := Finished(member.index, Execute(member.input, result));
      w.(phase := Running(w.phase.base, w.phase.members[m := finished]),
         executed := w.executed[member.index := result])
    case Hand(m) =>
      var member := w.phase.members[m];
      w.(phase := Running(w.phase.base, Without(w.phase.members, m)),
         order := w.order + [member.index],
         done := w.done + [member.output])
    case Regroup => w.(phase := Collecting([]), cuts := w.cuts + [|w.order|])
    case Return => w.(phase := Returned)
  }

  // ---------------------------------------------------------------- invariant

  function Indices(members: seq<Member>): (r: seq<nat>)
    ensures |r| == |members|
    ensures forall i :: 0 <= i < |r| ==> r[i] == members[i].index
  {
    seq(|members|, i requires 0 <= i < |members| => members[i].index)
  }

  function MemberTags(members: seq<Member>): (r: seq<TaskTag>)
    ensures |r| == |members|
    ensures forall i :: 0 <= i < |r| ==> r[i] == members[i].Tag()
  {
    seq(|members|, i requires 0 <= i < |members| => members[i].Tag())
  }

  /** No output overtakes a task accepted `window` or more places before it. */
  ghost predicate WithinWindow(order: seq<nat>, window: nat) {
    forall p, q :: 0 <= p < q < |order| ==> order[p] < order[q] + window
  }

  /** Places lo..hi of the order hold exactly the tasks accepted at places lo..hi. */
  ghost predicate Permutes(order: seq<nat>, lo: nat, hi: nat) {
    lo <= hi <= |order| && multiset(order[lo..hi]) == multiset(Range(lo, hi))
  }

  /** Round k, between two consecutive cuts, hands out exactly its own tasks. */
  ghost predicate RoundOk(order: seq<nat>, cuts: seq<nat>, limit: nat, k: nat) {
    && k + 1 < |cuts|
    && 1 <= cuts[k + 1] - cuts[k] <= limit
    && Permutes(order, cuts[k], cuts[k + 1])
  }

  /** `cuts` lists the ends of the finished rounds, the last of which ends at `last`. */
  ghost predicate Rounds(order: seq<nat>, cuts: seq<nat>, limit: nat, last: nat) {
    && |cuts| > 0
    && cuts[0] == 0
    && cuts[|cuts| - 1] == last
    && last <= |order|
    && Permutes(order, 0, last)
    && forall k: nat :: k + 1 < |cuts| ==> RoundOk(order, cuts, limit, k)
  }

  ghost predicate QueueInv(w: Worker) {
    && |w.queue| <= |w.accepted|
    && |w.queue| <= w.capacity
    && w.accepted[w.Taken()..] == w.queue
  }

  ghost predicate OutputInv(w: Worker) {
    && |w.order| == |w.done|
    && forall p :: 0 <= p < |w.order| ==>
      && w.order[p] < |w.accepted|
      && w.order[p] in w.executed
      && Carries(w.accepted[w.order[p]], w.executed[w.order[p]], w.done[p])
  }

  /** Nothing is executed from this place on. */
  ghost predicate ExecutedBefore(w: Worker, place: nat) {
    forall k :: k in w.executed ==> k < place
  }

  ghost predicate BufferInv(w: Worker, buffer: seq<WorkerInput>)
    requires QueueInv(w)
  {
    && |buffer| <= w.Taken()
    && |w.order| == w.Taken() - |buffer|
    && buffer == w.accepted[|w.order|..w.Taken()]
    && ExecutedBefore(w, |w.order|)
    && Rounds(w.order, w.cuts, w.Limit(), |w.order|)
  }

  /** A member is executed at most once, and holds its task before and its output afterwards. */
  ghost predicate MemberOk(member: Member, w: Worker, lo: nat, hi: nat) {
    && lo <= member.index < hi <= |w.accepted|
    && match member
       case Executing(n, input) => input == w.accepted[n] && n !in w.executed
       case Finished(n, output) => n in w.executed && Carries(w.accepted[n], w.executed[n], output)
  }

  ghost predicate DistinctIndices(members: seq<Member>) {
    forall i, j :: 0 <= i < j < |members| ==> members[i].index != members[j].index
  }

  ghost predicate RunningInv(w: Worker, base: nat, members: seq<Member>)
    requires QueueInv(w)
  {
    && base < w.Taken() <= base + w.Limit()
    && |w.order| + |members| == w.Taken()
    && Rounds(w.order, w.cuts, w.Limit(), base)
    && multiset(w.order[base..]) + multiset(Indices(members)) == multiset(Range(base, w.Taken()))
    && ExecutedBefore(w, w.Taken())
    && DistinctIndices(members)
    && forall m :: 0 <= m < |members| ==> MemberOk(members[m], w, base, w.Taken())
  }

  ghost predicate PhaseInv(w: Worker)
    requires QueueInv(w)
  {
    match w.phase
    case Collecting(buffer) =>
      && BufferInv(w, buffer)
      && (buffer != [] ==> |buffer| < w.Limit() && w.queue != [])
    case Sleeping(buffer) => BufferInv(w, buffer) && 1 <= |buffer| <= w.Limit()
    case Running(base, members) => RunningInv(w, base, members)
    case Returned => BufferInv(w, []) && w.queue == [] && !w.connected
  }

  ghost predicate Inv(w: Worker) {
    && 1 <= w.Limit()
    && QueueInv(w)
    && OutputInv(w)
    && PhaseInv(w)
    && WithinWindow(w.order, w.Limit())
  }
}

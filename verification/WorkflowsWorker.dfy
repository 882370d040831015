/**
 The workflows worker as the source has it, with its two loops: compute/src/workers/workflow.rs.

 `arrivals` is what the node still sends, in order; at every await point the environment moves any
 part of it into the channel, may close the publish channel, and drops the node's sender once it
 has nothing left to send. The ghost field `process` follows the loops step by step, so whatever
 holds in every run of `WorkerProcess` holds here.
 */
module WorkflowsWorkers {
  import opened Sequences
  import opened Tasks
  import opened WorkerProcess
  import opened WorkerSafety
  import opened WorkerTheorems

  /** A future of the `join!`, without the place its task has in the history. */
  datatype Future = Pending(input: WorkerInput) | Ready(output: WorkerOutput)

  predicate Follows(future: Future, member: Member) {
    match member
    case Executing(_, input) => future == Pending(input)
    case Finished(_, output) => future == Ready(output)
  }

  ghost predicate AllFollow(futures: seq<Future>, members: seq<Member>) {
    && |futures| == |members|
    && forall i :: 0 <= i < |futures| ==> Follows(futures[i], members[i])
  }

  class WorkflowsWorker {
    const capacity: nat
    /** The buffer of `workflow_rx`. */
    var queue: seq<WorkerInput>
    /** Whether the node still holds the sender of `workflow_rx`. */
    var connected: bool
    /** Whether `workflow_rx` has been closed from this side. */
    var closed: bool
    /** The outputs `publish_tx` took, and those it refused because its receiver was closed. */
    var published: seq<WorkerOutput>
    var refused: seq<WorkerOutput>
    var publishOpen: bool
    var arrivals: seq<WorkerInput>
    ghost var process: Worker

    ghost predicate Valid()
      reads this
    {
      && capacity >= 1
      && Inv(process)
      && process.capacity == capacity
      && process.queue == queue
      && process.connected == connected
      && process.done == published + refused
      && (refused != [] ==> !publishOpen)
      && (!connected ==> arrivals == [])
      && (closed <==> process.phase.Returned?)
    }

    /** Everything this worker is ever sent. */
    ghost function Load(): seq<WorkerInput>
      reads this
    {
      process.accepted + arrivals
    }

    constructor (mode: Mode, capacity: nat, arrivals: seq<WorkerInput>)
      requires capacity >= 1 && (mode.Batch? ==> mode.size >= 1)
      ensures Valid() && !closed && process == Fresh(mode, capacity)
      ensures Load() == arrivals
    {
      this.capacity := capacity;
      queue, connected, closed := [], true, false;
      published, refused, publishOpen := [], [], true;
      this.arrivals := arrivals;
      process := Fresh(mode, capacity);
      new;
      hide Inv;
      FreshInv(mode, capacity);
    }

    ghost method Step(a: Action)
      requires Inv(process) && Enabled(process, a)
      modifies this`process
      ensures process == Apply(old(process), a) && Inv(process)
    {
      StepKeepsInv(process, a);
      process := Apply(process, a);
    }

    /** The node's next send goes through. */
    method Deliver()
      requires Valid() && !closed && arrivals != [] && |queue| < capacity
      modifies this`queue, this`arrivals, this`process
      ensures Valid() && Load() == old(Load())
      ensures process == Apply(old(process), Accept(old(arrivals[0])))
      ensures queue == old(queue) + [old(arrivals[0])] && arrivals == old(arrivals[1..])
    {
      assert process.accepted + arrivals == process.accepted + [arrivals[0]] + arrivals[1..];
      Step(Accept(arrivals[0]));
      queue, arrivals := queue + [arrivals[0]], arrivals[1..];
    }

    /** The node, which has nothing left to send, drops its sender. */
    method Hangup()
      requires Valid() && connected && arrivals == []
      modifies this`connected, this`process
      ensures Valid() && !connected && process == Apply(old(process), Disconnect)
    {
      Step(Disconnect);
      connected := false;
    }

    /** An await point only lengthens the queue, by tasks the node had still to send. */
    twostate predicate Awaited()
      reads this
    {
      && Load() == old(Load())
      && process.phase == old(process.phase)
      && process.mode == old(process.mode)
      && |queue| >= |old(queue)|
      && |arrivals| + |queue| == old(|arrivals| + |queue|)
    }

    /** What others may do while this worker awaits: `wanted` asks for something to arrive. */
    method Await(wanted: bool)
      requires Valid() && !closed
      modifies this`queue, this`connected, this`publishOpen, this`arrivals, this`process
      ensures Valid() && Awaited()
      ensures wanted && queue == [] ==> !connected
    {
      hide Inv;
      var stop: bool := *;
      while arrivals != [] && |queue| < capacity && (!stop || (wanted && queue == []))
        invariant Valid() && !closed && Awaited()
        decreases |arrivals|
      {
        Deliver();
        stop := *;
      }
      if connected && arrivals == [] && (stop || wanted) {
        Hangup();
      }
      var closes: bool := *;
      publishOpen := publishOpen && !closes;
    }

    /** `recv_many(limit)`: a non-empty prefix, or nothing once the channel is closed and empty. */
    method RecvMany(limit: nat) returns (tasks: seq<WorkerInput>)
      requires Valid() && !closed && process.phase.Collecting?
      requires limit == process.Limit() - |process.phase.buffer| && limit >= 1
      modifies this`queue, this`connected, this`publishOpen, this`arrivals, this`process
      ensures Valid() && Load() == old(Load()) && process.mode == old(process.mode)
      ensures |tasks| <= limit
      ensures tasks == [] ==> queue == [] && !connected && process.phase == old(process.phase)
      ensures tasks != [] ==>
        process.phase == (if process.mode.Series?
                          then Running(|process.order|, Members(|process.order|, old(process.phase.buffer) + tasks))
                          else Sleeping(old(process.phase.buffer) + tasks))
      ensures |arrivals| + |queue| + |tasks| == old(|arrivals| + |queue|)
    {
      hide Inv;
      if queue == [] {
        Await(true);
      }
      tasks := [];
      if queue != [] {
        var n: nat :| 1 <= n <= limit && n <= |queue|;
        Step(Collect(n));
        tasks, queue := queue[..n], queue[n..];
      }
    }

    /** The executor's answer comes from a foreign call; the piggybacked fields are kept. */
    method ExecuteWorkflow(input: WorkerInput) returns (output: WorkerOutput)
      ensures output == Execute(input, output.result)
    {
      var result: Outcome := *;
      output := Execute(input, result);
    }

    /** `publish_tx.send`: once the receiver is closed the output is only logged as an error. */
    method Send(output: WorkerOutput)
      requires refused != [] ==> !publishOpen
      modifies this`published, this`refused
      ensures publishOpen ==> published == old(published) + [output] && refused == old(refused)
      ensures !publishOpen ==> published == old(published) && refused == old(refused) + [output]
    {
      if publishOpen {
        published := published + [output];
      } else {
        refused := refused + [output];
      }
    }

    /** Future i finishes its execution. */
    method Poll(i: nat, input: WorkerInput) returns (output: WorkerOutput)
      requires Valid() && process.phase.Running? && i < |process.phase.members|
      requires Follows(Pending(input), process.phase.members[i])
      modifies this`process
      ensures Valid() && process == Apply(old(process), Finish(i, output.result))
      ensures output == Execute(input, output.result)
    {
      hide Inv;
      output := ExecuteWorkflow(input);
      Step(Finish(i, output.result));
    }

    /** Future i, which has finished, sends its output. */
    method Publish(i: nat, output: WorkerOutput)
      requires Valid() && process.phase.Running? && i < |process.phase.members|
      requires Follows(Ready(output), process.phase.members[i])
      modifies this`process, this`published, this`refused
      ensures Valid() && process == Apply(old(process), Hand(i))
    {
      hide Inv;
      Step(Hand(i));
      Send(output);
    }

    /** One future of the round makes one step; which one is up to the scheduler. */
    method Advance(futures: seq<Future>) returns (futures': seq<Future>)
      requires Valid() && process.phase.Running?
      requires futures != [] && AllFollow(futures, process.phase.members)
      modifies this`process, this`published, this`refused
      ensures Valid() && process.phase.Running? && AllFollow(futures', process.phase.members)
      ensures MemberWork(process.phase.members) < MemberWork(old(process.phase.members))
      ensures process.accepted == old(process.accepted) && process.mode == old(process.mode)
    {
      hide Inv;
      ghost var before := process;
      var i: nat :| i < |futures|;
      assert Follows(futures[i], process.phase.members[i]);
      match futures[i]
      case Pending(input) =>
        var output := Poll(i, input);
        FinishShrinksWork(before, i, output.result);
        futures' := futures[i := Ready(output)];
      case Ready(output) =>
        Publish(i, output);
        HandShrinksWork(before, i);
        futures' := Without(futures, i);
    }

    /** `join!` over the futures of one round: they finish and send in any order. */
    method Join(tasks: seq<WorkerInput>)
      requires Valid() && !closed
      requires process.phase.Running?
      requires process.phase.members == Members(process.phase.base, tasks)
      modifies this`queue, this`connected, this`publishOpen, this`arrivals, this`process, this`published, this`refused
      ensures Valid() && Load() == old(Load()) && process.mode == old(process.mode)
      ensures process.phase == Collecting([])
      ensures |arrivals| + |queue| == old(|arrivals| + |queue|)
    {
      hide Inv;
      var futures := seq(|tasks|, i requires 0 <= i < |tasks| => Pending(tasks[i]));
      while futures != []
        invariant Valid() && !closed && Load() == old(Load()) && process.mode == old(process.mode)
        invariant process.phase.Running? && AllFollow(futures, process.phase.members)
        invariant |arrivals| + |queue| == old(|arrivals| + |queue|)
        decreases MemberWork(process.phase.members)
      {
        Await(false);
        futures := Advance(futures);
      }
      Step(Regroup);
    }

    /** Closes the workflow receiver. */
    method Shutdown()
      requires Valid() && !closed && Enabled(process, Return)
      modifies this`closed, this`process
      ensures Valid() && closed && process == Apply(old(process), Return)
    {
      Step(Return);
      closed := true;
    }

    /** Executes the tasks one by one until the channel is closed and empty. */
    method RunSeries()
      requires Valid() && !closed
      requires process.mode == Series && process.phase == Collecting([])
      modifies this
      ensures Valid() && closed && arrivals == [] && queue == []
      ensures OutputTags(published + refused) == InputTags(old(Load()))
      ensures AllCarried(old(Load()), process.order, process.executed, published + refused)
    {
      hide Inv;
      while true
        invariant Valid() && !closed && Load() == old(Load())
        invariant process.mode == Series && process.phase == Collecting([])
        decreases |arrivals| + |queue|
      {
        var received := RecvMany(1);
        if received != [] {
          assert [] + received == received;
          Join(received);
        } else {
          Shutdown();
          SeriesKeepsOrder(process);
          OutputsAreCarried(process);
          assert process.accepted == Load();
          assert process.accepted[..|process.done|] == Load();
          return;
        }
      }
    }

    /** Executes the tasks in batches of at most `batchSize` until the channel is closed and empty. */
    method RunBatch(batchSize: nat)
      requires Valid() && !closed
      requires 1 <= batchSize <= MAX_BATCH_SIZE
      requires process.mode == Batch(batchSize) && process.phase == Collecting([])
      modifies this
      ensures Valid() && closed && arrivals == [] && queue == []
      ensures Batching(InputTags(old(Load())), OutputTags(published + refused), process.cuts, batchSize)
      ensures WithinWindow(process.order, batchSize)
      ensures AllCarried(old(Load()), process.order, process.executed, published + refused)
    {
      hide Inv;
      while true
        invariant Valid() && !closed && Load() == old(Load())
        invariant process.mode == Batch(batchSize) && process.phase == Collecting([])
        decreases |arrivals| + |queue|
      {
        var tasks := [];
        ghost var load := |arrivals| + |queue|;
        while tasks == [] || (|tasks| < batchSize && queue != [])
          invariant Valid() && !closed && Load() == old(Load())
          invariant process.mode == Batch(batchSize) && |tasks| <= batchSize
          invariant process.phase == if tasks == [] then Collecting([]) else Sleeping(tasks)
          invariant |arrivals| + |queue| + |tasks| == load
          decreases batchSize - |tasks|
        {
          if tasks != [] {
            Step(Wake);
          }
          var limit := batchSize - |tasks|;
          var more := RecvMany(limit);
          if more == [] {
            assert tasks == [];
            Shutdown();
            ReturnedIsBatching(process);
            OutputsAreCarried(process);
            assert process.accepted == Load();
            return;
          }
          tasks := tasks + more;
          Await(false);
        }
        Step(Wake);
        if 1 <= |tasks| <= MAX_BATCH_SIZE {
          Join(tasks);
        } else {
          assert false;
        }
      }
    }
  }
}

/** The values that travel through the workers: compute/src/workers/workflow.rs. */
module Tasks {
  import opened Wrappers

  /** What the executor is given: the entry, the workflow and the model it was built for. */
  datatype Job = Job(entry: Option<string>, workflow: string, model: string)

  /** The outcome of an execution; its content comes from a foreign call. */
  datatype Outcome = Answer(text: string) | Failed(cause: string)

  /** What identifies a task on its way through the node. */
  datatype TaskTag = TaskTag(taskId: string, publicKey: string, modelName: string, batchable: bool)

  datatype WorkerInput = WorkerInput(
    job: Job, publicKey: string, taskId: string, modelName: string, batchable: bool)
  {
    function Tag(): TaskTag {
      TaskTag(taskId, publicKey, modelName, batchable)
    }
  }

  datatype WorkerOutput = WorkerOutput(
    result: Outcome, publicKey: string, taskId: string, modelName: string, batchable: bool)
  {
    function Tag(): TaskTag {
      TaskTag(taskId, publicKey, modelName, batchable)
    }
  }

  /** The output is that of this very task, and it carries what its execution produced. */
  predicate Carries(input: WorkerInput, result: Outcome, output: WorkerOutput) {
    && output.result == result
    && output.publicKey == input.publicKey
    && output.taskId == input.taskId
    && output.modelName == input.modelName
    && output.batchable == input.batchable
  }

  /** `WorkflowsWorker::execute` up to the send: the outcome plus the piggybacked fields. */
  function Execute(input: WorkerInput, result: Outcome): (output: WorkerOutput)
    ensures Carries(input, result, output)
  {
    WorkerOutput(result, input.publicKey, input.taskId, input.modelName, input.batchable)
  }

  function InputTags(inputs: seq<WorkerInput>): (r: seq<TaskTag>)
    ensures |r| == |inputs|
    ensures forall i :: 0 <= i < |r| ==> r[i] == inputs[i].Tag()
  {
    seq(|inputs|, i requires 0 <= i < |inputs| => inputs[i].Tag())
  }

  function OutputTags(outputs: seq<WorkerOutput>): (r: seq<TaskTag>)
    ensures |r| == |outputs|
    ensures forall i :: 0 <= i < |r| ==> r[i] == outputs[i].Tag()
  {
    seq(|outputs|, i requires 0 <= i < |outputs| => outputs[i].Tag())
  }

  lemma InputTagsConcat(a: seq<WorkerInput>, b: seq<WorkerInput>)
    ensures InputTags(a + b) == InputTags(a) + InputTags(b)
  {
  }

  lemma OutputTagsConcat(a: seq<WorkerOutput>, b: seq<WorkerOutput>)
    ensures OutputTags(a + b) == OutputTags(a) + OutputTags(b)
  {
  }
}

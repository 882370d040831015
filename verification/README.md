# The compute node, modelled and verified

This project models the Dria compute node: the event loop that admits signed tasks and publishes
their outcomes, the two workflow workers, the peer-to-peer client with its commander, the choice of
models, the two wire codecs, the identify handler and the monitor. It proves what the node relies on
in every run: no task is lost or altered, order is kept or bounded, pending ids are accounted for,
results are published once, only for warranted tasks that the swarm delivered and with the outcome of
their own execution, each verdict on a message has its exact condition, commands get their own
replies, and where exactly the system can get stuck.

`dafny verify dfyconfig.toml` checks everything.

## How it is built

* **Processes.** `WorkerProcess` and `ClientProcess` give a worker and the client as values with
  atomic steps (`Enabled`, `Apply`): what runs between two await points is one step. `System` puts
  the node, the client and the two workers together and interleaves them in any way. Channels are
  bounded sequences: a send waits while its channel is full and fails once it is closed; a receiver
  still gets what is buffered after that. Capacities and the batch size are parameters. History
  fields (`accepted`, `order`, `done`, `cuts`, `executed`, `seen`, `replies`, `History`) never influence
  a step.
* **Invariants.** `WorkerSafety`, `SystemSafety`, `SystemAccounting` and `SystemRuns` show that every
  step of every component keeps the invariants; `RunKeepsInv` carries them to every state of every
  run. `WorkerTheorems`, `SystemTheorems`, `SystemProvenance`, `SystemProgress`, `SystemDeadlocks` and
  `SystemWitnesses` say what follows.
* **Code in its own form.** `WorkflowsWorker`, `DriaP2PClient`, `DriaP2PCommander`,
  `DriaComputeNode`, `DriaWorkflowsConfig`, `TTLDataTransform` and `DriaMonitorNode` are classes whose
  methods have the loops and branches of the original. `WorkflowsWorker` and `DriaP2PClient` carry a
  ghost process that takes exactly the steps of `WorkerProcess` and `ClientProcess`.
* **One account of the node.** `NodeEvents` says for each event of the node's loop what is kept, which
  task is admitted and which commands are sent, apart from how it is done. The class (`ComputeNodes`) and
  the process (`NodeRefinement`, `SystemCommands`) are both proved to do just that.
* **Foreign code** is a parameter: cryptography (`Message.Crypto`), JSON (`World.parse...`), the Bloom
  filter (`World.bloom`), model names (`Config.Catalog`), probes of services (`Services.Services`),
  clocks and random draws (`Handlers.Moment`). Executing a workflow yields any outcome.

## What the proofs show about the code

* A block can happen, and is then for ever (`SystemProgress.BlockIsForEver`). There are two kinds.
  The client waits for room in the message or request channel while the node, which alone empties
  it, waits for the client's reply. Or the node waits for room in a worker's channel while that
  worker waits for room in the publish channel, which the node alone empties. `StuckExactly` shows
  that there is no other way to be stuck inside a handler. Both are reachable whatever the capacities
  (`ClientBlockIsReachable`, `WorkerBlockIsReachable`). With room for a message and a request and
  with fewer tasks in flight than the bound of `RoomMeansProgress`, the system is not stuck, and that
  bound is the best possible one.
* A message from a known RPC node ends the node in exactly three cases (`Handlers.CrashesExactly`): its
  payload decodes to fewer than 130 bytes; it is correctly signed and its inner topic is neither `ping`
  nor `task`; or it is a correctly signed task, received before its deadline, whose filter makes the
  filter library panic. The slices at compute/src/utils/message.rs:88 and :106 are not guarded; the arm
  at compute/src/node.rs:316 looks at the inner topic, not at the one the message came under; and
  compute/src/utils/filter.rs:103-111 records that the library panics on an empty filter. The first case
  needs no signature: `SystemWitnesses.EmptyPayloadEndsNode` is a run from start-up to the end of the node.
* The reported number of pending tasks of a kind is right exactly as long as no task of the kind is
  admitted while one with the same id is in flight in that kind
  (`SystemTheorems.CountsAgreeIffNoReentry`): the pending set holds an id once however many tasks carry
  it. One message that comes twice is enough (`SystemWitnesses.WrongCountIsReachable`).
* What the monitor shows as pending depends on the order of the messages exactly if one of them makes its
  handler panic and one of them is a task (`Monitor.OrderDoesNotMatterExactly`).
* The time to live of a message is added with wrap-around in a release build, so a message time near
  the end of the 64-bit range is refused instead of kept (`Transform.DeadlineIsIntended`).
* With a batch size of 0 the batch worker returns at once and leaves its queue as it is
  (`WorkerTheorems.ZeroSizeWorkerDropsItsQueue`); everything else is proved for sizes of 1 to 8.
* The two characters of the recovery id inside a signed payload are never looked at
  (`Message.AcceptsExactly` leaves them free).
* The comment on model matching mentions the name `all` (workflows/src/config.rs:109); the code knows
  only `*`. The model follows the code.

## Model

| member | source | states |
|---|---|---|
| WorkflowsWorkers.WorkflowsWorker.constructor | compute/src/workers/workflow.rs:52-63 | a new worker has an empty open channel and everything still to receive |
| WorkflowsWorkers.WorkflowsWorker.RecvMany | compute/src/workers/workflow.rs:114-122 | takes a non-empty prefix of the queue of at most the limit; nothing only if the channel is closed and empty |
| WorkflowsWorkers.WorkflowsWorker.Join | compute/src/workers/workflow.rs:133-208 | the futures of a round finish and send in any order, each once, and the round ends |
| WorkflowsWorkers.WorkflowsWorker.Send | compute/src/workers/workflow.rs:238-240 | an output goes into the publish channel, or is refused if that is closed |
| WorkflowsWorkers.WorkflowsWorker.Shutdown | compute/src/workers/workflow.rs:66-69 | closes the receiver, which happens only when it is drained |
| WorkflowsWorkers.WorkflowsWorker.RunSeries | compute/src/workers/workflow.rs:75-86 | terminates with everything it was ever sent executed once and handed out in exactly the order of arrival, each with the outcome of its own execution |
| WorkflowsWorkers.WorkflowsWorker.RunBatch | compute/src/workers/workflow.rs:95-210 | terminates with its whole input handed out as consecutive segments of 1 to `batch_size` tasks, each permuted, every output with the outcome of its own execution; nothing overtakes across a batch size; the catch-all arm is dead and the limit never underflows |
| WorkerSafety.StepKeepsInv | compute/src/workers/workflow.rs:75-241 | every step of a worker keeps the invariant on queue, rounds, members, order and outcomes |
| WorkerTheorems.BoundedReordering | compute/src/workers/workflow.rs:102-209 | tasks accepted at least one batch size apart leave in the order they came |
| WorkerTheorems.RoundIsPermutation | compute/src/workers/workflow.rs:125-208 | each finished round is a permutation of the next 1 to `batch_size` accepted tasks |
| WorkerTheorems.ReturnedIsBatching | compute/src/workers/workflow.rs:102-210 | the outputs of a returned worker are its inputs, batch by batch |
| WorkerTheorems.SeriesKeepsOrder | compute/src/workers/workflow.rs:75-86 | the outputs of the series worker are a prefix of its inputs, in order |
| WorkerTheorems.Conservation | compute/src/workers/workflow.rs:75-241 | accepted tasks are those handed out plus those queued, collected or executing, as multisets of (id, key, model, kind) |
| WorkerTheorems.OutputsCarryTheirOutcomes | compute/src/workers/workflow.rs:213-241 | each output handed out has the key, id, model and kind of its own task and the outcome recorded when this task was executed |
| WorkerTheorems.OutcomesAreRecordedOnce | compute/src/workers/workflow.rs:213-230 | a step adds an outcome only by finishing that task, with just what the execution returned, and never changes an earlier one |
| WorkerTheorems.ShortBatchMeansEmptyQueue | compute/src/workers/workflow.rs:102-123 | after its pause a batch worker runs what it has collected iff the batch is full or the queue is empty, and else collects more |
| WorkerTheorems.OwnStepsTerminate | compute/src/workers/workflow.rs:102-123 | every step a worker takes by itself shrinks its work, over queue, buffer and unfinished members |
| WorkerTheorems.DrainingRunIsShort | compute/src/workers/workflow.rs:75-123 | a run of a worker's own steps is no longer than the work it had |
| WorkerTheorems.DrainingNeverBlocks | compute/src/workers/workflow.rs:75-123 | once the sender is dropped, a worker that has not returned can step |
| WorkerTheorems.DrainedMeansDone | compute/src/workers/workflow.rs:66-86 | when a disconnected worker can do no more, it has returned with every accepted task executed exactly once |
| WorkerTheorems.ReturnsEmptyHanded | compute/src/workers/workflow.rs:115-117 | a worker returns only with empty buffer and queue, so no partial batch is dropped |
| WorkerTheorems.DispatchArmExists | compute/src/workers/workflow.rs:125-207 | a dispatched batch has 1 to 8 members, so the `unreachable!` arm is |
| WorkerTheorems.ZeroSizeWorkerDropsItsQueue | compute/src/workers/workflow.rs:114-117 | with a batch size of 0 the only step is to return, whatever is queued |
| Tasks.Execute | compute/src/workers/workflow.rs:213-236 | the outcome of the execution and the piggybacked id, key, model and kind of the task come out unchanged |
| P2PClients.DriaP2PClient.HandleCommand | p2p/src/client.rs:183-302 | the first queued command is answered once, with its own tag; Shutdown also closes the queue |
| P2PClients.DriaP2PClient.HandleEvent | p2p/src/client.rs:305-345 | gossip messages and inbound requests are forwarded to the node, other events are not |
| P2PClients.DriaP2PClient.Turn | p2p/src/client.rs:165-178 | a turn of the biased `select!`: a queued command first, the end of the queue next, an event only otherwise |
| P2PClients.DriaP2PClient.Run | p2p/src/client.rs:163-180 | terminates with every accepted command answered once in FIFO order and, after Shutdown, nothing accepted and no event taken |
| P2PClients.DriaP2PCommander.Call | p2p/src/commands.rs:95-313 | send-then-await-reply: fails only on a closed channel, otherwise returns the reply to this very command after all earlier ones were answered |
| ClientProcess.NothingAfterShutdown | p2p/src/client.rs:288-300 | in every continuation after Shutdown was answered no command is accepted, no event is seen, and earlier commands are answered in order |
| ClientProcess.ClosedClientDrains | p2p/src/client.rs:163-180 | a closed client can step until it returns, and all it can do shrinks its work |
| ClientProcess.ReturnedClientAnsweredAll | p2p/src/client.rs:163-180 | a returned client has answered every command it accepted |
| ClientProcess.EventsYieldToCommands | p2p/src/client.rs:165-178 | an event is taken up only when every accepted command has been answered |
| ClientProcess.RunKeepsInv | p2p/src/client.rs:163-302 | replies match commands one to one, in order, in every run |
| ComputeNodes.DriaComputeNode.constructor | compute/src/node.rs:102-121 | there is a channel to a worker exactly for the kinds of models that are configured |
| ComputeNodes.DriaComputeNode.GetPendingTaskCount | compute/src/node.rs:177-182 | the sizes of the two pending sets |
| ComputeNodes.DriaComputeNode.SendToWorker | compute/src/node.rs:277-304 | the id is recorded and the task appended to the channel of its kind, if its worker exists |
| ComputeNodes.DriaComputeNode.HandleMessage | compute/src/node.rs:205-337 | carries out `Handlers.Decide`, whose every result has its exact condition below: verdict, admission, pong with the pending counts, or panic, and nothing else changes |
| ComputeNodes.DriaComputeNode.HandlePublish | compute/src/handlers/workflow.rs:116-179 | sends the outcome, and only if that fails a notice; succeeds iff one of the two does; nothing is sent for a result that cannot be encrypted |
| ComputeNodes.DriaComputeNode.TakeOutput | compute/src/node.rs:405-425 | the output is counted, its id forgotten, and it is published once or the loop ends |
| ComputeNodes.DriaComputeNode.TakeMessage | compute/src/node.rs:433-447 | the message is handled and then validated by its own id and peer, with the verdict of its own decision (after a ping: accepted iff the pong was published); a panic exactly on malformed messages |
| ComputeNodes.DriaComputeNode.HandleRequest | compute/src/node.rs:342-381 | a spec request of a known RPC node is responded to, any other request sends nothing |
| ComputeNodes.DriaComputeNode.HandleRefresh | compute/src/node.rs:537-554 | peers are only added, and every RPC node is dialled by its address, in order |
| ComputeNodes.DriaComputeNode.SwitchTopics | compute/src/node.rs:394-398 | the four topics are (un)subscribed in order, up to the first failure |
| ComputeNodes.DriaComputeNode.Run | compute/src/node.rs:385-479 | however the loop ends, what it keeps, sent and published is determined by the events it took: each admitted task sent once in order, each output taken published exactly once but for one whose publication ended the loop; all its commands are the script of start-up and of each event; shut down exactly if it ended well |
| ComputeNodes.DriaComputeNode.RunToEnd | compute/src/main.rs:117-125 | run, and shut down if that fails: the whole log of commands is start-up and then the script of each event, and the client is shut down unless the node panicked |
| NodeEvents.HandlingPublishes | compute/src/handlers/workflow.rs:116-179 | the script of an output publishes it exactly once unless it fails, any other script publishes nothing |
| NodeEvents.LogValidates | compute/src/node.rs:433-447 | in a log made of such scripts each message that did not crash the node is validated once, in order, with an allowed verdict |
| SystemCommands.CommandsFollowEvents | compute/src/node.rs:385-493 | in every run of the system the commands answered are exactly the script of start-up and of each event in order; in the middle of a handler some continuation of the command in hand completes them |
| SystemCommands.EachMessageIsValidated | compute/src/node.rs:433-447 | in every run the validations sent are, in order, one for each message taken that did not crash the node, with its id, its peer and the verdict its decision gives, up to the one in hand |
| SystemCommands.NoShutdownAtLoopHead | compute/src/node.rs:400-476 | while the node is in its loop no Shutdown has been answered |
| NodeRefinement.NodeFollowsEvents | compute/src/node.rs:385-464 | in every run of the system the node keeps, admits, completes and at loop heads has published what the class does on the same events |
| NodeRefinement.LoopTakesExactly | compute/src/node.rs:400-464 | in every reachable state an event can be taken up iff the node is at its loop head and the event is first in its channel or comes from outside; a closed channel is found iff there are no models |
| NodeRefinement.KnownPeers | compute/src/node.rs:537-554 | the known RPC nodes are the first ones and all that a refresh brought |
| NodeRefinement.CountersCountOutputs | compute/src/node.rs:408-417 | each counter counts the outputs of its kind, and together they count all |
| Handlers.AdmittedIsWarranted | compute/src/handlers/workflow.rs:33-113 | an admitted task came from a known RPC node, signed by the admin key, before its deadline, with this node in its filter, on a configured model it asks for, and its worker exists |
| Handlers.WarrantedCanBeAdmitted | compute/src/handlers/workflow.rs:33-113 | conversely every warranted task is admitted under some random draws |
| Handlers.ComputedHasWorker | compute/src/node.rs:277-304 | neither "no worker available" arm is reachable |
| Handlers.CrashesExactly | compute/src/node.rs:205-337 | a handler panics exactly on short payloads, on signed messages with a foreign inner topic, and on signed open tasks whose filter the library panics on |
| Handlers.RejectsExactly | compute/src/node.rs:205-337 | a sender is penalised exactly for a topic the node does not subscribe to, or, being known, for a readable signature that is not the admin key's over the body |
| Handlers.AcceptsExactly | compute/src/handlers/workflow.rs:42-62 | a message is accepted at once exactly if its topic is `pong` or `results`, or if it is an authentic task, open, whose filter can be read and does not contain this node |
| Handlers.IgnoresExactly | compute/src/node.rs:205-337 | a message is ignored exactly if its topic is listened to and: its source is missing or unknown, it cannot be parsed, its payload or signature cannot be read, or it is an authentic task or ping that cannot be parsed or has expired, or such a task whose filter cannot be read, or one for this node whose key cannot be read or for which no model is found |
| Handlers.AnswersExactly | compute/src/handlers/pingpong.rs:43-85 | a pong with an id is sent exactly for an authentic ping with this id whose deadline has not passed |
| SystemRuns.InitInv | compute/src/main.rs:82-126 | the four components start in a state that has the invariant |
| SystemSafety.CallsSucceed | p2p/src/commands.rs:107-168 | the node's next command can always be sent without waiting |
| SystemSafety.StepKeepsRpc | p2p/src/commands.rs:107-263 | at most one command is outstanding and its reply is its own, after every step |
| SystemSafety.StepKeepsWorker | compute/src/node.rs:277-302 | each worker has accepted exactly the admitted tasks of its kind in order, and its outputs of its kind are what entered the publish channel, after every step |
| SystemSafety.SendsSucceed | compute/src/node.rs:280-304 | sending an admitted task never fails |
| SystemAccounting.KindConservation | compute/src/node.rs:277-302 | per kind, admitted tasks are those completed plus those in the node's hand, the worker or the publish channel |
| SystemAccounting.StepKeepsPending | compute/src/node.rs:280-301 | pending ids stay ids in flight, and without re-entry all of them, after every step |
| SystemRuns.StepKeepsInv | compute/src/node.rs:385-493 | every step of every component keeps the invariant of the system, which includes the order in which events are delivered |
| SystemRuns.RunKeepsInv | compute/src/node.rs:385-493 | the invariant holds in every state of every run |
| SystemTheorems.NothingIsLost | compute/src/node.rs:277-425 | at every loop head, admitted = published + in flight as multisets, under any interleaving |
| SystemTheorems.SingleTasksKeepOrder | compute/src/node.rs:405-425 | in every state series tasks are completed in exactly the order of admission |
| SystemTheorems.BatchTasksStayInWindow | compute/src/node.rs:405-425 | in every state each completed batch task is a different admitted one, and tasks admitted a batch size apart are completed in order |
| SystemTheorems.PendingIsInFlight | compute/src/node.rs:408-417 | pending ids are ids in flight and no more than those; admitted = completed + in flight per kind |
| SystemTheorems.PendingIsExact | compute/src/node.rs:177-182 | with distinct ids in a kind its pending set is exactly the ids in flight, and as large |
| SystemTheorems.CountsAgreeIffNoReentry | compute/src/node.rs:177-182 | the pending count of a kind is right up to a state iff no earlier step admitted a task of the kind whose id was in flight in it |
| SystemTheorems.PublishedTracesBack | compute/src/handlers/workflow.rs:43-62 | every published result traces back to a warranted earlier message whose sender is still known |
| SystemProvenance.DeliveryKeepsOrder | p2p/src/client.rs:305-345 | while the node lives, the gossip messages the swarm delivered are, in this order, those taken up, those in the channel and the one being forwarded; the same for the inbound requests |
| SystemProvenance.TakenWasDelivered | p2p/src/client.rs:305-345 | in every state what the node took up is a prefix of what the swarm delivered |
| SystemProvenance.PublishedWasDelivered | compute/src/node.rs:433-436 | the message a published result traces back to is the one the swarm delivered in that place |
| SystemProvenance.PublishedWasExecuted | compute/src/workers/workflow.rs:213-241 | every published output is, field by field, that of an admitted task, with the outcome that an execution of this very task produced earlier in the run |
| SystemTheorems.PublishedExactlyOnce | compute/src/handlers/workflow.rs:116-179 | at every loop head successful result publications are the outputs taken, in order, and as many as the counters say |
| SystemTheorems.AtMostOneUnpublished | compute/src/node.rs:405-425 | at any time all outputs taken are published in order but at most the one in hand, and without one in hand only when the node leaves |
| SystemTheorems.SendsNeverFail | compute/src/node.rs:280-304 | no send of a task or of a command fails in any reachable state |
| SystemTheorems.ChannelsStayOpen | compute/src/node.rs:405-459 | at its loop head the node finds a channel closed iff there are no models |
| SystemTheorems.OnlyMalformedMessagesCrash | compute/src/node.rs:205-493 | the node goes only by its shutdown or by a malformed message |
| SystemTheorems.RepliesMatchCommands | p2p/src/commands.rs:107-313 | commands are answered exactly once, in order, and the node goes on with the reply to its own command |
| SystemProgress.StuckExactly | p2p/src/client.rs:163-180 | inside a handler the system is stuck iff every component waits for another in one of two patterns |
| SystemProgress.BlockIsForEver | p2p/src/client.rs:312-330 | once the core of such a pattern holds, the node stays where it is in every continuation |
| SystemProgress.RoomMeansProgress | compute/src/workers/workflow.rs:238-240 | below the message and request capacities and workflow + publish + 2 tasks in flight, a step is always possible |
| SystemProgress.HandlersFinish | compute/src/node.rs:385-479 | under any interleaving there are at most `Work` steps, and two more for each event of the swarm, before the node is back at its loop head, gone, or stuck |
| SystemProgress.GoneWindsDown | compute/src/node.rs:482-493 | once the node is gone only internal steps are left, at most `Work` of them |
| SystemProgress.RestMeansDone | compute/src/workers/workflow.rs:66-86 | they end with the client returned, all commands answered, and both workers returned with every task executed once |
| SystemProgress.RestsOnlyThere | compute/src/node.rs:400-464 | the components rest only with an idle loop, all wound down, or in a block |
| SystemDeadlocks.ClientBlockIsReachable | p2p/src/client.rs:312-330 | for any capacities a run leads from start-up into the block on the client |
| SystemDeadlocks.WorkerBlockIsReachable | compute/src/workers/workflow.rs:238-240 | for any capacities and any admissible message a run leads into the block on the worker, with exactly workflow + publish + 2 tasks in flight |
| SystemWitnesses.WrongCountIsReachable | compute/src/node.rs:280-301 | for any capacities and any admissible message a run leads to a state whose pending count is wrong |
| SystemWitnesses.CrashIsReachable | compute/src/node.rs:433-436 | any malformed message of a known RPC node ends the node straight from its loop |
| SystemWitnesses.EmptyPayloadEndsNode | compute/src/utils/message.rs:98-106 | an unsigned message with an empty payload from a known RPC node ends it |
| SystemWitnesses.EmptyFilterIsMalformed | compute/src/utils/filter.rs:17-51 | a signed open task with an empty filter is malformed, if the library panics on that |
| Config.New | workflows/src/config.rs:42-57 | the models in their order, each paired with the provider it belongs to |
| Config.GetModelsForProvider | workflows/src/config.rs:84-95 | a model is found iff it is configured under the provider |
| Config.ModelsKeepTheirPlaces | workflows/src/config.rs:84-95 | the models found are those at all the places of the provider, in order and as often as they are configured |
| Config.GetProviders | workflows/src/config.rs:184-193 | exactly the configured providers, each once |
| Config.ProvidersInOrder | workflows/src/config.rs:184-193 | they come in the order of their first appearance |
| Config.MatchingModelIsExact | workflows/src/config.rs:115-153 | what a name can return over all draws is exactly what it may mean: any, the first, the first of a provider, or the first of a model |
| Config.AnyMatchIsExact | workflows/src/config.rs:156-180 | the possible results over all draws are exactly the union over the requested names |
| Config.AnyMatchFails | workflows/src/config.rs:176-179 | it fails iff no requested name means anything, under every draw |
| Config.MatchingModelFails | workflows/src/config.rs:115-153 | a single name fails iff it means nothing, and is unknown iff it is neither a provider nor a model |
| Config.ProviderComesFirst | workflows/src/config.rs:129-145 | a name that is both a provider and a model stands for the provider |
| Config.SelectionHasWorker | workflows/src/config.rs:98-105 | a selected model is configured and the worker its kind needs exists |
| Config.WorkersAreThoseNeeded | workflows/src/config.rs:98-105 | there are batchable models iff some request can select one, and non-batchable ones likewise |
| Services.DriaWorkflowsConfig.constructor | workflows/src/config.rs:42-57 | the models paired with their providers |
| Services.DriaWorkflowsConfig.Check | workflows/src/providers/ollama.rs:100-155 | on success the models at the places whose probe passes, all of them and in order; otherwise the error of the first that breaks the check |
| Services.DriaWorkflowsConfig.CheckBlock | workflows/src/config.rs:241-250 | a provider that is configured adds its accepted models, one that is not is skipped |
| Services.DriaWorkflowsConfig.CheckServices | workflows/src/config.rs:214-283 | on success the grouped models, on any error the configuration as it was; the first and the last error have their exact conditions |
| Services.GroupingIsStable | workflows/src/config.rs:229-274 | per provider the result is, in order, exactly the models at the places whose probe passes, so none is lost to a bad neighbour |
| Services.GroupedInTurn | workflows/src/config.rs:229-274 | between providers the result is in the order Ollama, OpenAI, Gemini, OpenRouter |
| Services.GroupingPermutes | workflows/src/config.rs:229-281 | the result is included in the input as a multiset, and a permutation if all are accepted and only the four providers occur |
| Services.GroupingKeepsProviders | workflows/src/config.rs:229-274 | every model keeps the provider it belongs to |
| Services.CheckIsIdempotent | workflows/src/config.rs:214-283 | with verdicts that depend on the model alone a second check passes and changes nothing |
| Rfc4648.Base64IsExact | compute/src/utils/message.rs:46-80 | base64 of section 4 of RFC 4648: a text decodes to some bytes iff it is their encoding, so padding and trailing bits are checked |
| Rfc4648.EncodeSpellsBlocks | compute/src/utils/message.rs:46-80 | each block of three bytes, zero-filled, is the 24-bit number whose four base-64 digits are spelled in the alphabet of RFC 4648, with `=` for missing bytes; the length is four thirds, rounded up |
| Rfc4648.HexEncodeSpells | compute/src/utils/crypto.rs:39-43 | each byte is spelled by its high and its low digit in the alphabet 0-9a-f |
| Rfc4648.HexDecodeInvertsEncode | compute/src/utils/crypto.rs:35-44 | base16 of section 8 of RFC 4648 decodes what it encodes |
| Rfc4648.HexEncodeInvertsDecode | compute/src/utils/message.rs:107-108 | what decodes is the encoding but for the case of its digits |
| Rfc4648.HexAccepts | compute/src/utils/message.rs:107-108 | accepted are exactly the texts of even length made of digits |
| Message.NewSigned | compute/src/utils/message.rs:57-68 | the payload decodes to signature, recovery id and data |
| Message.SignedRoundTrip | compute/src/utils/message.rs:57-117 | signed data comes back byte for byte and verifies under the matching key; the first 128 characters spell the signature and the next two the recovery id |
| Message.UnsignedRoundTrip | compute/src/utils/message.rs:46-95 | unsigned data comes back byte for byte |
| Message.AcceptsExactly | compute/src/utils/message.rs:98-117 | a message is accepted iff its payload encodes a hex signature, two more bytes and a body the signature covers |
| Message.RefusesExactly | compute/src/utils/message.rs:98-117 | the check answers no iff the payload encodes an envelope with a readable signature that does not cover the body |
| Message.FailsExactly | compute/src/utils/message.rs:98-117 | it fails iff the payload is not base64, or encodes an envelope whose signature cannot be read |
| Message.VerifiedIsParsed | compute/src/utils/message.rs:83-117 | of an accepted message the parsed body is exactly the body the signature covers |
| Message.PanicsExactly | compute/src/utils/message.rs:83-117 | both calls panic iff the payload decodes to fewer than 130 bytes |
| Transform.BigEndianInverts | p2p/src/transform.rs:61-61 | decoding the 8-byte prefix inverts encoding it |
| Transform.ToBigEndianInverts | p2p/src/transform.rs:41-41 | encoding inverts decoding |
| Transform.MostSignificantFirst | p2p/src/transform.rs:41-41 | the first byte is the most significant |
| Transform.TTLDataTransform.InboundTransform | p2p/src/transform.rs:25-54 | source, length and deadline are checked and the prefix is taken off |
| Transform.TTLDataTransform.OutboundTransform | p2p/src/transform.rs:56-69 | the prefix says the time and the data follow unchanged |
| Transform.RoundTrip | p2p/src/transform.rs:25-69 | sent and received again, the data comes back iff the deadline has not passed |
| Transform.DeadlineIsIntended | p2p/src/transform.rs:44-46 | the deadline is time plus time to live iff that fits 64 bits, and else less by 2 to the 64 |
| Transform.ExpiryIsForever | p2p/src/transform.rs:44-46 | an expired message stays expired |
| Protocol.CommonIffKademlia | p2p/src/protocol.rs:90-95 | the prefix test holds iff the text is the Kademlia protocol of this name in some version |
| Protocol.CommonIffSameName | p2p/src/protocol.rs:92-95 | for slash-free names the prefix test holds iff the names are equal |
| Protocol.IdentityIsInjective | p2p/src/protocol.rs:44-61 | identities are equal iff name and version are |
| Protocol.VerdictsAgree | p2p/src/client.rs:472-539 | two nodes of this code blacklist each other iff name or version differ, so their verdicts agree |
| Protocol.OwnProtocolsAgree | p2p/src/client.rs:472-539 | the same with nothing assumed, for nodes that announce the two protocols they are made with |
| Protocol.IdentifyExactly | p2p/src/client.rs:472-539 | a peer is added iff it has our identity and its first Kademlia protocol of our network is ours, left alone iff it has our identity and no such protocol, else blacklisted |
| Protocol.DocumentedNames | p2p/src/protocol.rs:12-26 | the documented names: `dria/0.2`, `/dria/kad/0.2`, `/dria/rr/0.2` |
| Monitor.DriaMonitorNode.HandleMessage | monitor/src/node.rs:115-150 | task and result messages are recorded under their ids, all others change nothing |
| Monitor.ReadsTaskExactly | monitor/src/node.rs:139-142 | a task is what follows 130 bytes of the payload of a message with inner topic `task` |
| Monitor.ReadsResultExactly | monitor/src/node.rs:143-146 | a result is the whole payload of a message with inner topic `results` |
| Monitor.BreaksExactly | compute/src/utils/message.rs:83-95 | the handler panics iff a task is too short to hold a signature |
| Monitor.DriaMonitorNode.PendingTasks | monitor/src/node.rs:153-173 | the recorded tasks without a recorded result |
| Monitor.DriaMonitorNode.Run | monitor/src/node.rs:74-150 | all messages before the first that makes the handler panic are handled, and a fresh monitor ends with the parsed task ids minus the parsed result ids of these |
| Monitor.UnbrokenOrdersAgree | monitor/src/node.rs:115-173 | two fresh monitors that see the same messages in different orders, none of which makes the handler panic, handle them all and have the same tasks pending |
| Monitor.OrderDoesNotMatterExactly | monitor/src/node.rs:115-173 | what is pending is the same for every order of the messages iff none makes the handler panic or none is a task |

## Left out

- Send: the wait for room in a full publish channel is not in this class; it is a step condition of `System`.
- HandleEvent: the wait for room in the node's channels is likewise in `System`; of all swarm events only gossip messages and inbound requests are told apart.
- RunBatch: requires a batch size of 1 to 8. Above 8 the original panics at once; for 0 see `WorkerTheorems.ZeroSizeWorkerDropsItsQueue`.
- Execute: what an executor does with a workflow is foreign code; its outcome is arbitrary. The execution statistics that travel with a task are not modelled.
- HandlePublish: payloads are abstract (outcome, notice or pong); encryption enters only as succeeding or failing. The list of models in a pong, which never changes, is not in it.
- Run: the last of the events it is given ends the loop, as the original waits until one does.
- OnlyMalformedMessagesCrash: assumes that subtracting the liveness interval from the current instant (compute/src/node.rs:527) does not panic, as it may where the clock does not reach that far back, and that the foreign code called on a task (parsers, keys, the executor's constructor), but for the filter library, does not panic either.
- HandleRequest: the task branch of request-response, which the original answers with "not implemented", is an error like any unknown request; the collected specs are not modelled.
- VerdictsAgree: the addresses added to Kademlia for a peer are not modelled, only the verdict on the peer.
- InboundTransform: the sequence number is not modelled; the addition of the time to live is that of a release build, a debug build would panic instead of wrapping.
- BlockIsForEver: cancelling the node's task from outside its loop (killing the process) is not a step of the model.
- WorkerBlockIsReachable: needs a message that can be admitted; without one no worker is ever fed.
- Check: one method stands for the four provider checks, whose difference is in their probes; the probes themselves (HTTP, pulling models, measuring speed) are verdicts of the environment.
- libp2p (swarm, gossipsub mesh, Kademlia, autonat, relay): a source of events and an arbitrary answer to each command.
- ECDSA, SHA-256, ECIES, JSON and the Bloom filter: parameters; where needed, "verify accepts what sign produced".
- Fairness and wall-clock time: progress means that a step is possible, or a measure; intervals and sleeps are steps that may come at any time.
- Configuration from environment variables and CSV, logging, signals and their handling, the benchmark, and the task tracker around the components.

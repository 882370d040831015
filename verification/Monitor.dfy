/** The monitor's view of the network: monitor/src/node.rs. */
module Monitor {
  import opened Wrappers
  import opened Network
  import Message
  import Rfc4648

  const TASK_TOPIC: string := "task"
  const RESULTS_TOPIC: string := "results"

  datatype TaskRecord = TaskRecord(taskId: string, body: string)

  /** JSON, as far as it is used here. */
  datatype Json = Json(
    message: seq<Byte> -> Option<Message.DriaMessage>,
    request: seq<Byte> -> Option<TaskRecord>,
    response: seq<Byte> -> Option<TaskRecord>)

  /** A message, and whether validating it succeeded, which comes first. */
  datatype Arrival = Arrival(data: seq<Byte>, validated: bool)

  datatype Outcome = Recorded | Ignored | Refused | Panicked

  /** What a message amounts to: a task, a result, or nothing. */
  datatype Meaning = Task(record: TaskRecord) | TaskResult(record: TaskRecord) | Nothing | Unreadable | Broken

  function Read(json: Json, arrival: Arrival): Meaning {
    if !arrival.validated then Unreadable
    else
      match json.message(arrival.data)
      case None => Unreadable
      case Some(m) =>
        if m.topic == TASK_TOPIC then
          match Message.ParsePayload(m, true)
          case Panic => Broken
          case Failure(_) => Unreadable
          case Done(body) =>
            (match json.request(body)
             case None => Unreadable
             case Some(record) => Task(record))
        else if m.topic == RESULTS_TOPIC then
          match Message.ParsePayload(m, false)
          case Panic => Broken
          case Failure(_) => Unreadable
          case Done(body) =>
            (match json.response(body)
             case None => Unreadable
             case Some(record) => TaskResult(record))
        else Nothing
  }

  /** A validated message on the topic. */
  predicate Carries(json: Json, arrival: Arrival, m: Message.DriaMessage, topic: string) {
    arrival.validated && json.message(arrival.data) == Some(m) && m.topic == topic
  }

  ghost predicate HoldsTask(json: Json, m: Message.DriaMessage, header: seq<Byte>, body: seq<Byte>,
                            record: TaskRecord) {
    m.payload == Rfc4648.Encode(header + body) && |header| == 130 && json.request(body) == Some(record)
  }

  ghost predicate HoldsResult(json: Json, m: Message.DriaMessage, body: seq<Byte>, record: TaskRecord) {
    m.payload == Rfc4648.Encode(body) && json.response(body) == Some(record)
  }

  /** A task is what follows 130 bytes, whatever these are. */
  lemma ReadsTaskExactly(json: Json, arrival: Arrival, record: TaskRecord)
    ensures Read(json, arrival) == Task(record) <==> exists m, header, body ::
      Carries(json, arrival, m, TASK_TOPIC) && HoldsTask(json, m, header, body, record)
  {
    hide Rfc4648.Encode, Rfc4648.Decode;
    if Read(json, arrival) == Task(record) {
      var m := json.message(arrival.data).value;
      var payload := Message.DecodePayload(m).value;
      Rfc4648.Base64IsExact(m.payload, payload);
      assert payload == payload[..130] + payload[130..];
      assert HoldsTask(json, m, payload[..130], payload[130..], record);
    }
    if m, header, body :| Carries(json, arrival, m, TASK_TOPIC) && HoldsTask(json, m, header, body, record) {
      Rfc4648.Base64IsExact(m.payload, header + body);
      assert (header + body)[130..] == body;
    }
  }

  /** A result is the whole payload. */
  lemma ReadsResultExactly(json: Json, arrival: Arrival, record: TaskRecord)
    ensures Read(json, arrival) == TaskResult(record) <==> exists m, body ::
      Carries(json, arrival, m, RESULTS_TOPIC) && HoldsResult(json, m, body, record)
  {
    hide Rfc4648.Encode, Rfc4648.Decode;
    if Read(json, arrival) == TaskResult(record) {
      var m := json.message(arrival.data).value;
      Rfc4648.Base64IsExact(m.payload, Message.DecodePayload(m).value);
      assert HoldsResult(json, m, Message.DecodePayload(m).value, record);
    }
    if m, body :| Carries(json, arrival, m, RESULTS_TOPIC) && HoldsResult(json, m, body, record) {
      Rfc4648.Base64IsExact(m.payload, body);
    }
  }

  /** The handler panics exactly on a task too short to hold a signature. */
  lemma BreaksExactly(json: Json, arrival: Arrival)
    ensures Read(json, arrival).Broken? <==> exists m ::
      Carries(json, arrival, m, TASK_TOPIC) && Message.TooShort(m)
  {
    hide Message.TooShort, Message.ParsePayload;
    if arrival.validated && json.message(arrival.data).Some? {
      Message.ShortIsNotParsed(json.message(arrival.data).value);
    }
  }

  ghost function TaskIds(json: Json, arrivals: seq<Arrival>): set<string> {
    set a | a in arrivals && Read(json, a).Task? :: Read(json, a).record.taskId
  }

  ghost function ResultIds(json: Json, arrivals: seq<Arrival>): set<string> {
    set a | a in arrivals && Read(json, a).TaskResult? :: Read(json, a).record.taskId
  }

  /** How many messages are handled before one makes the handler panic, if any does. */
  function Handled(json: Json, arrivals: seq<Arrival>): (n: nat)
    ensures n <= |arrivals|
    ensures forall i :: 0 <= i < n ==> !Read(json, arrivals[i]).Broken?
    ensures n < |arrivals| ==> Read(json, arrivals[n]).Broken?
  {
    if arrivals == [] || Read(json, arrivals[0]).Broken? then 0 else 1 + Handled(json, arrivals[1..])
  }

  /** What a fresh monitor has pending after some messages. */
  ghost function PendingAfter(json: Json, arrivals: seq<Arrival>): set<string> {
    var handled := arrivals[..Handled(json, arrivals)];
    TaskIds(json, handled) - ResultIds(json, handled)
  }

  lemma IdsGrow(json: Json, arrivals: seq<Arrival>, a: Arrival)
    ensures TaskIds(json, arrivals + [a])
         == TaskIds(json, arrivals) + if Read(json, a).Task? then {Read(json, a).record.taskId} else {}
    ensures ResultIds(json, arrivals + [a])
         == ResultIds(json, arrivals) + if Read(json, a).TaskResult? then {Read(json, a).record.taskId} else {}
  {
    hide Read;
    assert forall b :: b in arrivals + [a] <==> b in arrivals || b == a;
  }

  lemma NoIds(json: Json)
    ensures TaskIds(json, []) == {} && ResultIds(json, []) == {}
  {
  }

  class DriaMonitorNode {
    var tasks: map<string, TaskRecord>
    var results: map<string, TaskRecord>

    constructor ()
      ensures tasks == map[] && results == map[]
    {
      tasks, results := map[], map[];
    }

    /** Records task and result messages, and nothing else. */
    method HandleMessage(json: Json, arrival: Arrival) returns (outcome: Outcome)
      modifies this
      ensures tasks == (match Read(json, arrival) case Task(t) => old(tasks)[t.taskId := t] case _ => old(tasks))
      ensures results ==
        (match Read(json, arrival) case TaskResult(r) => old(results)[r.taskId := r] case _ => old(results))
      ensures outcome.Panicked? <==> Read(json, arrival).Broken?
    {
      if !arrival.validated {
        return Refused;
      }
      var parsed := json.message(arrival.data);
      if parsed.None? {
        return Refused;
      }
      var message := parsed.value;
      if message.topic == TASK_TOPIC {
        var payload := Message.ParsePayload(message, true);
        if !payload.Done? {
          return if payload.Panic? then Panicked else Refused;
        }
        var request := json.request(payload.value);
        if request.None? {
          return Refused;
        }
        tasks := tasks[request.value.taskId := request.value];
        outcome := Recorded;
      } else if message.topic == RESULTS_TOPIC {
        var payload := Message.ParsePayload(message, false);
        if !payload.Done? {
          return if payload.Panic? then Panicked else Refused;
        }
        var response := json.response(payload.value);
        if response.None? {
          return Refused;
        }
        results := results[response.value.taskId := response.value];
        outcome := Recorded;
      } else {
        outcome := Ignored;
      }
    }

    /** The recorded tasks that have no recorded result. */
    function PendingTasks(): (pending: set<string>)
      reads this
      ensures pending == tasks.Keys - results.Keys
    {
      set id | id in tasks.Keys && id !in results.Keys
    }

    /** The message branch of the loop, up to a message that makes a handler panic. */
    method Run(json: Json, arrivals: seq<Arrival>) returns (handled: nat)
      modifies this
      ensures handled == Handled(json, arrivals)
      ensures tasks.Keys == old(tasks.Keys) + TaskIds(json, arrivals[..handled])
      ensures results.Keys == old(results.Keys) + ResultIds(json, arrivals[..handled])
      ensures old(tasks) == map[] && old(results) == map[] ==>
        PendingTasks() == PendingAfter(json, arrivals)
    {
      hide Read, TaskIds, ResultIds;
      handled := 0;
      NoIds(json);
      while handled < |arrivals|
        invariant handled <= |arrivals|
        invariant forall i :: 0 <= i < handled ==> !Read(json, arrivals[i]).Broken?
        invariant tasks.Keys == old(tasks.Keys) + TaskIds(json, arrivals[..handled])
        invariant results.Keys == old(results.Keys) + ResultIds(json, arrivals[..handled])
      {
        assert arrivals[..handled + 1] == arrivals[..handled] + [arrivals[handled]];
        IdsGrow(json, arrivals[..handled], arrivals[handled]);
        var outcome := HandleMessage(json, arrivals[handled]);
        if outcome.Panicked? {
          return;
        }
        handled := handled + 1;
      }
    }
  }

  /** The ids are those of the messages, in whatever order these came. */
  lemma SameMessagesSameIds(json: Json, a: seq<Arrival>, b: seq<Arrival>)
    requires multiset(a) == multiset(b)
    ensures TaskIds(json, a) == TaskIds(json, b) && ResultIds(json, a) == ResultIds(json, b)
  {
    forall x
      ensures x in a <==> x in b
    {
      assert x in a <==> x in multiset(a);
      assert x in b <==> x in multiset(b);
    }
  }

  /** Every order of the messages leaves the same tasks pending. */
  ghost predicate OrderIsIrrelevant(json: Json, arrivals: seq<Arrival>) {
    forall other :: multiset(other) == multiset(arrivals) ==> PendingAfter(json, other) == PendingAfter(json, arrivals)
  }

  ghost predicate AnyBroken(json: Json, arrivals: seq<Arrival>) {
    exists a :: a in arrivals && Read(json, a).Broken?
  }

  ghost predicate AnyTask(json: Json, arrivals: seq<Arrival>) {
    exists a :: a in arrivals && Read(json, a).Task?
  }

  /** Two monitors that see the same messages in different orders, none of them broken, agree. */
  lemma UnbrokenOrdersAgree(json: Json, a: seq<Arrival>, b: seq<Arrival>)
    requires multiset(a) == multiset(b) && !AnyBroken(json, a)
    ensures Handled(json, a) == |a| && Handled(json, b) == |b|
    ensures PendingAfter(json, a) == PendingAfter(json, b)
  {
    hide Read;
    forall i | 0 <= i < |b| ensures b[i] in a {
      assert b[i] in multiset(b);
    }
    SameMessagesSameIds(json, a, b);
    assert a[..|a|] == a && b[..|b|] == b;
  }

  lemma NoTaskPendsNothing(json: Json, arrivals: seq<Arrival>)
    requires !AnyTask(json, arrivals)
    ensures PendingAfter(json, arrivals) == {}
  {
    hide Read;
  }

  /** The same messages with one of them first. */
  lemma WithFirst(arrivals: seq<Arrival>, a: Arrival) returns (other: seq<Arrival>)
    requires a in arrivals
    ensures other != [] && other[0] == a && multiset(other) == multiset(arrivals)
  {
    var i :| 0 <= i < |arrivals| && arrivals[i] == a;
    other := [a] + arrivals[..i] + arrivals[i + 1..];
    assert arrivals == arrivals[..i] + [a] + arrivals[i + 1..];
  }

  /** A broken message and a task: whichever comes first decides whether the task is ever seen. */
  lemma BrokenOrdersDisagree(json: Json, arrivals: seq<Arrival>, task: Arrival, broken: Arrival)
    returns (seen: seq<Arrival>, unseen: seq<Arrival>)
    requires task in arrivals && Read(json, task).Task? && broken in arrivals && Read(json, broken).Broken?
    ensures multiset(seen) == multiset(arrivals) && multiset(unseen) == multiset(arrivals)
    ensures PendingAfter(json, seen) != PendingAfter(json, unseen)
  {
    hide Read;
    unseen := WithFirst(arrivals, broken);
    assert unseen[..0] == [];
    NoIds(json);
    var rest := unseen[1..];
    assert unseen == [broken] + rest;
    assert task in multiset(unseen);
    assert task in rest;
    rest := WithFirst(rest, task);
    assert rest == [task] + rest[1..];
    seen := [task, broken] + rest[1..];
    assert multiset(seen) == multiset([broken] + rest);
    assert seen[1..][0] == broken;
    assert Handled(json, seen[1..]) == 0;
    assert seen[..1] == [] + [task];
    IdsGrow(json, [], task);
    assert Read(json, task).record.taskId in PendingAfter(json, seen);
  }

  /**
   What is pending is the same for every order of the messages exactly if none of them makes the
   handler panic, or none of them is a task.
   */
  lemma OrderDoesNotMatterExactly(json: Json, arrivals: seq<Arrival>)
    ensures OrderIsIrrelevant(json, arrivals) <==> !AnyBroken(json, arrivals) || !AnyTask(json, arrivals)
  {
    hide PendingAfter, Read;
    if AnyBroken(json, arrivals) && AnyTask(json, arrivals) {
      var broken :| broken in arrivals && Read(json, broken).Broken?;
      var task :| task in arrivals && Read(json, task).Task?;
      var seen, unseen := BrokenOrdersDisagree(json, arrivals, task, broken);
    } else {
      forall other | multiset(other) == multiset(arrivals)
        ensures PendingAfter(json, other) == PendingAfter(json, arrivals)
      {
        if !AnyBroken(json, arrivals) {
          UnbrokenOrdersAgree(json, arrivals, other);
        } else {
          SameTasks(json, arrivals, other);
          NoTaskPendsNothing(json, arrivals);
          NoTaskPendsNothing(json, other);
        }
      }
    }
  }

  lemma SameTasks(json: Json, a: seq<Arrival>, b: seq<Arrival>)
    requires multiset(a) == multiset(b) && !AnyTask(json, a)
    ensures !AnyTask(json, b)
  {
    hide Read;
    forall t | t in b ensures t in a {
      assert t in multiset(b);
    }
  }
}

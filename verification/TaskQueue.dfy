/**
 * The retrying task queue as a machine on values: named first-in-first-out
 * lists of task ids, one record per live task, and a dead-letter list per
 * queue name. `Step` is one public call; its reply is what the caller sees.
 */
module TaskQueue {
  import opened Wrappers

  datatype Status = Pending | Processing | Completed | Dead

  datatype Task = Task(taskId: string, queueName: string, payload: string, maxRetries: int,
                       status: Status, attemptCount: int,
                       lastError: Option<string>, workerId: Option<string>)

  datatype Queues = Queues(pending: map<string, seq<string>>,
                           items: map<string, Task>,
                           dead: map<string, seq<Task>>)

  datatype Call =
    | Enqueue(task: Task)
    | Dequeue(queueName: string, worker: string)
    | Ack(taskId: string)
    | Nack(taskId: string, error: string)
    | PeekDeadLetter(queueName: string)
    | QueueLength(queueName: string)
    | Close

  /** `KeyError` is the exception the in-memory queue raises for an id without a record. */
  datatype Reply =
    | Given(task: Task)
    | NoTask
    | KeyError
    | Flag(found: bool)
    | Listed(tasks: seq<Task>)
    | Count(length: nat)
    | Done

  const EMPTY := Queues(map[], map[], map[])

  function Waiting(q: Queues, name: string): seq<string> {
    if name in q.pending then q.pending[name] else []
  }

  function Buried(q: Queues, name: string): seq<Task> {
    if name in q.dead then q.dead[name] else []
  }

  function Append(q: Queues, name: string, id: string): (r: Queues)
    ensures r.items == q.items && r.dead == q.dead
    ensures Waiting(r, name) == Waiting(q, name) + [id]
    ensures forall other :: other != name ==> Waiting(r, other) == Waiting(q, other)
  {
    q.(pending := q.pending[name := Waiting(q, name) + [id]])
  }

  function Enqueued(q: Queues, t: Task): Queues {
    Append(q.(items := q.items[t.taskId := t.(status := Pending)]), t.queueName, t.taskId)
  }

  function Started(t: Task, worker: string): Task {
    t.(status := Processing, attemptCount := t.attemptCount + 1, workerId := Some(worker))
  }

  function Dequeued(q: Queues, name: string, worker: string): (Queues, Reply) {
    if Waiting(q, name) == [] then (q, NoTask)
    else
      var id := Waiting(q, name)[0];
      var popped := q.(pending := q.pending[name := Waiting(q, name)[1..]]);
      if id !in q.items then (popped, KeyError)
      else
        var t := Started(q.items[id], worker);
        (popped.(items := q.items[id := t]), Given(t))
  }

  function Acked(q: Queues, id: string): (Queues, Reply) {
    if id in q.items then (q.(items := q.items - {id}), Flag(true)) else (q, Flag(false))
  }

  predicate Exhausted(t: Task) {
    t.attemptCount >= t.maxRetries
  }

  function WithDead(dead: map<string, seq<Task>>, t: Task): map<string, seq<Task>> {
    dead[t.queueName := (if t.queueName in dead then dead[t.queueName] else []) + [t]]
  }

  function Bury(q: Queues, t: Task): (r: Queues)
    ensures r.items == q.items && r.pending == q.pending
    ensures Buried(r, t.queueName) == Buried(q, t.queueName) + [t]
    ensures forall other :: other != t.queueName ==> Buried(r, other) == Buried(q, other)
  {
    q.(dead := WithDead(q.dead, t))
  }

  function Nacked(q: Queues, id: string, error: string): (Queues, Reply) {
    if id !in q.items then (q, Flag(false))
    else
      var t := q.items[id].(lastError := Some(error));
      if Exhausted(t) then
        (Bury(q.(items := q.items - {id}), t.(status := Dead)), Flag(true))
      else
        (Append(q.(items := q.items[id := t.(status := Pending)]), t.queueName, id), Flag(true))
  }

  function Step(q: Queues, call: Call): (Queues, Reply) {
    match call
    case Enqueue(t) => (Enqueued(q, t), Given(t.(status := Pending)))
    case Dequeue(name, worker) => Dequeued(q, name, worker)
    case Ack(id) => Acked(q, id)
    case Nack(id, error) => Nacked(q, id, error)
    case PeekDeadLetter(name) => (q, Listed(Buried(q, name)))
    case QueueLength(name) => (q, Count(|Waiting(q, name)|))
    case Close => (EMPTY, Done)
  }

  /** The replies of a call sequence, in order. */
  function Replies(q: Queues, calls: seq<Call>): (r: seq<Reply>)
    ensures |r| == |calls|
    decreases |calls|
  {
    if calls == [] then []
    else
      var (next, reply) := Step(q, calls[0]);
      [reply] + Replies(next, calls[1..])
  }
}

/**
 * The Redis queue refines the same machine as the in-memory one: call by call it keeps
 * representing the machine's state, and its replies differ only where the in-memory
 * queue raises `KeyError` for an id without a record.
 */
module QueueRefinement {
  import opened Wrappers
  import opened TaskQueue
  import opened RedisQueue
  import opened QueueConservation

  function RedisStep(db: Keys, call: Call): (Keys, Reply) {
    match call
    case Enqueue(t) => (RedisEnqueued(db, t), Given(t.(status := Pending)))
    case Dequeue(name, worker) =>
      var (after, r) := RedisDequeued(db, name, worker);
      (after, if r.None? then NoTask else Given(r.value))
    case Ack(id) => var (after, found) := RedisAcked(db, id); (after, Flag(found))
    case Nack(id, error) => var (after, found) := RedisNacked(db, id, error); (after, Flag(found))
    case PeekDeadLetter(name) => (db, Listed(TasksAt(db, DeadKey(name))))
    case QueueLength(name) => (db, Count(|IdsAt(db, QueueKey(name))|))
    case Close => (map[], Done)
  }

  function RedisReplies(db: Keys, calls: seq<Call>): (r: seq<Reply>)
    ensures |r| == |calls|
    decreases |calls|
  {
    if calls == [] then []
    else
      var (next, reply) := RedisStep(db, calls[0]);
      [reply] + RedisReplies(next, calls[1..])
  }

  /** Where the in-memory queue raises, Redis answers that there is no task. */
  function Swallowed(reply: Reply): Reply {
    if reply.KeyError? then NoTask else reply
  }

  // What each command does to the lists, and to the records.

  lemma PushKeepsLists(db: Keys, q: Queues, name: string, id: string)
    requires ListsAgree(db, q)
    ensures ListsAgree(Pushed(db, name, id), Append(q, name, id))
  {
    var after, r := Pushed(db, name, id), Append(q, name, id);
    forall other ensures IdsAt(after, QueueKey(other)) == Waiting(r, other) {
      assert QueueKey(other) == QueueKey(name) ==> other == name;
      assert IdsAt(db, QueueKey(other)) == Waiting(q, other);
    }
    forall other ensures TasksAt(after, DeadKey(other)) == Buried(r, other) {
      assert TasksAt(db, DeadKey(other)) == Buried(q, other);
    }
  }

  function Shifted(q: Queues, name: string): Queues
    requires Waiting(q, name) != []
  {
    q.(pending := q.pending[name := Waiting(q, name)[1..]])
  }

  lemma PopKeepsLists(db: Keys, q: Queues, name: string)
    requires ListsAgree(db, q) && Waiting(q, name) != []
    ensures ListsAgree(Popped(db, name), Shifted(q, name))
  {
    var after, r := Popped(db, name), Shifted(q, name);
    assert IdsAt(db, QueueKey(name)) == Waiting(q, name);
    forall other ensures IdsAt(after, QueueKey(other)) == Waiting(r, other) {
      assert QueueKey(other) == QueueKey(name) ==> other == name;
      assert IdsAt(db, QueueKey(other)) == Waiting(q, other);
    }
    forall other ensures TasksAt(after, DeadKey(other)) == Buried(r, other) {
      assert TasksAt(db, DeadKey(other)) == Buried(q, other);
    }
  }

  /** Commands on records, and changes of the machine's items, leave the lists as they are. */
  lemma RecordKeepsLists(db: Keys, q: Queues, id: string, t: Task, items: map<string, Task>)
    requires ListsAgree(db, q)
    ensures ListsAgree(db[ItemKey(id) := Record(t)], q.(items := items)) && ListsAgree(db - {ItemKey(id)}, q.(items := items))
    ensures ListsAgree(db, q.(items := items))
  {
    var r, written, deleted := q.(items := items), db[ItemKey(id) := Record(t)], db - {ItemKey(id)};
    forall other ensures IdsAt(db, QueueKey(other)) == IdsAt(written, QueueKey(other)) == IdsAt(deleted, QueueKey(other)) == Waiting(r, other) {
      assert IdsAt(db, QueueKey(other)) == Waiting(q, other);
    }
    forall other ensures TasksAt(db, DeadKey(other)) == TasksAt(written, DeadKey(other)) == TasksAt(deleted, DeadKey(other)) == Buried(r, other) {
      assert TasksAt(db, DeadKey(other)) == Buried(q, other);
    }
  }

  lemma BuryKeepsLists(db: Keys, q: Queues, t: Task)
    requires ListsAgree(db, q)
    ensures ListsAgree(Interred(db, t), Bury(q, t))
  {
    var dead := DeadKey(t.queueName);
    var after, r := Interred(db, t), Bury(q, t);
    forall other ensures TasksAt(after, DeadKey(other)) == Buried(r, other) {
      assert DeadKey(other) == dead ==> other == t.queueName;
      assert TasksAt(db, DeadKey(other)) == Buried(q, other);
    }
    forall other ensures IdsAt(after, QueueKey(other)) == Waiting(r, other) {
      assert IdsAt(db, QueueKey(other)) == Waiting(q, other);
    }
  }

  /** Both key spaces have the same record of that task, or both have none. */
  ghost predicate SameRecord(db: Keys, after: Keys, id: string) {
    (ItemKey(id) in after <==> ItemKey(id) in db) && (ItemKey(id) in db ==> after[ItemKey(id)] == db[ItemKey(id)])
  }

  lemma SameRecordsAgree(db: Keys, q: Queues, after: Keys, r: Queues)
    requires r.items == q.items && forall id :: SameRecord(db, after, id)
    ensures forall id :: Agrees(db, q, id) ==> Agrees(after, r, id)
  {
    forall id | Agrees(db, q, id) ensures Agrees(after, r, id) {
      assert SameRecord(db, after, id);
    }
  }

  lemma PushRepresents(db: Keys, q: Queues, name: string, id: string)
    requires Represents(db, q)
    ensures Represents(Pushed(db, name, id), Append(q, name, id))
  {
    PushKeepsLists(db, q, name, id);
    SameRecordsAgree(db, q, Pushed(db, name, id), Append(q, name, id));
    hide ListsAgree;
  }

  lemma PopRepresents(db: Keys, q: Queues, name: string)
    requires Represents(db, q) && Waiting(q, name) != []
    ensures Represents(Popped(db, name), Shifted(q, name))
  {
    PopKeepsLists(db, q, name);
    SameRecordsAgree(db, q, Popped(db, name), Shifted(q, name));
    hide ListsAgree;
  }

  lemma SetRepresents(db: Keys, q: Queues, id: string, t: Task)
    requires Represents(db, q)
    ensures Represents(db[ItemKey(id) := Record(t)], q.(items := q.items[id := t]))
  {
    RecordKeepsLists(db, q, id, t, q.items[id := t]);
    hide ListsAgree;
    var after, r := db[ItemKey(id) := Record(t)], q.(items := q.items[id := t]);
    forall other ensures Agrees(after, r, other) {
      assert Agrees(db, q, other) && (ItemKey(other) == ItemKey(id) ==> other == id);
    }
  }

  lemma DeleteRepresents(db: Keys, q: Queues, id: string)
    requires Represents(db, q)
    ensures Represents(db - {ItemKey(id)}, q.(items := q.items - {id}))
  {
    RecordKeepsLists(db, q, id, Task("", "", "", 0, Pending, 0, None, None), q.items - {id});
    hide ListsAgree;
    var after, r := db - {ItemKey(id)}, q.(items := q.items - {id});
    forall other ensures Agrees(after, r, other) {
      assert Agrees(db, q, other) && (ItemKey(other) == ItemKey(id) ==> other == id);
    }
  }

  lemma BuryRepresents(db: Keys, q: Queues, t: Task)
    requires Represents(db, q)
    ensures Represents(Interred(db, t), Bury(q, t))
  {
    BuryKeepsLists(db, q, t);
    SameRecordsAgree(db, q, Interred(db, t), Bury(q, t));
    hide ListsAgree;
  }

  lemma DequeueSimulates(db: Keys, q: Queues, name: string, worker: string)
    requires Represents(db, q)
    ensures var (after, reply) := RedisStep(db, Dequeue(name, worker));
            var (r, expected) := Step(q, Dequeue(name, worker));
            Represents(after, r) && reply == Swallowed(expected)
  {
    assert IdsAt(db, QueueKey(name)) == Waiting(q, name);
    if Waiting(q, name) != [] {
      var id := Waiting(q, name)[0];
      var popped := Shifted(q, name);
      PopRepresents(db, q, name);
      hide ListsAgree, Popped;
      assert Agrees(Popped(db, name), popped, id);
      if id in q.items {
        SetRepresents(Popped(db, name), popped, id, Started(q.items[id], worker));
      }
    }
  }

  lemma NackSimulates(db: Keys, q: Queues, id: string, error: string)
    requires Represents(db, q)
    ensures var (after, found) := RedisNacked(db, id, error);
            var (r, expected) := Nacked(q, id, error);
            Represents(after, r) && Flag(found) == expected
  {
    hide ListsAgree;
    assert Agrees(db, q, id);
    if id in q.items {
      var t := q.items[id].(lastError := Some(error));
      if Exhausted(t) {
        DeleteRepresents(db, q, id);
        BuryRepresents(db - {ItemKey(id)}, q.(items := q.items - {id}), t.(status := Dead));
      } else {
        var next := t.(status := Pending);
        SetRepresents(db, q, id, next);
        PushRepresents(db[ItemKey(id) := Record(next)], q.(items := q.items[id := next]), t.queueName, id);
      }
    }
  }

  lemma EnqueueSimulates(db: Keys, q: Queues, t: Task)
    requires Represents(db, q)
    ensures Represents(RedisEnqueued(db, t), Enqueued(q, t))
  {
    hide ListsAgree, Agrees;
    var next := t.(status := Pending);
    SetRepresents(db, q, t.taskId, next);
    PushRepresents(db[ItemKey(t.taskId) := Record(next)], q.(items := q.items[t.taskId := next]), t.queueName, t.taskId);
  }

  lemma AckSimulates(db: Keys, q: Queues, id: string)
    requires Represents(db, q)
    ensures Represents(RedisAcked(db, id).0, Acked(q, id).0)
    ensures Flag(RedisAcked(db, id).1) == Acked(q, id).1
  {
    hide ListsAgree;
    DeleteRepresents(db, q, id);
    assert Agrees(db, q, id);
    assert id !in q.items ==> q.items - {id} == q.items;
  }

  /** The simulation: one call on both sides keeps them together. */
  lemma StepSimulates(db: Keys, q: Queues, call: Call)
    requires Represents(db, q)
    ensures Represents(RedisStep(db, call).0, Step(q, call).0)
    ensures RedisStep(db, call).1 == Swallowed(Step(q, call).1)
  {
    hide RedisEnqueued, Enqueued, RedisAcked, Acked, RedisNacked, Nacked, RedisDequeued, Dequeued;
    match call
    case Enqueue(t) => EnqueueSimulates(db, q, t);
    case Dequeue(name, worker) => DequeueSimulates(db, q, name, worker);
    case Ack(id) => AckSimulates(db, q, id);
    case Nack(id, error) => NackSimulates(db, q, id, error);
    case PeekDeadLetter(name) => assert TasksAt(db, DeadKey(name)) == Buried(q, name);
    case QueueLength(name) => assert IdsAt(db, QueueKey(name)) == Waiting(q, name);
    case Close =>
  }

  lemma RepliesUnfold(db: Keys, q: Queues, calls: seq<Call>)
    requires calls != []
    ensures RedisReplies(db, calls) == [RedisStep(db, calls[0]).1] + RedisReplies(RedisStep(db, calls[0]).0, calls[1..])
    ensures Replies(q, calls) == [Step(q, calls[0]).1] + Replies(Step(q, calls[0]).0, calls[1..])
  {
    hide RedisStep, Step;
  }

  lemma {:induction false} RunSimulates(db: Keys, q: Queues, calls: seq<Call>)
    requires Represents(db, q)
    ensures forall i :: 0 <= i < |calls| ==> RedisReplies(db, calls)[i] == Swallowed(Replies(q, calls)[i])
    decreases |calls|
  {
    hide Represents, RedisStep, Step, Swallowed, RedisReplies, Replies;
    if calls != [] {
      StepSimulates(db, q, calls[0]);
      RunSimulates(RedisStep(db, calls[0]).0, Step(q, calls[0]).0, calls[1..]);
      RepliesUnfold(db, q, calls);
    }
  }

  /** The call asks a queue whose head has lost its record: it was acked, or killed, while it waited. */
  predicate MeetsStaleHead(q: Queues, call: Call) {
    && call.Dequeue?
    && Waiting(q, call.queueName) != []
    && Waiting(q, call.queueName)[0] !in q.items
  }

  /** No call of the run meets a stale head. */
  predicate NeverStale(q: Queues, calls: seq<Call>)
    decreases |calls|
  {
    calls == [] || (!MeetsStaleHead(q, calls[0]) && NeverStale(Step(q, calls[0]).0, calls[1..]))
  }

  lemma {:induction false} StaleHeadRaises(q: Queues, calls: seq<Call>)
    ensures NeverStale(q, calls) <==> KeyError !in Replies(q, calls)
    decreases |calls|
  {
    if calls != [] {
      assert Step(q, calls[0]).1 == KeyError <==> MeetsStaleHead(q, calls[0]);
      hide Step, MeetsStaleHead;
      StaleHeadRaises(Step(q, calls[0]).0, calls[1..]);
      assert Replies(q, calls) == [Step(q, calls[0]).1] + Replies(Step(q, calls[0]).0, calls[1..]);
    }
  }

  lemma RepliesAgreeUnlessRaised(calls: seq<Call>)
    ensures RedisReplies(map[], calls) == Replies(EMPTY, calls) <==> KeyError !in Replies(EMPTY, calls)
  {
    assert Represents(map[], EMPTY);
    RunSimulates(map[], EMPTY, calls);
    var redis, memory := RedisReplies(map[], calls), Replies(EMPTY, calls);
    hide RedisReplies, Replies, Represents;
    if KeyError in memory {
      var i :| 0 <= i < |memory| && memory[i] == KeyError;
      assert redis[i] == NoTask;
    }
  }

  /** On any calls at all, the two reply alike if and only if no dequeue meets a head whose record is gone. */
  lemma RepliesAgreeIff(calls: seq<Call>)
    ensures RedisReplies(map[], calls) == Replies(EMPTY, calls) <==> NeverStale(EMPTY, calls)
  {
    StaleHeadRaises(EMPTY, calls);
    RepliesAgreeUnlessRaised(calls);
  }

  /** Under the discipline the two implementations cannot be told apart. */
  lemma DisciplinedRepliesAgree(calls: seq<Call>)
    requires DisciplinedRun(EMPTY, NOTHING, calls)
    ensures RedisReplies(map[], calls) == Replies(EMPTY, calls)
  {
    assert forall name :: Waiting(EMPTY, name) == [] && Buried(EMPTY, name) == [];
    assert Conserved(EMPTY, NOTHING);
    RunConserves(EMPTY, NOTHING, calls);
    RepliesAgreeUnlessRaised(calls);
  }

  /** Without it they can: acknowledge a waiting task, then ask for it. */
  lemma AckedWhileWaitingTellsThemApart(t: Task, worker: string)
    ensures var calls := [Enqueue(t), Ack(t.taskId), Dequeue(t.queueName, worker)];
            Replies(EMPTY, calls)[2] == KeyError && RedisReplies(map[], calls)[2] == NoTask
  {
    var calls := [Enqueue(t), Ack(t.taskId), Dequeue(t.queueName, worker)];
    var q1 := Step(EMPTY, calls[0]).0;
    var q2 := Step(q1, calls[1]).0;
    assert calls[1..] == [Ack(t.taskId), Dequeue(t.queueName, worker)];
    assert calls[1..][1..] == [Dequeue(t.queueName, worker)];
    assert Waiting(q2, t.queueName) == [t.taskId] && t.taskId !in q2.items;
    assert Replies(q2, calls[1..][1..])[0] == KeyError;
    assert Replies(EMPTY, calls)[2] == Replies(q1, calls[1..])[1] == Replies(q2, calls[1..][1..])[0];
    assert Represents(map[], EMPTY);
    RunSimulates(map[], EMPTY, calls);
  }
}

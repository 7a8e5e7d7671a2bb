/**
 * `RedisTaskQueue`: the same queue kept in a Redis key space. Task records are stored by
 * value under one key each, pending ids and dead letters in lists. Redis drops a list
 * with its last element, so an empty list and an absent key are the same.
 */
module RedisQueue {
  import opened Wrappers
  import opened TaskQueue

  /** The JSON text of a task is taken as the task. */
  datatype Entry = Record(task: Task) | IdList(ids: seq<string>) | TaskList(tasks: seq<Task>)

  type Keys = map<string, Entry>

  const QUEUE_PREFIX := "tq:queue:"
  const ITEM_PREFIX := "tq:item:"
  const DEAD_PREFIX := "tq:dead:"

  // The fourth letter tells the three families of keys apart, and the rest gives the name back.

  function QueueKey(name: string): (key: string)
    ensures |key| == 9 + |name| && key[3] == 'q' && key[9..] == name
  {
    QUEUE_PREFIX + name
  }

  function ItemKey(id: string): (key: string)
    ensures |key| == 8 + |id| && key[3] == 'i' && key[8..] == id
  {
    ITEM_PREFIX + id
  }

  function DeadKey(name: string): (key: string)
    ensures |key| == 8 + |name| && key[3] == 'd' && key[8..] == name
  {
    DEAD_PREFIX + name
  }

  function IdsAt(db: Keys, key: string): seq<string> {
    if key in db && db[key].IdList? then db[key].ids else []
  }

  function TasksAt(db: Keys, key: string): seq<Task> {
    if key in db && db[key].TaskList? then db[key].tasks else []
  }

  /** Records under item keys, and lists under list keys. */
  ghost predicate WellTyped(db: Keys) {
    forall key :: key in db && |key| > 3 ==>
      && (key[3] == 'i' ==> db[key].Record?)
      && (key[3] == 'q' ==> db[key].IdList?)
      && (key[3] == 'd' ==> db[key].TaskList?)
  }

  /** The lists of the key space are those of the queue machine's state. */
  ghost predicate ListsAgree(db: Keys, q: Queues) {
    && WellTyped(db)
    && (forall name {:trigger QueueKey(name)} :: IdsAt(db, QueueKey(name)) == Waiting(q, name))
    && (forall name {:trigger DeadKey(name)} :: TasksAt(db, DeadKey(name)) == Buried(q, name))
  }

  /** So is the record of that task. */
  ghost predicate Agrees(db: Keys, q: Queues, id: string) {
    && (ItemKey(id) in db <==> id in q.items)
    && (id in q.items ==> db[ItemKey(id)] == Record(q.items[id]))
  }

  /** The key space holds what the queue machine's state says. */
  ghost predicate Represents(db: Keys, q: Queues) {
    ListsAgree(db, q) && forall id :: Agrees(db, q, id)
  }

  /** One Redis server; each command is atomic. */
  class Redis {
    var db: Keys

    constructor ()
      ensures db == map[]
    {
      db := map[];
    }

    method Set(key: string, task: Task)
      modifies this
      ensures db == old(db)[key := Record(task)]
    {
      db := db[key := Record(task)];
    }

    method Get(key: string) returns (r: Option<Task>)
      requires key in db ==> db[key].Record?
      ensures r == if key in db then Some(db[key].task) else None
    {
      r := if key in db then Some(db[key].task) else None;
    }

    method Delete(key: string)
      modifies this
      ensures db == old(db) - {key}
    {
      db := db - {key};
    }

    method PushId(key: string, id: string)
      requires key in db ==> db[key].IdList?
      modifies this
      ensures db == old(db)[key := IdList(IdsAt(old(db), key) + [id])]
    {
      db := db[key := IdList(IdsAt(db, key) + [id])];
    }

    method PopId(key: string) returns (r: Option<string>)
      requires key in db ==> db[key].IdList?
      modifies this
      ensures var ids := IdsAt(old(db), key);
              if ids == [] then r == None && db == old(db)
              else r == Some(ids[0]) && db == (if |ids| == 1 then old(db) - {key} else old(db)[key := IdList(ids[1..])])
    {
      var ids := IdsAt(db, key);
      if ids == [] {
        return None;
      }
      db := if |ids| == 1 then db - {key} else db[key := IdList(ids[1..])];
      r := Some(ids[0]);
    }

    method PushTask(key: string, task: Task)
      requires key in db ==> db[key].TaskList?
      modifies this
      ensures db == old(db)[key := TaskList(TasksAt(old(db), key) + [task])]
    {
      db := db[key := TaskList(TasksAt(db, key) + [task])];
    }

    method FlushDb()
      modifies this
      ensures db == map[]
    {
      db := map[];
    }
  }

  // What each queue operation does to the key space, command after command.

  function Pushed(db: Keys, name: string, id: string): Keys {
    db[QueueKey(name) := IdList(IdsAt(db, QueueKey(name)) + [id])]
  }

  function Popped(db: Keys, name: string): Keys {
    var ids := IdsAt(db, QueueKey(name));
    if |ids| <= 1 then db - {QueueKey(name)} else db[QueueKey(name) := IdList(ids[1..])]
  }

  function Interred(db: Keys, t: Task): Keys {
    db[DeadKey(t.queueName) := TaskList(TasksAt(db, DeadKey(t.queueName)) + [t])]
  }

  function RedisEnqueued(db: Keys, t: Task): Keys {
    Pushed(db[ItemKey(t.taskId) := Record(t.(status := Pending))], t.queueName, t.taskId)
  }

  function RedisDequeued(db: Keys, name: string, worker: string): (Keys, Option<Task>) {
    var ids := IdsAt(db, QueueKey(name));
    if ids == [] then (db, None)
    else
      var popped, key := Popped(db, name), ItemKey(ids[0]);
      if key !in popped || !popped[key].Record? then (popped, None)
      else
        var t := Started(popped[key].task, worker);
        (popped[key := Record(t)], Some(t))
  }

  function RedisAcked(db: Keys, id: string): (Keys, bool) {
    (db - {ItemKey(id)}, ItemKey(id) in db)
  }

  function RedisNacked(db: Keys, id: string, error: string): (Keys, bool) {
    var key := ItemKey(id);
    if key !in db || !db[key].Record? then (db, false)
    else
      var t := db[key].task.(lastError := Some(error));
      if Exhausted(t) then
        (Interred(db - {key}, t.(status := Dead)), true)
      else
        (Pushed(db[key := Record(t.(status := Pending))], t.queueName, id), true)
  }

  class RedisTaskQueue {
    const redis: Redis

    constructor (redis: Redis)
      ensures this.redis == redis
    {
      this.redis := redis;
    }

    method Enqueue(item: Task) returns (r: Task)
      requires WellTyped(redis.db)
      modifies redis
      ensures r == item.(status := Pending)
      ensures WellTyped(redis.db) && redis.db == RedisEnqueued(old(redis.db), item)
    {
      r := item.(status := Pending);
      redis.Set(ItemKey(r.taskId), r);
      redis.PushId(QueueKey(r.queueName), r.taskId);
    }

    method Dequeue(queueName: string, workerId: string) returns (r: Option<Task>)
      requires WellTyped(redis.db)
      modifies redis
      ensures WellTyped(redis.db) && (redis.db, r) == RedisDequeued(old(redis.db), queueName, workerId)
    {
      var id := redis.PopId(QueueKey(queueName));
      if id.None? {
        return None;
      }
      var raw := redis.Get(ItemKey(id.value));
      if raw.None? {
          return None;
      }
      var item := raw.value.(status := Processing, attemptCount := raw.value.attemptCount + 1, workerId := Some(workerId));
      redis.Set(ItemKey(id.value), item);
      r := Some(item);
    }

    method Ack(taskId: string) returns (found: bool)
      requires WellTyped(redis.db)
      modifies redis
      ensures WellTyped(redis.db) && (redis.db, found) == RedisAcked(old(redis.db), taskId)
    {
      var raw := redis.Get(ItemKey(taskId));
      if raw.None? {
        assert redis.db - {ItemKey(taskId)} == redis.db;
        return false;
      }
      redis.Delete(ItemKey(taskId));
      found := true;
    }

    method Nack(taskId: string, error: string) returns (found: bool)
      requires WellTyped(redis.db)
      modifies redis
      ensures WellTyped(redis.db) && (redis.db, found) == RedisNacked(old(redis.db), taskId, error)
    {
      var key := ItemKey(taskId);
      var raw := redis.Get(key);
      if raw.None? {
        return false;
      }
      var item := raw.value.(lastError := Some(error));
      if item.attemptCount >= item.maxRetries {
        redis.Delete(key);
        redis.PushTask(DeadKey(item.queueName), item.(status := Dead));
      } else {
        redis.Set(key, item.(status := Pending));
        redis.PushId(QueueKey(item.queueName), taskId);
      }
      found := true;
    }

    method PeekDeadLetter(queueName: string) returns (tasks: seq<Task>)
      requires WellTyped(redis.db)
      ensures tasks == TasksAt(redis.db, DeadKey(queueName))
    {
      tasks := TasksAt(redis.db, DeadKey(queueName));
    }

    method QueueLength(queueName: string) returns (length: nat)
      requires WellTyped(redis.db)
      ensures length == |IdsAt(redis.db, QueueKey(queueName))|
    {
      length := |IdsAt(redis.db, QueueKey(queueName))|;
    }

    method Close()
      modifies redis
      ensures redis.db == map[] && Represents(redis.db, EMPTY)
    {
      redis.FlushDb();
    }
  }
}

/**
 * `InMemoryTaskQueue`: a deque of ids per queue name, a dictionary of shared task
 * objects and dead-letter lists. Every method holds the queue's lock, so it is atomic.
 * `View` reads the objects as the values the queue machine works on.
 */
module InMemoryQueue {
  import opened Wrappers
  import opened TaskQueue

  class TaskItem {
    const taskId: string
    const queueName: string
    const payload: string
    const maxRetries: int
    var status: Status
    var attemptCount: int
    var lastError: Option<string>
    var workerId: Option<string>

    constructor (taskId: string, queueName: string, payload: string, maxRetries: int)
      ensures View() == Task(taskId, queueName, payload, maxRetries, Pending, 0, None, None)
    {
      this.taskId, this.queueName, this.payload, this.maxRetries := taskId, queueName, payload, maxRetries;
      status, attemptCount, lastError, workerId := Pending, 0, None, None;
    }

    ghost function View(): Task
      reads this
    {
      Task(taskId, queueName, payload, maxRetries, status, attemptCount, lastError, workerId)
    }
  }

  ghost function Views(items: seq<TaskItem>): (r: seq<Task>)
    reads items
    ensures |r| == |items|
    ensures forall i :: 0 <= i < |items| ==> r[i] == items[i].View()
  {
    if items == [] then [] else Views(items[..|items| - 1]) + [items[|items| - 1].View()]
  }

  /** The list kept under a name; none is an empty one. */
  function Lookup<T>(lists: map<string, seq<T>>, name: string): seq<T> {
    if name in lists then lists[name] else []
  }

  class InMemoryTaskQueue {
    var queues: map<string, seq<string>>
    var items: map<string, TaskItem>
    var deadLetter: map<string, seq<TaskItem>>

    /** Every object that was ever dead-lettered. */
    ghost var gone: set<TaskItem>

    ghost function Live(): set<TaskItem>
      reads this
    {
      set id | id in items :: items[id]
    }

    /** Every live object is filed under its own id and is not a dead letter. */
    ghost predicate Valid()
      reads this
    {
      && (forall id :: id in items ==> items[id].taskId == id && items[id] !in gone)
      && (forall name, item :: name in deadLetter && item in deadLetter[name] ==> item in gone)
    }

    ghost function LiveView(): map<string, Task>
      reads this, Live()
    {
      map id | id in items :: items[id].View()
    }

    ghost function DeadView(): map<string, seq<Task>>
      requires Valid()
      reads this, gone
    {
      map name | name in deadLetter :: Views(deadLetter[name])
    }

    ghost function View(): Queues
      requires Valid()
      reads this, Live(), gone
    {
      Queues(queues, LiveView(), DeadView())
    }

    /** Working on live objects leaves the dead letters as they were. */
    twostate lemma DeadUnchanged()
      requires old(Valid()) && Valid() && deadLetter == old(deadLetter)
      requires forall item :: item in old(gone) ==> item.View() == old(item.View())
      ensures DeadView() == old(DeadView())
    {
      forall name | name in deadLetter ensures Views(deadLetter[name]) == old(Views(deadLetter[name])) {
        SameViews(deadLetter[name]);
      }
    }

    twostate lemma OneForgotten(id: string)
      requires items == old(items) - {id}
      requires forall k :: k in items ==> items[k].View() == old(items[k].View())
      ensures LiveView() == old(LiveView()) - {id}
    {
    }

    twostate lemma OneChanged(id: string)
      requires id in items && items == old(items)[id := items[id]]
      requires forall k :: k in old(items) && k != id ==> items[k].View() == old(items[k].View())
      ensures LiveView() == old(LiveView())[id := items[id].View()]
    {
    }

    twostate lemma SameViews(s: seq<TaskItem>)
      requires forall item :: item in s ==> item.View() == old(item.View())
      ensures Views(s) == old(Views(s))
    {
      assert forall i :: 0 <= i < |s| ==> s[i] in s;
    }

    twostate lemma OldDeadKept()
      requires old(Valid()) && forall other :: other in old(gone) ==> other.View() == old(other.View())
      ensures forall name :: name in old(deadLetter) ==> Views(old(deadLetter)[name]) == old(Views(deadLetter[name]))
    {
      hide LiveView;
      forall name | name in old(deadLetter) ensures Views(old(deadLetter)[name]) == old(Views(deadLetter[name])) {
        SameViews(old(deadLetter)[name]);
      }
    }

    twostate lemma BuriedOne(item: TaskItem)
      requires old(Valid()) && Valid()
      requires deadLetter == old(deadLetter)[item.queueName := Lookup(old(deadLetter), item.queueName) + [item]]
      requires forall other :: other in old(gone) ==> other.View() == old(other.View())
      ensures DeadView() == WithDead(old(DeadView()), item.View())
    {
      hide Views, LiveView, Live;
      OldDeadKept();
      var home, was := item.queueName, old(DeadView());
      OneMore(Lookup(old(deadLetter), home), item);
      assert DeadView()[home] == Lookup(was, home) + [item.View()];
      hide Lookup;
      forall name | name in deadLetter && name != home ensures DeadView()[name] == was[name] {
        assert deadLetter[name] == old(deadLetter)[name];
      }
    }

    lemma OneMore(dead: seq<TaskItem>, item: TaskItem)
      ensures Views(dead + [item]) == Views(dead) + [item.View()]
      ensures Views([]) == []
    {
    }

    constructor ()
      ensures Valid() && View() == EMPTY
      ensures items == map[] && deadLetter == map[]
    {
      queues, items, deadLetter := map[], map[], map[];
      gone := {};
    }

    /** The same object is filed and handed back: the caller and the queue share it. */
    method Enqueue(item: TaskItem)
      requires Valid() && item !in gone
      modifies this`queues, this`items, item`status
      ensures Valid()
      ensures View() == Enqueued(old(View()), old(item.View()))
      ensures items == old(items)[item.taskId := item] && item.View() == old(item.View()).(status := Pending)
    {
      item.status := Pending;
      items := items[item.taskId := item];
      queues := queues[item.queueName := Lookup(queues, item.queueName) + [item.taskId]];
      DeadUnchanged();
      OneChanged(item.taskId);
    }

    method Dequeue(queueName: string, workerId: string) returns (item: TaskItem?, keyError: bool)
      requires Valid()
      modifies this`queues, Live()
      ensures Valid()
      ensures item != null ==> item in Live() && !keyError
      ensures (View(), if keyError then KeyError else if item == null then NoTask else Given(item.View()))
              == Dequeued(old(View()), queueName, workerId)
      ensures forall other :: other in Live() && other != item ==> other.View() == old(other.View())
    {
      var q := Lookup(queues, queueName);
      if q == [] {
        return null, false;
      }
      var taskId := q[0];
      queues := queues[queueName := q[1..]];
      if taskId !in items {
        DeadUnchanged();
        assert LiveView() == old(LiveView());
        return null, true;
      }
      item, keyError := items[taskId], false;
      hide Views;
      item.status := Processing;
      item.attemptCount := item.attemptCount + 1;
      item.workerId := Some(workerId);
      DeadUnchanged();
      OneChanged(taskId);
    }

    /** Forgets the task and marks the object its holders still have as completed. */
    method Ack(taskId: string) returns (found: bool)
      requires Valid()
      modifies this`items, Live()
      ensures Valid()
      ensures (View(), Flag(found)) == Acked(old(View()), taskId)
      ensures found ==> old(items[taskId]).View() == old(items[taskId].View()).(status := Completed)
    {
      if taskId !in items {
        return false;
      }
      var item := items[taskId];
      items := items - {taskId};
      item.status := Completed;
      found := true;
      DeadUnchanged();
      OneForgotten(taskId);
    }

    method Nack(taskId: string, error: string) returns (found: bool)
      requires Valid()
      modifies this, Live()
      ensures Valid()
      ensures (View(), Flag(found)) == Nacked(old(View()), taskId, error)
    {
      if taskId !in items {
        return false;
      }
      var item := items[taskId];
      if item.attemptCount >= item.maxRetries {
        GiveUp(item, error);
      } else {
        Retry(item, error);
      }
      found := true;
    }

    /** Moves a live object to the dead letters of its queue. */
    method Bury(item: TaskItem)
      requires Valid() && item in Live()
      modifies this`items, this`deadLetter, this`gone
      ensures Valid() && item !in Live() && gone == old(gone) + {item}
      ensures items == old(items) - {item.taskId}
      ensures deadLetter == old(deadLetter)[item.queueName := Lookup(old(deadLetter), item.queueName) + [item]]
    {
      items := items - {item.taskId};
      deadLetter := deadLetter[item.queueName := Lookup(deadLetter, item.queueName) + [item]];
      gone := gone + {item};
    }

    /** The dead-letter branch of `nack`. */
    method GiveUp(item: TaskItem, error: string)
      requires Valid() && item in Live() && Exhausted(item.View())
      modifies this, item
      ensures Valid()
      ensures View() == Nacked(old(View()), item.taskId, error).0
    {
      assert item.taskId in LiveView() && LiveView()[item.taskId] == item.View();
      hide LiveView, DeadView, Views, WithDead, Lookup;
      item.lastError := Some(error);
      item.status := Dead;
      Bury(item);
      BuriedOne(item);
      OneForgotten(item.taskId);
    }

    /** The requeueing branch of `nack`. */
    method Retry(item: TaskItem, error: string)
      requires Valid() && item in Live() && !Exhausted(item.View())
      modifies this`queues, item
      ensures Valid()
      ensures View() == Nacked(old(View()), item.taskId, error).0
    {
      assert item.taskId in LiveView() && LiveView()[item.taskId] == item.View();
      hide LiveView, DeadView, Views;
      item.lastError := Some(error);
      item.status := Pending;
      queues := queues[item.queueName := Lookup(queues, item.queueName) + [item.taskId]];
      DeadUnchanged();
      OneChanged(item.taskId);
    }

    method PeekDeadLetter(queueName: string) returns (tasks: seq<TaskItem>)
      requires Valid()
      ensures Listed(Views(tasks)) == Step(View(), Call.PeekDeadLetter(queueName)).1
      ensures forall item :: item in tasks ==> item in gone
    {
      tasks := Lookup(deadLetter, queueName);
    }

    method QueueLength(queueName: string) returns (length: nat)
      requires Valid()
      ensures Count(length) == Step(View(), Call.QueueLength(queueName)).1
    {
      length := |Lookup(queues, queueName)|;
    }

    method Close()
      modifies this
      ensures Valid() && View() == EMPTY
      ensures items == map[] && deadLetter == map[]
    {
      queues, items, deadLetter := map[], map[], map[];
      gone := {};
    }
  }
}

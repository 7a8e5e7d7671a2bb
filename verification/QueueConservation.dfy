/**
 * What a caller of the task queue may rely on: under the discipline (fresh ids, and
 * ack or nack only for a task in hand) no task is lost, duplicated, delivered twice at
 * once or delivered too often, and each queue serves its ids first in, first out.
 */
module QueueConservation {
  import opened Wrappers
  import opened TaskQueue

  /** What the callers have seen: everything here is read off the calls and their replies. */
  datatype History = History(enqueued: map<string, Task>, inHand: set<string>,
                             acked: set<string>, deliveries: map<string, nat>)

  const NOTHING := History(map[], {}, {}, map[])

  function Observed(h: History, call: Call, reply: Reply): History {
    match call
    case Enqueue(t) => h.(enqueued := h.enqueued[t.taskId := t], deliveries := h.deliveries[t.taskId := 0])
    case Dequeue(_, _) =>
      if !reply.Given? then h
      else
        var id := reply.task.taskId;
        var seen := if id in h.deliveries then h.deliveries[id] else 0;
        h.(inHand := h.inHand + {id}, deliveries := h.deliveries[id := seen + 1])
    case Ack(id) => if reply == Flag(true) then h.(inHand := h.inHand - {id}, acked := h.acked + {id}) else h
    case Nack(id, _) => if reply == Flag(true) then h.(inHand := h.inHand - {id}) else h
    case Close => NOTHING
    case _ => h
  }

  predicate Disciplined(h: History, call: Call) {
    match call
    case Enqueue(t) => t.taskId !in h.enqueued && t.attemptCount == 0
    case Ack(id) => id in h.inHand
    case Nack(id, _) => id in h.inHand
    case _ => true
  }

  predicate DisciplinedRun(q: Queues, h: History, calls: seq<Call>)
    decreases |calls|
  {
    calls == [] ||
    (Disciplined(h, calls[0]) &&
     var (next, reply) := Step(q, calls[0]);
     DisciplinedRun(next, Observed(h, calls[0], reply), calls[1..]))
  }

  function Run(q: Queues, h: History, calls: seq<Call>): (Queues, History)
    decreases |calls|
  {
    if calls == [] then (q, h)
    else
      var (next, reply) := Step(q, calls[0]);
      Run(next, Observed(h, calls[0], reply), calls[1..])
  }

  function AttemptLimit(t: Task): int {
    if t.maxRetries > 1 then t.maxRetries else 1
  }

  /** The parts of a task no queue operation touches. */
  predicate SameTask(a: Task, b: Task) {
    a.taskId == b.taskId && a.queueName == b.queueName && a.payload == b.payload && a.maxRetries == b.maxRetries
  }

  ghost predicate NoRepeats(ids: seq<string>) {
    forall i, j :: 0 <= i < j < |ids| ==> ids[i] != ids[j]
  }

  ghost predicate DistinctTasks(ts: seq<Task>) {
    forall i, j :: 0 <= i < j < |ts| ==> ts[i].taskId != ts[j].taskId
  }

  // The four places a task can be.

  ghost predicate IsPending(q: Queues, t: Task) {
    t.taskId in Waiting(q, t.queueName)
  }

  ghost predicate IsProcessing(q: Queues, t: Task) {
    t.taskId in q.items && q.items[t.taskId].status == Processing
  }

  ghost predicate IsAcked(h: History, t: Task) {
    t.taskId in h.acked
  }

  ghost predicate IsDead(q: Queues, t: Task) {
    exists i :: 0 <= i < |Buried(q, t.queueName)| && Buried(q, t.queueName)[i].taskId == t.taskId
  }

  ghost predicate LiveItem(q: Queues, h: History, id: string) {
    id in q.items ==>
      var t := q.items[id];
      && id in h.enqueued && t.taskId == id && SameTask(t, h.enqueued[id])
      && id in h.deliveries && t.attemptCount == h.deliveries[id]
      && id !in h.acked
      && (t.status == Pending || t.status == Processing)
      && (t.status == Processing <==> id in h.inHand)
      && (t.status == Pending ==> id in Waiting(q, t.queueName) && (t.attemptCount == 0 || t.attemptCount < t.maxRetries))
      && (t.status == Processing ==> 1 <= t.attemptCount <= AttemptLimit(t))
  }

  ghost predicate WaitingIds(q: Queues, name: string) {
    && NoRepeats(Waiting(q, name))
    && forall id :: id in Waiting(q, name) ==>
         id in q.items && q.items[id].status == Pending && q.items[id].queueName == name
  }

  ghost predicate DeadTask(q: Queues, h: History, name: string, t: Task) {
    var id := t.taskId;
    && t.status == Dead && t.queueName == name
    && id in h.enqueued && SameTask(t, h.enqueued[id])
    && id !in q.items && id !in h.acked
    && id in h.deliveries && t.attemptCount == h.deliveries[id] == AttemptLimit(t)
  }

  ghost predicate DeadTasks(q: Queues, h: History, name: string) {
    && DistinctTasks(Buried(q, name))
    && forall t :: t in Buried(q, name) ==> DeadTask(q, h, name, t)
  }

  ghost predicate Placed(q: Queues, h: History, id: string) {
    && (id in h.inHand ==> id in q.items)
    && (id in h.acked ==> id in h.enqueued && id in h.deliveries && h.deliveries[id] <= AttemptLimit(h.enqueued[id]))
    && (id in h.enqueued ==>
          h.enqueued[id].taskId == id && (id in q.items || id in h.acked || IsDead(q, h.enqueued[id])))
  }

  /** The invariant. */
  ghost predicate Conserved(q: Queues, h: History) {
    && (forall name :: WaitingIds(q, name))
    && (forall name :: DeadTasks(q, h, name))
    && (forall id :: LiveItem(q, h, id))
    && (forall id :: Placed(q, h, id))
  }

  ghost predicate Untouched(q: Queues, h: History, r: Queues, g: History, k: string) {
    && (k in r.items <==> k in q.items) && (k in q.items ==> r.items[k] == q.items[k])
    && (k in g.enqueued <==> k in h.enqueued) && (k in h.enqueued ==> g.enqueued[k] == h.enqueued[k])
    && (k in g.deliveries <==> k in h.deliveries) && (k in h.deliveries ==> g.deliveries[k] == h.deliveries[k])
    && (k in g.inHand <==> k in h.inHand) && (k in g.acked <==> k in h.acked)
  }

  /** One operation only ever touches one task: everything about the others stays. */
  ghost predicate OnlyTouches(q: Queues, h: History, r: Queues, g: History, id: string) {
    forall k :: k != id ==> Untouched(q, h, r, g, k)
  }

  lemma OthersStayLive(q: Queues, h: History, r: Queues, g: History, id: string)
    requires Conserved(q, h) && OnlyTouches(q, h, r, g, id)
    requires forall name, k :: k != id && k in Waiting(q, name) ==> k in Waiting(r, name)
    ensures forall k :: k != id ==> LiveItem(r, g, k)
  {
    hide WaitingIds, DeadTasks, Placed;
    forall k | k != id ensures LiveItem(r, g, k) {
      assert LiveItem(q, h, k) && Untouched(q, h, r, g, k);
    }
  }

  lemma OthersArePlaced(q: Queues, h: History, r: Queues, g: History, id: string)
    requires Conserved(q, h) && OnlyTouches(q, h, r, g, id)
    requires forall name :: Buried(q, name) <= Buried(r, name)
    ensures forall k :: k != id ==> Placed(r, g, k)
  {
    hide WaitingIds, DeadTasks, LiveItem;
    forall k | k != id ensures Placed(r, g, k) {
      assert Placed(q, h, k) && Untouched(q, h, r, g, k);
      if k in g.enqueued && IsDead(q, h.enqueued[k]) {
        var t := h.enqueued[k];
        var i :| 0 <= i < |Buried(q, t.queueName)| && Buried(q, t.queueName)[i].taskId == t.taskId;
        assert Buried(r, t.queueName)[i] == Buried(q, t.queueName)[i];
      }
    }
  }

  /** The dead stay as they are, and the touched task was not among them. */
  lemma TheDeadStayDead(q: Queues, h: History, r: Queues, g: History, id: string)
    requires Conserved(q, h) && OnlyTouches(q, h, r, g, id)
    requires id in q.items || id !in h.enqueued
    ensures forall name :: Buried(r, name) == Buried(q, name) ==> DeadTasks(r, g, name)
    ensures forall name, t :: t in Buried(q, name) ==> t.taskId != id && DeadTask(r, g, name, t)
  {
    hide WaitingIds, LiveItem, Placed, Buried;
    forall name, t | t in Buried(q, name) ensures t.taskId != id && DeadTask(r, g, name, t) {
      assert DeadTasks(q, h, name);
      assert DeadTask(q, h, name, t);
      assert t.taskId != id ==> Untouched(q, h, r, g, t.taskId);
    }
    forall name | Buried(r, name) == Buried(q, name) ensures DeadTasks(r, g, name) {
      assert DeadTasks(q, h, name);
    }
  }

  /** One id leaves a list, or none does. */
  lemma WaitingShrinks(q: Queues, h: History, r: Queues, g: History, id: string)
    requires Conserved(q, h) && OnlyTouches(q, h, r, g, id)
    requires forall name :: Waiting(r, name) == Waiting(q, name) ||
                            (|Waiting(q, name)| > 0 && Waiting(r, name) == Waiting(q, name)[1..])
    requires forall name :: id !in Waiting(r, name)
    ensures forall name :: WaitingIds(r, name)
  {
    hide DeadTasks, LiveItem, Placed, Waiting;
    forall name ensures WaitingIds(r, name) {
      assert WaitingIds(q, name);
      forall k | k in Waiting(r, name) ensures k in r.items && r.items[k] == q.items[k] {
        assert k != id && k in Waiting(q, name);
        assert Untouched(q, h, r, g, k);
      }
    }
  }

  /** One id that waits nowhere joins the queue its record names. */
  lemma WaitingGrows(q: Queues, h: History, r: Queues, g: History, id: string)
    requires Conserved(q, h) && OnlyTouches(q, h, r, g, id)
    requires id in r.items && r.items[id].status == Pending
    requires Waiting(r, r.items[id].queueName) == Waiting(q, r.items[id].queueName) + [id]
    requires forall name :: name != r.items[id].queueName ==> Waiting(r, name) == Waiting(q, name)
    requires forall name :: id !in Waiting(q, name)
    ensures forall name :: WaitingIds(r, name)
    ensures forall name, k :: k in Waiting(q, name) ==> k in Waiting(r, name)
  {
    hide DeadTasks, LiveItem, Placed, Waiting;
    forall name ensures WaitingIds(r, name) {
      assert WaitingIds(q, name);
      assert id !in Waiting(q, name);
      forall k | k in Waiting(r, name) && k != id ensures k in r.items && r.items[k] == q.items[k] {
        assert k in Waiting(q, name);
        assert Untouched(q, h, r, g, k);
      }
    }
    forall name, k | k in Waiting(q, name) ensures k in Waiting(r, name) {
      assert name != r.items[id].queueName ==> Waiting(r, name) == Waiting(q, name);
    }
  }

  /** What is processed waits nowhere. */
  lemma InHandWaitsNowhere(q: Queues, h: History, id: string)
    requires Conserved(q, h) && id in h.inHand
    ensures id in q.items && LiveItem(q, h, id) && q.items[id].status == Processing
    ensures forall name :: id !in Waiting(q, name)
  {
    hide DeadTasks, Waiting;
    assert Placed(q, h, id) && LiveItem(q, h, id);
    forall name ensures id !in Waiting(q, name) {
      assert WaitingIds(q, name);
    }
  }

  lemma FreshIsNowhere(q: Queues, h: History, id: string)
    requires Conserved(q, h) && id !in h.enqueued
    ensures id !in q.items && id !in h.acked && id !in h.inHand
    ensures forall name :: id !in Waiting(q, name)
  {
    hide DeadTasks, IsDead;
    assert Placed(q, h, id) && LiveItem(q, h, id);
    forall name ensures id !in Waiting(q, name) {
      assert WaitingIds(q, name);
    }
  }

  lemma EnqueueConserves(q: Queues, h: History, t: Task)
    requires Conserved(q, h) && Disciplined(h, Enqueue(t))
    ensures Conserved(Enqueued(q, t), Observed(h, Enqueue(t), Given(t.(status := Pending))))
  {
    var id := t.taskId;
    var r, g := Enqueued(q, t), Observed(h, Enqueue(t), Given(t.(status := Pending)));
    FreshIsNowhere(q, h, id);
    assert forall name :: Buried(r, name) == Buried(q, name);
    assert Waiting(r, t.queueName) == Waiting(q, t.queueName) + [id];
    assert forall name :: name != t.queueName ==> Waiting(r, name) == Waiting(q, name);
    hide WaitingIds, DeadTasks, Waiting, Buried;
    assert LiveItem(r, g, id);
    WaitingGrows(q, h, r, g, id);
    OthersStayLive(q, h, r, g, id);
    OthersArePlaced(q, h, r, g, id);
    TheDeadStayDead(q, h, r, g, id);
  }

  /** A dequeue under the invariant: never a stale id, never a task somebody holds. */
  lemma DequeueIsSound(q: Queues, h: History, name: string, worker: string)
    requires Conserved(q, h)
    ensures !Dequeued(q, name, worker).1.KeyError?
    ensures Dequeued(q, name, worker).1.Given? ==>
              var t := Dequeued(q, name, worker).1.task;
              && t.taskId == Waiting(q, name)[0] && t.taskId !in h.inHand
              && t.taskId in h.enqueued && SameTask(t, h.enqueued[t.taskId]) && t.queueName == name
              && t.status == Processing && t.workerId == Some(worker)
  {
    hide DeadTasks, IsDead;
    assert WaitingIds(q, name);
    if Waiting(q, name) != [] {
      assert LiveItem(q, h, Waiting(q, name)[0]);
    }
  }

  lemma DequeueConserves(q: Queues, h: History, name: string, worker: string)
    requires Conserved(q, h)
    ensures Conserved(Dequeued(q, name, worker).0, Observed(h, Dequeue(name, worker), Dequeued(q, name, worker).1))
  {
    DequeueIsSound(q, h, name, worker);
    if Waiting(q, name) != [] {
      var id := Waiting(q, name)[0];
      var (r, reply) := Dequeued(q, name, worker);
      var g := Observed(h, Dequeue(name, worker), reply);
      assert Waiting(r, name) == Waiting(q, name)[1..];
      assert forall other :: other != name ==> Waiting(r, other) == Waiting(q, other);
      assert forall other :: Buried(r, other) == Buried(q, other);
      hide IsDead, DeadTasks, Waiting, Buried;
      assert LiveItem(q, h, id);
      assert LiveItem(r, g, id);
      forall other ensures id !in Waiting(r, other) {
        assert WaitingIds(q, other);
      }
      hide WaitingIds;
      WaitingShrinks(q, h, r, g, id);
      OthersStayLive(q, h, r, g, id);
      OthersArePlaced(q, h, r, g, id);
      TheDeadStayDead(q, h, r, g, id);
    }
  }

  lemma AckConserves(q: Queues, h: History, id: string)
    requires Conserved(q, h) && Disciplined(h, Ack(id))
    ensures Acked(q, id).1 == Flag(true)
    ensures Conserved(Acked(q, id).0, Observed(h, Ack(id), Flag(true)))
  {
    InHandWaitsNowhere(q, h, id);
    var r, g := Acked(q, id).0, Observed(h, Ack(id), Flag(true));
    assert forall name :: Waiting(r, name) == Waiting(q, name) && Buried(r, name) == Buried(q, name);
    hide WaitingIds, DeadTasks, Waiting, Buried;
    WaitingShrinks(q, h, r, g, id);
    OthersStayLive(q, h, r, g, id);
    OthersArePlaced(q, h, r, g, id);
    TheDeadStayDead(q, h, r, g, id);
  }

  /**
   * A nack of a task in hand kills it exactly when it has been delivered at least
   * `max_retries` times; otherwise it goes to the back of its own queue.
   */
  lemma NackBuriesExactlyWhenExhausted(q: Queues, h: History, id: string, error: string)
    requires Conserved(q, h) && Disciplined(h, Nack(id, error))
    ensures Nacked(q, id, error).1 == Flag(true)
    ensures id in h.enqueued && id in h.deliveries
    ensures var t, r := h.enqueued[id], Nacked(q, id, error).0;
            if h.deliveries[id] >= t.maxRetries then
              && IsDead(r, t) && id !in r.items
              && |Buried(r, t.queueName)| == |Buried(q, t.queueName)| + 1
              && Buried(r, t.queueName)[|Buried(q, t.queueName)|].lastError == Some(error)
            else
              && Waiting(r, t.queueName) == Waiting(q, t.queueName) + [id]
              && id in r.items && r.items[id].lastError == Some(error)
              && forall name :: Buried(r, name) == Buried(q, name)
  {
    assert Placed(q, h, id) && LiveItem(q, h, id);
    var t, r := h.enqueued[id], Nacked(q, id, error).0;
    if h.deliveries[id] >= t.maxRetries {
      assert Buried(r, t.queueName)[|Buried(q, t.queueName)|].taskId == id;
    }
  }

  lemma BuryConserves(q: Queues, h: History, id: string, error: string)
    requires Conserved(q, h) && Disciplined(h, Nack(id, error)) && id in q.items && Exhausted(q.items[id])
    ensures Conserved(Nacked(q, id, error).0, Observed(h, Nack(id, error), Flag(true)))
  {
    InHandWaitsNowhere(q, h, id);
    var r, g := Nacked(q, id, error).0, Observed(h, Nack(id, error), Flag(true));
    var t := q.items[id].(lastError := Some(error), status := Dead);
    var home := t.queueName;
    BuryingLeaves(q, id, error);
    assert IsDead(r, h.enqueued[id]) by {
      assert Buried(r, home)[|Buried(q, home)|].taskId == id;
    }
    assert DeadTasks(q, h, home);
    hide IsDead, WaitingIds, Waiting, Buried, LiveItem;
    WaitingShrinks(q, h, r, g, id);
    OthersStayLive(q, h, r, g, id);
    OthersArePlaced(q, h, r, g, id);
    TheDeadStayDead(q, h, r, g, id);
    assert DeadTask(r, g, home, t);
    assert DeadTasks(r, g, home);
    hide DeadTasks;
  }

  lemma BuryingLeaves(q: Queues, id: string, error: string)
    requires id in q.items && Exhausted(q.items[id])
    ensures
      var t, r := q.items[id].(lastError := Some(error), status := Dead), Nacked(q, id, error).0;
      && r.items == q.items - {id} && (forall name :: Waiting(r, name) == Waiting(q, name))
      && Buried(r, t.queueName) == Buried(q, t.queueName) + [t]
      && forall name :: name != t.queueName ==> Buried(r, name) == Buried(q, name)
  {
  }

  lemma RetryConserves(q: Queues, h: History, id: string, error: string)
    requires Conserved(q, h) && Disciplined(h, Nack(id, error)) && id in q.items && !Exhausted(q.items[id])
    ensures Conserved(Nacked(q, id, error).0, Observed(h, Nack(id, error), Flag(true)))
  {
    InHandWaitsNowhere(q, h, id);
    var r, g := Nacked(q, id, error).0, Observed(h, Nack(id, error), Flag(true));
    var home := q.items[id].queueName;
    assert forall name :: Buried(r, name) == Buried(q, name);
    assert Waiting(r, home) == Waiting(q, home) + [id];
    assert forall name :: name != home ==> Waiting(r, name) == Waiting(q, name);
    hide WaitingIds, DeadTasks, Waiting, Buried;
    WaitingGrows(q, h, r, g, id);
    OthersStayLive(q, h, r, g, id);
    OthersArePlaced(q, h, r, g, id);
    TheDeadStayDead(q, h, r, g, id);
  }

  lemma StepConserves(q: Queues, h: History, call: Call)
    requires Conserved(q, h) && Disciplined(h, call)
    ensures var (r, reply) := Step(q, call); Conserved(r, Observed(h, call, reply)) && !reply.KeyError?
  {
    match call
    case Enqueue(t) => EnqueueConserves(q, h, t);
    case Dequeue(name, worker) =>
      DequeueConserves(q, h, name, worker);
      DequeueIsSound(q, h, name, worker);
    case Ack(id) => AckConserves(q, h, id);
    case Nack(id, error) =>
      assert Placed(q, h, id);
      if Exhausted(q.items[id]) {
        BuryConserves(q, h, id, error);
      } else {
        RetryConserves(q, h, id, error);
      }
    case Close =>
      assert forall name :: Waiting(EMPTY, name) == [] && Buried(EMPTY, name) == [];
    case _ =>
  }

  lemma {:induction false} RunConserves(q: Queues, h: History, calls: seq<Call>)
    requires Conserved(q, h) && DisciplinedRun(q, h, calls)
    ensures Conserved(Run(q, h, calls).0, Run(q, h, calls).1)
    ensures KeyError !in Replies(q, calls)
    decreases |calls|
  {
    if calls != [] {
      StepConserves(q, h, calls[0]);
      var (next, reply) := Step(q, calls[0]);
      RunConserves(next, Observed(h, calls[0], reply), calls[1..]);
    }
  }

  lemma {:induction false} OnceIn(ids: seq<string>, id: string)
    requires NoRepeats(ids)
    ensures multiset(ids)[id] == (if id in ids then 1 else 0)
  {
    if ids != [] {
      var rest := ids[..|ids| - 1];
      assert ids == rest + [ids[|ids| - 1]];
      OnceIn(rest, id);
    }
  }

  function Ones(b: bool): nat { if b then 1 else 0 }

  lemma OnePlace(q: Queues, h: History, id: string)
    requires Conserved(q, h) && id in h.enqueued
    ensures var t := h.enqueued[id];
            && Ones(IsPending(q, t)) + Ones(IsProcessing(q, t)) + Ones(IsAcked(h, t)) + Ones(IsDead(q, t)) == 1
            && (forall name :: id in Waiting(q, name) ==> name == t.queueName && multiset(Waiting(q, name))[id] == 1)
            && (IsProcessing(q, t) <==> id in h.inHand)
            && id in h.deliveries && h.deliveries[id] <= AttemptLimit(t)
            && (IsDead(q, t) <==> h.deliveries[id] == AttemptLimit(t) && id !in h.inHand && id !in h.acked)
  {
    var t := h.enqueued[id];
    assert DeadTasks(q, h, t.queueName) && WaitingIds(q, t.queueName);
    assert LiveItem(q, h, id) && Placed(q, h, id);
    if IsDead(q, t) {
      var i :| 0 <= i < |Buried(q, t.queueName)| && Buried(q, t.queueName)[i].taskId == id;
      assert DeadTask(q, h, t.queueName, Buried(q, t.queueName)[i]);
    }
    forall name | id in Waiting(q, name) ensures name == t.queueName && multiset(Waiting(q, name))[id] == 1 {
      assert WaitingIds(q, name);
      OnceIn(Waiting(q, name), id);
    }
  }

  /**
   * Conservation over whole runs. After any disciplined run from an empty queue, every
   * enqueued task is in exactly one place; a waiting task waits once and only in its own
   * queue; nothing was delivered more than max(1, max_retries) times; and the dead are
   * exactly those that used up every delivery and are neither in hand nor acked.
   */
  lemma {:induction false} NothingIsLost(calls: seq<Call>, id: string)
    requires DisciplinedRun(EMPTY, NOTHING, calls)
    requires id in Run(EMPTY, NOTHING, calls).1.enqueued
    ensures var (q, h) := Run(EMPTY, NOTHING, calls);
            var t := h.enqueued[id];
            && Ones(IsPending(q, t)) + Ones(IsProcessing(q, t)) + Ones(IsAcked(h, t)) + Ones(IsDead(q, t)) == 1
            && (forall name :: id in Waiting(q, name) ==> name == t.queueName && multiset(Waiting(q, name))[id] == 1)
            && (IsProcessing(q, t) <==> id in h.inHand)
            && id in h.deliveries && h.deliveries[id] <= AttemptLimit(t)
            && (IsDead(q, t) <==> h.deliveries[id] == AttemptLimit(t) && id !in h.inHand && id !in h.acked)
  {
    assert forall name :: Waiting(EMPTY, name) == [] && Buried(EMPTY, name) == [];
    assert Conserved(EMPTY, NOTHING);
    RunConserves(EMPTY, NOTHING, calls);
    var (q, h) := Run(EMPTY, NOTHING, calls);
    OnePlace(q, h, id);
  }

  /** The id a call adds at the back of a queue: a new task, or one sent back for a retry. */
  function Joining(q: Queues, call: Call, name: string): seq<string> {
    match call
    case Enqueue(t) => if t.queueName == name then [t.taskId] else []
    case Nack(id, _) =>
      if id in q.items && !Exhausted(q.items[id]) && q.items[id].queueName == name then [id] else []
    case _ => []
  }

  function Served(q: Queues, call: Call, name: string): seq<string> {
    if call.Dequeue? && call.queueName == name && Step(q, call).1.Given? then [Step(q, call).1.task.taskId] else []
  }

  function AllJoining(q: Queues, calls: seq<Call>, name: string): seq<string>
    decreases |calls|
  {
    if calls == [] then [] else Joining(q, calls[0], name) + AllJoining(Step(q, calls[0]).0, calls[1..], name)
  }

  function AllServed(q: Queues, calls: seq<Call>, name: string): seq<string>
    decreases |calls|
  {
    if calls == [] then [] else Served(q, calls[0], name) + AllServed(Step(q, calls[0]).0, calls[1..], name)
  }

  lemma StepKeepsOrder(q: Queues, h: History, call: Call, name: string)
    requires Conserved(q, h) && !call.Close?
    ensures Waiting(q, name) + Joining(q, call, name) == Served(q, call, name) + Waiting(Step(q, call).0, name)
  {
    hide Conserved;
    if call.Dequeue? {
      DequeueIsSound(q, h, call.queueName, call.worker);
    }
  }

  /** First in, first out: a queue serves exactly what joined it, in the order it joined. */
  lemma {:induction false} ServedInOrder(q: Queues, h: History, calls: seq<Call>, name: string)
    requires Conserved(q, h) && DisciplinedRun(q, h, calls) && Close !in calls
    ensures Waiting(q, name) + AllJoining(q, calls, name) == AllServed(q, calls, name) + Waiting(Run(q, h, calls).0, name)
    decreases |calls|
  {
    if calls != [] {
      hide Conserved, Joining, Served, Step, Observed, Waiting;
      var call, rest := calls[0], calls[1..];
      StepConserves(q, h, call);
      StepKeepsOrder(q, h, call, name);
      var (next, reply) := Step(q, call);
      ServedInOrder(next, Observed(h, call, reply), rest, name);
      Chain(Waiting(q, name), Joining(q, call, name), Served(q, call, name), Waiting(next, name),
            AllJoining(next, rest, name), AllServed(next, rest, name), Waiting(Run(q, h, calls).0, name));
    }
  }

  lemma Chain(before: seq<string>, joined: seq<string>, served: seq<string>, between: seq<string>,
              joinedLater: seq<string>, servedLater: seq<string>, after: seq<string>)
    requires before + joined == served + between
    requires between + joinedLater == servedLater + after
    ensures before + (joined + joinedLater) == (served + servedLater) + after
  {
    calc {
      before + (joined + joinedLater);
      (before + joined) + joinedLater;
      served + (between + joinedLater);
      (served + servedLater) + after;
    }
  }

  /** At any moment of a run `queue_length` answers how many more ids joined the queue than it served. */
  lemma LengthCountsTheWaiting(calls: seq<Call>, name: string)
    requires DisciplinedRun(EMPTY, NOTHING, calls) && Close !in calls
    ensures |AllServed(EMPTY, calls, name)| <= |AllJoining(EMPTY, calls, name)|
    ensures Step(Run(EMPTY, NOTHING, calls).0, QueueLength(name)).1
      == Count(|AllJoining(EMPTY, calls, name)| - |AllServed(EMPTY, calls, name)|)
  {
    EmptyConserves();
    ServedInOrder(EMPTY, NOTHING, calls, name);
    hide AllServed, AllJoining, Run;
  }

  lemma EmptyConserves()
    ensures Conserved(EMPTY, NOTHING)
    ensures forall name :: Waiting(EMPTY, name) == [] && Buried(EMPTY, name) == []
  {
    assert forall name :: Waiting(EMPTY, name) == [] && Buried(EMPTY, name) == [];
  }

  /** The id a call gives up for good: a nack of a task that has had all its deliveries. */
  function GivingUp(h: History, call: Call, name: string): seq<string> {
    if call.Nack? && call.taskId in h.enqueued && call.taskId in h.deliveries && h.enqueued[call.taskId].queueName == name
       && h.deliveries[call.taskId] >= h.enqueued[call.taskId].maxRetries
    then [call.taskId] else []
  }

  function AllGivenUp(q: Queues, h: History, calls: seq<Call>, name: string): seq<string>
    decreases |calls|
  {
    if calls == [] then []
    else
      var (next, reply) := Step(q, calls[0]);
      GivingUp(h, calls[0], name) + AllGivenUp(next, Observed(h, calls[0], reply), calls[1..], name)
  }

  function IdsOf(tasks: seq<Task>): (r: seq<string>)
    ensures |r| == |tasks|
  {
    seq(|tasks|, i requires 0 <= i < |tasks| => tasks[i].taskId)
  }

  lemma StepBuries(q: Queues, h: History, call: Call, name: string)
    requires Conserved(q, h) && Disciplined(h, call) && !call.Close?
    ensures IdsOf(Buried(Step(q, call).0, name)) == IdsOf(Buried(q, name)) + GivingUp(h, call, name)
  {
    if call.Nack? {
      assert Placed(q, h, call.taskId) && LiveItem(q, h, call.taskId);
      hide Conserved, Placed;
      if Exhausted(q.items[call.taskId]) && q.items[call.taskId].queueName == name {
        var t := q.items[call.taskId].(lastError := Some(call.error), status := Dead);
        assert Buried(Step(q, call).0, name) == Buried(q, name) + [t];
      }
    }
    hide Conserved;
  }

  lemma Regroup(a: seq<string>, b: seq<string>, c: seq<string>)
    ensures (a + b) + c == a + (b + c)
  {
  }

  lemma {:induction false} BuriedInOrder(q: Queues, h: History, calls: seq<Call>, name: string)
    requires Conserved(q, h) && DisciplinedRun(q, h, calls) && Close !in calls
    ensures IdsOf(Buried(Run(q, h, calls).0, name)) == IdsOf(Buried(q, name)) + AllGivenUp(q, h, calls, name)
    decreases |calls|
  {
    if calls != [] {
      hide Conserved, Step, Observed, Buried, GivingUp, IdsOf, Disciplined, Replies;
      var call, rest := calls[0], calls[1..];
      assert call in calls && forall c :: c in rest ==> c in calls;
      StepConserves(q, h, call);
      StepBuries(q, h, call, name);
      var (next, reply) := Step(q, call);
      var later := Observed(h, call, reply);
      BuriedInOrder(next, later, rest, name);
      Regroup(IdsOf(Buried(q, name)), GivingUp(h, call, name), AllGivenUp(next, later, rest, name));
    }
  }

  /**
   At any moment of a run `peek_dead_letter` lists the tasks that were given up, in the
   order in which they were, each as it was enqueued but for its status, with its deliveries.
   */
  lemma PeekListsTheGivenUp(calls: seq<Call>, name: string)
    requires DisciplinedRun(EMPTY, NOTHING, calls) && Close !in calls
    ensures
      var (q, h) := Run(EMPTY, NOTHING, calls);
      var reply := Step(q, PeekDeadLetter(name)).1;
      && reply.Listed? && IdsOf(reply.tasks) == AllGivenUp(EMPTY, NOTHING, calls, name)
      && forall t :: t in reply.tasks ==>
           && t.taskId in h.enqueued && SameTask(t, h.enqueued[t.taskId]) && t.status == Dead
           && t.taskId in h.deliveries && t.attemptCount == h.deliveries[t.taskId]
  {
    EmptyConserves();
    RunConserves(EMPTY, NOTHING, calls);
    BuriedInOrder(EMPTY, NOTHING, calls, name);
    var (q, h) := Run(EMPTY, NOTHING, calls);
    assert DeadTasks(q, h, name);
    assert IdsOf(Buried(EMPTY, name)) == [];
    hide Run, AllGivenUp;
  }

  /** The error a task was last sent back with and the worker it was last handed to, read off the calls. */
  datatype Note = Note(error: Option<string>, worker: Option<string>)

  function NoteOf(t: Task): Note {
    Note(t.lastError, t.workerId)
  }

  function NotesAfter(notes: map<string, Note>, call: Call, reply: Reply): map<string, Note> {
    match call
    case Enqueue(t) => notes[t.taskId := NoteOf(t)]
    case Dequeue(_, worker) =>
      if reply.Given? && reply.task.taskId in notes then
        notes[reply.task.taskId := notes[reply.task.taskId].(worker := Some(worker))]
      else notes
    case Nack(id, error) => if reply == Flag(true) && id in notes then notes[id := notes[id].(error := Some(error))] else notes
    case _ => notes
  }

  function NotesOf(q: Queues, notes: map<string, Note>, calls: seq<Call>): map<string, Note>
    decreases |calls|
  {
    if calls == [] then notes
    else
      var (next, reply) := Step(q, calls[0]);
      NotesOf(next, NotesAfter(notes, calls[0], reply), calls[1..])
  }

  ghost predicate LiveNoted(q: Queues, notes: map<string, Note>) {
    forall id :: id in q.items ==> id in notes && NoteOf(q.items[id]) == notes[id]
  }

  ghost predicate DeadNoted(q: Queues, notes: map<string, Note>, name: string) {
    forall t :: t in Buried(q, name) ==> t.taskId in notes && NoteOf(t) == notes[t.taskId]
  }

  lemma StepKeepsNotes(q: Queues, h: History, notes: map<string, Note>, call: Call)
    requires Conserved(q, h) && Disciplined(h, call) && LiveNoted(q, notes)
    ensures var (r, reply) := Step(q, call); LiveNoted(r, NotesAfter(notes, call, reply))
  {
    if call.Dequeue? {
      DequeueIsSound(q, h, call.queueName, call.worker);
      assert forall id :: id in q.items ==> LiveItem(q, h, id);
    }
    hide Conserved, Waiting, LiveItem, Disciplined;
  }

  lemma StepKeepsDeadNotes(q: Queues, h: History, notes: map<string, Note>, call: Call, name: string)
    requires Conserved(q, h) && Disciplined(h, call) && LiveNoted(q, notes) && DeadNoted(q, notes, name)
    ensures var (r, reply) := Step(q, call); DeadNoted(r, NotesAfter(notes, call, reply), name)
  {
    var (r, reply) := Step(q, call);
    var later := NotesAfter(notes, call, reply);
    assert DeadTasks(q, h, name);
    if call.Dequeue? {
      DequeueIsSound(q, h, call.queueName, call.worker);
    }
    if call.Nack? {
      assert Placed(q, h, call.taskId) && LiveItem(q, h, call.taskId);
    }
    forall t | t in Buried(r, name) ensures t.taskId in later && NoteOf(t) == later[t.taskId] {
      if t in Buried(q, name) {
        assert DeadTask(q, h, name, t);
      }
    }
  }

  lemma {:induction false} NotesAreKept(q: Queues, h: History, notes: map<string, Note>, calls: seq<Call>, name: string)
    requires Conserved(q, h) && DisciplinedRun(q, h, calls) && LiveNoted(q, notes) && DeadNoted(q, notes, name)
    ensures LiveNoted(Run(q, h, calls).0, NotesOf(q, notes, calls))
    ensures DeadNoted(Run(q, h, calls).0, NotesOf(q, notes, calls), name)
    decreases |calls|
  {
    if calls != [] {
      hide Conserved, Step, Observed, LiveNoted, DeadNoted, NotesAfter;
      StepConserves(q, h, calls[0]);
      StepKeepsNotes(q, h, notes, calls[0]);
      StepKeepsDeadNotes(q, h, notes, calls[0], name);
      var (next, reply) := Step(q, calls[0]);
      NotesAreKept(next, Observed(h, calls[0], reply), NotesAfter(notes, calls[0], reply), calls[1..], name);
    }
  }

  /**
   Whoever is handed a task, or finds it among the dead letters, reads on it the error it
   was last sent back with and the worker it was last handed to.
   */
  lemma TasksTellTheirPast(calls: seq<Call>, name: string, worker: string)
    requires DisciplinedRun(EMPTY, NOTHING, calls)
    ensures
      var q, notes := Run(EMPTY, NOTHING, calls).0, NotesOf(EMPTY, map[], calls);
      var handed, dead := Step(q, Dequeue(name, worker)).1, Step(q, PeekDeadLetter(name)).1;
      && (handed.Given? ==> handed.task.taskId in notes && handed.task.workerId == Some(worker)
                            && handed.task.lastError == notes[handed.task.taskId].error)
      && dead.Listed? && forall t :: t in dead.tasks ==> t.taskId in notes && NoteOf(t) == notes[t.taskId]
  {
    EmptyConserves();
    RunConserves(EMPTY, NOTHING, calls);
    NotesAreKept(EMPTY, NOTHING, map[], calls, name);
    var (q, h) := Run(EMPTY, NOTHING, calls);
    DequeueIsSound(q, h, name, worker);
    assert forall id :: id in q.items ==> LiveItem(q, h, id);
    hide Run, NotesOf, Conserved;
  }
}

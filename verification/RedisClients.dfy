/**
 * Clients of one Redis server. A queue operation is a few commands; each command is
 * atomic, but the commands of different clients may interleave in any way. Clients that
 * keep the discipline, each acking and nacking only what it was handed itself, cannot
 * tell: every interleaving gives the replies of some sequential order of the operations.
 */
module RedisClients {
  import opened Wrappers
  import opened TaskQueue
  import opened RedisQueue
  import opened QueueConservation
  import opened QueueRefinement

  /** What a client still has to send for its operation. */
  datatype Phase =
    | Idle
    | Filing(task: Task)                                    // `enqueue`: the record is written, the id not pushed
    | Taken(id: string, worker: string)                     // `dequeue`: the id is popped, its record not read
    | Starting(id: string, task: Task)                      // the record is read, not written back
    | Clearing(id: string)                                  // `ack`: the record is seen, not deleted
    | Deciding(id: string, task: Task, error: string)       // `nack`: the record is read
    | Requeueing(id: string, task: Task, error: string)     // it is written back, the id not pushed
    | Burying(id: string, task: Task, error: string)        // it is deleted, and not yet a dead letter

  datatype Effect = Effect(db: Keys, phase: Phase, replies: seq<Reply>)

  function RecordAt(db: Keys, id: string): Option<Task> {
    if ItemKey(id) in db && db[ItemKey(id)].Record? then Some(db[ItemKey(id)].task) else None
  }

  /** The first command of an operation. */
  function FirstCommand(db: Keys, call: Call): Effect {
    match call
    case Enqueue(t) => Effect(db[ItemKey(t.taskId) := Record(t.(status := Pending))], Filing(t), [])
    case Dequeue(name, worker) =>
      var ids := IdsAt(db, QueueKey(name));
      if ids == [] then Effect(db, Idle, [NoTask]) else Effect(Popped(db, name), Taken(ids[0], worker), [])
    case Ack(id) => if ItemKey(id) in db then Effect(db, Clearing(id), []) else Effect(db, Idle, [Flag(false)])
    case Nack(id, error) =>
      var raw := RecordAt(db, id);
      if raw.None? then Effect(db, Idle, [Flag(false)])
      else Effect(db, Deciding(id, raw.value.(lastError := Some(error)), error), [])
    case PeekDeadLetter(name) => Effect(db, Idle, [Listed(TasksAt(db, DeadKey(name)))])
    case QueueLength(name) => Effect(db, Idle, [Count(|IdsAt(db, QueueKey(name))|)])
    case Close => Effect(map[], Idle, [Done])
  }

  function NextCommand(db: Keys, phase: Phase): Effect {
    match phase
    case Idle => Effect(db, Idle, [])
    case Filing(t) => Effect(Pushed(db, t.queueName, t.taskId), Idle, [Given(t.(status := Pending))])
    case Taken(id, worker) =>
      var raw := RecordAt(db, id);
      if raw.None? then Effect(db, Idle, [NoTask]) else Effect(db, Starting(id, Started(raw.value, worker)), [])
    case Starting(id, t) => Effect(db[ItemKey(id) := Record(t)], Idle, [Given(t)])
    case Clearing(id) => Effect(db - {ItemKey(id)}, Idle, [Flag(true)])
    case Deciding(id, t, error) =>
      if Exhausted(t) then Effect(db - {ItemKey(id)}, Burying(id, t.(status := Dead), error), [])
      else Effect(db[ItemKey(id) := Record(t.(status := Pending))], Requeueing(id, t.(status := Pending), error), [])
    case Requeueing(id, t, _) => Effect(Pushed(db, t.queueName, id), Idle, [Flag(true)])
    case Burying(_, t, _) => Effect(Interred(db, t), Idle, [Flag(true)])
  }

  function CommandsLeft(phase: Phase): nat {
    match phase
    case Idle => 0
    case Taken(_, _) => 2
    case Deciding(_, _, _) => 2
    case _ => 1
  }

  function Later(e: Effect): Effect {
    var next := NextCommand(e.db, e.phase);
    next.(replies := e.replies + next.replies)
  }

  /** The rest of an operation nobody gets in the way of. */
  function Undisturbed(e: Effect): Effect
    decreases CommandsLeft(e.phase)
  {
    if e.phase.Idle? then e
    else Undisturbed(Later(e))
  }

  lemma UndisturbedUnfolds(e: Effect)
    ensures Undisturbed(e) == if e.phase.Idle? then e else Undisturbed(Later(e))
  {
    hide NextCommand;
  }

  lemma UndisturbedDequeue(db: Keys, name: string, worker: string)
    ensures
      var (after, reply) := RedisStep(db, Dequeue(name, worker));
      Undisturbed(FirstCommand(db, Dequeue(name, worker))) == Effect(after, Idle, [reply])
  {
    var first := FirstCommand(db, Dequeue(name, worker));
    UndisturbedUnfolds(first);
    UndisturbedUnfolds(Later(first));
    UndisturbedUnfolds(Later(Later(first)));
    hide Undisturbed, Popped, IdsAt;
  }

  lemma UndisturbedNack(db: Keys, id: string, error: string)
    requires WellTyped(db)
    ensures
      var (after, reply) := RedisStep(db, Nack(id, error));
      Undisturbed(FirstCommand(db, Nack(id, error))) == Effect(after, Idle, [reply])
  {
    var first := FirstCommand(db, Nack(id, error));
    UndisturbedUnfolds(first);
    UndisturbedUnfolds(Later(first));
    UndisturbedUnfolds(Later(Later(first)));
    hide Undisturbed, Pushed, Interred, WellTyped;
  }

  lemma UndisturbedAck(db: Keys, id: string)
    ensures Undisturbed(FirstCommand(db, Ack(id))) == Effect(RedisAcked(db, id).0, Idle, [Flag(RedisAcked(db, id).1)])
  {
    UndisturbedUnfolds(FirstCommand(db, Ack(id)));
    UndisturbedUnfolds(Later(FirstCommand(db, Ack(id))));
    hide Undisturbed;
    if ItemKey(id) !in db {
      assert db - {ItemKey(id)} == db;
    }
  }

  /** Sent one after another, the commands of an operation are the operation. */
  lemma UndisturbedIsTheStep(db: Keys, call: Call)
    requires WellTyped(db)
    ensures Undisturbed(FirstCommand(db, call)) == Effect(RedisStep(db, call).0, Idle, [RedisStep(db, call).1])
  {
    match call
    case Dequeue(name, worker) => UndisturbedDequeue(db, name, worker);
    case Nack(id, error) => UndisturbedNack(db, id, error);
    case Ack(id) => UndisturbedAck(db, id);
    case _ =>
      UndisturbedUnfolds(FirstCommand(db, call));
      UndisturbedUnfolds(Later(FirstCommand(db, call)));
      hide Undisturbed, Pushed, WellTyped;
  }

  /** A client, the tasks it was handed, and what it has called and been answered so far. */
  datatype Client = Client(phase: Phase, hand: set<string>, calls: seq<Call>, replies: seq<Reply>)

  /** `used` are the task ids of all `enqueue` calls so far. */
  datatype Site = Site(db: Keys, clients: seq<Client>, used: set<string>)

  /** A client starts an operation, or sends the next command of the one it is in. */
  datatype Act = Begin(client: nat, call: Call) | Proceed(client: nat)

  function NewIds(call: Call): set<string> {
    if call.Enqueue? then {call.task.taskId} else {}
  }

  function GivenBack(call: Call): set<string> {
    match call
    case Ack(id) => {id}
    case Nack(id, _) => {id}
    case _ => {}
  }

  function Received(phase: Phase): set<string> {
    if phase.Starting? then {phase.id} else {}
  }

  function Moved(s: Site, act: Act): (t: Site)
    ensures |t.clients| == |s.clients|
  {
    if act.client >= |s.clients| then s
    else
      var me := s.clients[act.client];
      match act
      case Begin(c, call) =>
        var e := FirstCommand(s.db, call);
        var now := Client(e.phase, me.hand - GivenBack(call), me.calls + [call], me.replies + e.replies);
        Site(e.db, s.clients[c := now], s.used + NewIds(call))
      case Proceed(c) =>
        var e := NextCommand(s.db, me.phase);
        var now := Client(e.phase, me.hand + Received(me.phase), me.calls, me.replies + e.replies);
        Site(e.db, s.clients[c := now], s.used)
  }

  /** The discipline of concurrent clients: fresh ids, each acks and nacks its own, nobody closes. */
  predicate Allowed(s: Site, act: Act) {
    act.client < |s.clients| &&
    match act
    case Proceed(c) => !s.clients[c].phase.Idle?
    case Begin(c, call) =>
      s.clients[c].phase.Idle? &&
      match call
      case Enqueue(t) => t.taskId !in s.used && t.attemptCount == 0
      case Ack(id) => id in s.clients[c].hand
      case Nack(id, _) => id in s.clients[c].hand
      case Close => false
      case _ => true
  }

  /** An interleaving of `n` clients, from an empty server. */
  function SiteAfter(n: nat, acts: seq<Act>): (s: Site)
    ensures |s.clients| == n
  {
    if acts == [] then Site(map[], seq(n, _ => Client(Idle, {}, [], [])), {})
    else Moved(SiteAfter(n, acts[..|acts| - 1]), acts[|acts| - 1])
  }

  predicate Orderly(n: nat, acts: seq<Act>) {
    acts == [] || (Orderly(n, acts[..|acts| - 1]) && Allowed(SiteAfter(n, acts[..|acts| - 1]), acts[|acts| - 1]))
  }

  // The sequential order: each operation takes effect at one of its commands, the one on a list.

  datatype Entry = Entry(client: nat, call: Call, reply: Reply)

  /** The operations in that order, and the queue machine that runs them one at a time. */
  datatype Order = Order(queues: Queues, seen: History, log: seq<Entry>)

  /** The operation this command makes take effect, if it does. */
  function Effective(s: Site, act: Act): Option<Call> {
    match act
    case Begin(_, call) => if call.Dequeue? || call.PeekDeadLetter? || call.QueueLength? then Some(call) else None
    case Proceed(c) =>
      if c >= |s.clients| then None
      else
        match s.clients[c].phase
        case Filing(t) => Some(Enqueue(t))
        case Clearing(id) => Some(Ack(id))
        case Requeueing(id, _, error) => Some(Nack(id, error))
        case Burying(id, _, error) => Some(Nack(id, error))
        case _ => None
  }

  function Entered(o: Order, c: nat, call: Call): Order {
    var (next, reply) := Step(o.queues, call);
    Order(next, Observed(o.seen, call, reply), o.log + [Entry(c, call, reply)])
  }

  function Noted(s: Site, o: Order, act: Act): Order {
    var call := Effective(s, act);
    if call.None? then o else Entered(o, act.client, call.value)
  }

  function OrderAfter(n: nat, acts: seq<Act>): Order {
    if acts == [] then Order(EMPTY, NOTHING, [])
    else
      var earlier := acts[..|acts| - 1];
      Noted(SiteAfter(n, earlier), OrderAfter(n, earlier), acts[|acts| - 1])
  }

  // The invariant: who may touch which record, and how the records in someone's hands lag behind.

  function OwnIds(phase: Phase): set<string> {
    match phase
    case Idle => {}
    case Filing(t) => {t.taskId}
    case Taken(id, _) => {id}
    case Starting(id, _) => {id}
    case Clearing(id) => {id}
    case Deciding(id, _, _) => {id}
    case Requeueing(id, _, _) => {id}
    case Burying(id, _, _) => {id}
  }

  function Claim(me: Client): set<string> {
    me.hand + OwnIds(me.phase)
  }

  ghost predicate PhaseOk(s: Site, o: Order, phase: Phase) {
    var db, items, inHand := s.db, o.queues.items, o.seen.inHand;
    match phase
    case Idle => true
    case Filing(t) =>
      && t.taskId !in o.seen.enqueued && t.attemptCount == 0
      && ItemKey(t.taskId) in db && db[ItemKey(t.taskId)] == Record(t.(status := Pending))
    case Taken(id, worker) =>
      && id in inHand && id in items && ItemKey(id) in db && db[ItemKey(id)].Record?
      && items[id] == Started(db[ItemKey(id)].task, worker)
    case Starting(id, t) => id in inHand && id in items && items[id] == t
    case Clearing(id) => id in inHand && Agrees(db, o.queues, id)
    case Deciding(id, t, error) =>
      id in inHand && Agrees(db, o.queues, id) && id in items && t == items[id].(lastError := Some(error))
    case Requeueing(id, t, error) =>
      && id in inHand && id in items && !Exhausted(items[id])
      && t == items[id].(lastError := Some(error), status := Pending)
      && ItemKey(id) in db && db[ItemKey(id)] == Record(t)
    case Burying(id, t, error) =>
      && id in inHand && id in items && Exhausted(items[id])
      && t == items[id].(lastError := Some(error), status := Dead)
      && ItemKey(id) !in db
  }

  ghost predicate ClientOk(s: Site, o: Order, me: Client) {
    && PhaseOk(s, o, me.phase)
    && me.hand <= o.seen.inHand && me.hand !! OwnIds(me.phase)
    && Claim(me) <= s.used
  }

  /** The task is in the middle of somebody's operation. */
  ghost predicate Busy(s: Site, id: string) {
    exists c :: 0 <= c < |s.clients| && id in OwnIds(s.clients[c].phase)
  }

  ghost predicate Apart(s: Site) {
    forall c, d :: 0 <= c < |s.clients| && 0 <= d < |s.clients| && c != d ==> Claim(s.clients[c]) !! Claim(s.clients[d])
  }

  ghost predicate Coupled(s: Site, o: Order) {
    && Conserved(o.queues, o.seen) && ListsAgree(s.db, o.queues)
    && o.seen.enqueued.Keys <= s.used
    && Apart(s)
    && (forall c :: 0 <= c < |s.clients| ==> ClientOk(s, o, s.clients[c]))
    && (forall id :: Agrees(s.db, o.queues, id) || Busy(s, id))
  }

  /** Nothing about task `id` differs between the two moments. */
  ghost predicate Same(s: Site, o: Order, t: Site, p: Order, id: string) {
    && SameRecord(s.db, t.db, id)
    && (id in p.queues.items <==> id in o.queues.items)
    && (id in o.queues.items ==> p.queues.items[id] == o.queues.items[id])
    && (id in p.seen.inHand <==> id in o.seen.inHand)
    && (id in p.seen.enqueued <==> id in o.seen.enqueued)
  }

  /** Client `c` moves and touches the tasks `x` only, none of which another client has a claim to. */
  ghost predicate Touches(s: Site, o: Order, t: Site, p: Order, c: nat, x: set<string>) {
    && c < |s.clients| == |t.clients| && s.used <= t.used
    && (forall d :: 0 <= d < |s.clients| && d != c ==> t.clients[d] == s.clients[d] && Claim(s.clients[d]) !! x)
    && (forall id :: id !in x ==> Same(s, o, t, p, id))
    && OwnIds(s.clients[c].phase) <= x
    && Claim(t.clients[c]) <= Claim(s.clients[c]) + x
  }

  lemma OthersStayOk(s: Site, o: Order, t: Site, p: Order, c: nat, x: set<string>, d: nat)
    requires Touches(s, o, t, p, c, x) && d < |s.clients| && d != c && ClientOk(s, o, s.clients[d])
    ensures ClientOk(t, p, t.clients[d])
  {
    var me := s.clients[d];
    assert forall id :: id in Claim(me) ==> Same(s, o, t, p, id);
  }

  lemma OthersStaySettled(s: Site, o: Order, t: Site, p: Order, c: nat, x: set<string>, id: string)
    requires Touches(s, o, t, p, c, x) && id !in x && (Agrees(s.db, o.queues, id) || Busy(s, id))
    ensures Agrees(t.db, p.queues, id) || Busy(t, id)
  {
    assert Same(s, o, t, p, id);
    if Busy(s, id) {
      var d :| 0 <= d < |s.clients| && id in OwnIds(s.clients[d].phase);
      assert t.clients[d] == s.clients[d];
    }
  }

  /** What is left to check of one move of one client. */
  lemma MoveKeepsCoupled(s: Site, o: Order, t: Site, p: Order, c: nat, x: set<string>)
    requires Coupled(s, o) && Touches(s, o, t, p, c, x)
    requires Conserved(p.queues, p.seen) && ListsAgree(t.db, p.queues) && p.seen.enqueued.Keys <= t.used
    requires ClientOk(t, p, t.clients[c])
    requires forall id :: id in x ==> Agrees(t.db, p.queues, id) || id in OwnIds(t.clients[c].phase)
    ensures Coupled(t, p)
  {
    hide Conserved, ListsAgree, ClientOk, Agrees, Same;
    forall d | 0 <= d < |t.clients| ensures ClientOk(t, p, t.clients[d]) {
      if d != c {
        OthersStayOk(s, o, t, p, c, x, d);
      }
    }
    forall id ensures Agrees(t.db, p.queues, id) || Busy(t, id) {
      if id !in x {
        OthersStaySettled(s, o, t, p, c, x, id);
      }
    }
  }

  lemma ClientIsOk(s: Site, o: Order, c: nat)
    requires Coupled(s, o) && c < |s.clients|
    ensures ClientOk(s, o, s.clients[c])
    ensures forall d :: 0 <= d < |s.clients| && d != c ==> Claim(s.clients[d]) !! Claim(s.clients[c])
    ensures ListsAgree(s.db, o.queues) && Conserved(o.queues, o.seen) && o.seen.enqueued.Keys <= s.used
  {
    hide Conserved, ListsAgree, ClientOk, Agrees;
  }

  /** A task an idle client holds is in nobody's operation. */
  lemma HeldIsSettled(s: Site, o: Order, c: nat, id: string)
    requires Coupled(s, o) && c < |s.clients| && s.clients[c].phase.Idle?
    requires forall d :: 0 <= d < |s.clients| && d != c ==> id !in Claim(s.clients[d])
    ensures Agrees(s.db, o.queues, id)
  {
    hide Conserved, ListsAgree, ClientOk, Agrees;
    assert !Busy(s, id);
  }

  // One lemma per command. First those that begin an operation.

  lemma RecordWritten(db: Keys, q: Queues, id: string, t: Task)
    requires ListsAgree(db, q)
    ensures ListsAgree(db[ItemKey(id) := Record(t)], q) && ListsAgree(db - {ItemKey(id)}, q)
  {
    RecordKeepsLists(db, q, id, t, q.items);
    assert q.(items := q.items) == q;
  }

  lemma NewIdIsFree(s: Site, o: Order, id: string)
    requires Coupled(s, o) && id !in s.used
    ensures forall d :: 0 <= d < |s.clients| ==> id !in Claim(s.clients[d])
  {
    forall d | 0 <= d < |s.clients| ensures id !in Claim(s.clients[d]) {
      ClientIsOk(s, o, d);
    }
  }

  lemma EnqueueBegins(s: Site, o: Order, c: nat, task: Task)
    requires Coupled(s, o) && Allowed(s, Begin(c, Enqueue(task)))
    ensures Coupled(Moved(s, Begin(c, Enqueue(task))), o)
  {
    hide Conserved, ListsAgree, Coupled, Agrees;
    var id := task.taskId;
    ClientIsOk(s, o, c);
    NewIdIsFree(s, o, id);
    RecordWritten(s.db, o.queues, id, task.(status := Pending));
    MoveKeepsCoupled(s, o, Moved(s, Begin(c, Enqueue(task))), o, c, {id});
  }

  lemma AckOrNackBegins(s: Site, o: Order, c: nat, call: Call)
    requires Coupled(s, o) && Allowed(s, Begin(c, call)) && (call.Ack? || call.Nack?)
    ensures Coupled(Moved(s, Begin(c, call)), o)
  {
    hide Conserved, ListsAgree, Coupled, LiveItem;
    var id := call.taskId;
    ClientIsOk(s, o, c);
    assert id in Claim(s.clients[c]);
    HeldIsSettled(s, o, c, id);
    InHandWaitsNowhere(o.queues, o.seen, id);
    MoveKeepsCoupled(s, o, Moved(s, Begin(c, call)), o, c, {id});
  }

  lemma LookBegins(s: Site, o: Order, c: nat, call: Call)
    requires Coupled(s, o) && Allowed(s, Begin(c, call)) && (call.PeekDeadLetter? || call.QueueLength?)
    ensures Coupled(Moved(s, Begin(c, call)), Noted(s, o, Begin(c, call)))
  {
    hide Conserved, ListsAgree, Coupled, Agrees;
    ClientIsOk(s, o, c);
    MoveKeepsCoupled(s, o, Moved(s, Begin(c, call)), Noted(s, o, Begin(c, call)), c, {});
  }

  lemma ListsAt(db: Keys, q: Queues, name: string)
    requires ListsAgree(db, q)
    ensures IdsAt(db, QueueKey(name)) == Waiting(q, name) && TasksAt(db, DeadKey(name)) == Buried(q, name)
  {
    hide WellTyped;
  }

  /** The head of a queue is in nobody's hands and in nobody's operation. */
  lemma HeadIsFree(s: Site, o: Order, name: string, worker: string)
    requires Coupled(s, o) && Waiting(o.queues, name) != []
    ensures
      var id := Waiting(o.queues, name)[0];
      && id in o.queues.items && id in o.seen.enqueued && id !in o.seen.inHand
      && Step(o.queues, Dequeue(name, worker)).1 == Given(Started(o.queues.items[id], worker))
      && o.queues.items[id].taskId == id
      && forall d :: 0 <= d < |s.clients| ==> id !in Claim(s.clients[d])
  {
    hide Conserved, ListsAgree, Agrees;
    DequeueIsSound(o.queues, o.seen, name, worker);
    var id := Waiting(o.queues, name)[0];
    forall d | 0 <= d < |s.clients| ensures id !in Claim(s.clients[d]) {
      ClientIsOk(s, o, d);
    }
  }

  lemma PoppedLists(db: Keys, q: Queues, name: string, id: string, t: Task)
    requires ListsAgree(db, q) && Waiting(q, name) != []
    ensures ListsAgree(Popped(db, name), Shifted(q, name).(items := q.items[id := t]))
    ensures SameRecord(db, Popped(db, name), id) && forall k :: SameRecord(db, Popped(db, name), k)
  {
    PopKeepsLists(db, q, name);
    RecordKeepsLists(Popped(db, name), Shifted(q, name), id, t, q.items[id := t]);
    hide ListsAgree;
  }

  lemma DequeueBegins(s: Site, o: Order, c: nat, name: string, worker: string)
    requires Coupled(s, o) && Allowed(s, Begin(c, Dequeue(name, worker)))
    ensures Coupled(Moved(s, Begin(c, Dequeue(name, worker))), Noted(s, o, Begin(c, Dequeue(name, worker))))
  {
    hide Conserved, ListsAgree, Coupled, WellTyped, LiveItem, Popped;
    var call := Dequeue(name, worker);
    var t, p := Moved(s, Begin(c, call)), Noted(s, o, Begin(c, call));
    ClientIsOk(s, o, c);
    ListsAt(s.db, o.queues, name);
    StepConserves(o.queues, o.seen, call);
    if Waiting(o.queues, name) == [] {
      MoveKeepsCoupled(s, o, t, p, c, {});
    } else {
      var id := Waiting(o.queues, name)[0];
      HeadIsFree(s, o, name, worker);
      HeldIsSettled(s, o, c, id);
      PoppedLists(s.db, o.queues, name, id, Started(o.queues.items[id], worker));
      hide Waiting, IdsAt;
      MoveKeepsCoupled(s, o, t, p, c, {id});
    }
  }

  // Then those that go on with one.

  lemma PushedLists(db: Keys, q: Queues, name: string, id: string, items: map<string, Task>)
    requires ListsAgree(db, q)
    ensures ListsAgree(Pushed(db, name, id), Append(q.(items := items), name, id))
    ensures SameRecord(db, Pushed(db, name, id), id) && forall k :: SameRecord(db, Pushed(db, name, id), k)
  {
    RecordKeepsLists(db, q, id, NO_TASK, items);
    PushKeepsLists(db, q.(items := items), name, id);
    hide ListsAgree;
  }

  const NO_TASK := Task("", "", "", 0, Pending, 0, None, None)

  lemma InterredLists(db: Keys, q: Queues, t: Task, items: map<string, Task>)
    requires ListsAgree(db, q)
    ensures ListsAgree(Interred(db, t), Bury(q.(items := items), t))
    ensures forall k :: SameRecord(db, Interred(db, t), k)
  {
    RecordKeepsLists(db, q, "", NO_TASK, items);
    BuryKeepsLists(db, q.(items := items), t);
    hide ListsAgree;
  }

  lemma EnqueueEnds(s: Site, o: Order, c: nat)
    requires Coupled(s, o) && c < |s.clients| && s.clients[c].phase.Filing?
    ensures Coupled(Moved(s, Proceed(c)), Noted(s, o, Proceed(c)))
  {
    hide Conserved, ListsAgree, Coupled, Pushed;
    var task := s.clients[c].phase.task;
    ClientIsOk(s, o, c);
    StepConserves(o.queues, o.seen, Enqueue(task));
    var id, q := task.taskId, o.queues;
    PushedLists(s.db, q, task.queueName, id, q.items[id := task.(status := Pending)]);
    hide Append;
    MoveKeepsCoupled(s, o, Moved(s, Proceed(c)), Noted(s, o, Proceed(c)), c, {id});
  }

  lemma DequeueGoesOn(s: Site, o: Order, c: nat)
    requires Coupled(s, o) && c < |s.clients| && (s.clients[c].phase.Taken? || s.clients[c].phase.Starting?)
    ensures Coupled(Moved(s, Proceed(c)), o)
  {
    hide Conserved, ListsAgree, Coupled;
    var phase := s.clients[c].phase;
    ClientIsOk(s, o, c);
    if phase.Starting? {
      RecordWritten(s.db, o.queues, phase.id, phase.task);
    }
    MoveKeepsCoupled(s, o, Moved(s, Proceed(c)), o, c, {phase.id});
  }

  lemma AckEnds(s: Site, o: Order, c: nat)
    requires Coupled(s, o) && c < |s.clients| && s.clients[c].phase.Clearing?
    ensures Coupled(Moved(s, Proceed(c)), Noted(s, o, Proceed(c)))
  {
    hide Conserved, ListsAgree, Coupled, LiveItem;
    var id, q := s.clients[c].phase.id, o.queues;
    ClientIsOk(s, o, c);
    InHandWaitsNowhere(q, o.seen, id);
    StepConserves(q, o.seen, Ack(id));
    RecordKeepsLists(s.db, q, id, NO_TASK, q.items - {id});
    hide Waiting;
    MoveKeepsCoupled(s, o, Moved(s, Proceed(c)), Noted(s, o, Proceed(c)), c, {id});
  }

  lemma NackGoesOn(s: Site, o: Order, c: nat)
    requires Coupled(s, o) && c < |s.clients| && s.clients[c].phase.Deciding?
    ensures Coupled(Moved(s, Proceed(c)), o)
  {
    hide Conserved, ListsAgree, Coupled;
    var phase := s.clients[c].phase;
    ClientIsOk(s, o, c);
    RecordWritten(s.db, o.queues, phase.id, phase.task.(status := Pending));
    MoveKeepsCoupled(s, o, Moved(s, Proceed(c)), o, c, {phase.id});
  }

  lemma NackRequeues(s: Site, o: Order, c: nat)
    requires Coupled(s, o) && c < |s.clients| && s.clients[c].phase.Requeueing?
    ensures Coupled(Moved(s, Proceed(c)), Noted(s, o, Proceed(c)))
  {
    hide Conserved, ListsAgree, Coupled, Pushed;
    var phase, q := s.clients[c].phase, o.queues;
    ClientIsOk(s, o, c);
    StepConserves(q, o.seen, Nack(phase.id, phase.error));
    PushedLists(s.db, q, phase.task.queueName, phase.id, q.items[phase.id := phase.task]);
    hide Append;
    MoveKeepsCoupled(s, o, Moved(s, Proceed(c)), Noted(s, o, Proceed(c)), c, {phase.id});
  }

  lemma NackBuries(s: Site, o: Order, c: nat)
    requires Coupled(s, o) && c < |s.clients| && s.clients[c].phase.Burying?
    ensures Coupled(Moved(s, Proceed(c)), Noted(s, o, Proceed(c)))
  {
    hide Conserved, ListsAgree, Coupled, Interred;
    var phase, q := s.clients[c].phase, o.queues;
    ClientIsOk(s, o, c);
    StepConserves(q, o.seen, Nack(phase.id, phase.error));
    InterredLists(s.db, q, phase.task, q.items - {phase.id});
    assert SameRecord(s.db, Interred(s.db, phase.task), phase.id);
    hide Bury;
    MoveKeepsCoupled(s, o, Moved(s, Proceed(c)), Noted(s, o, Proceed(c)), c, {phase.id});
  }

  /** Any command of any client keeps the key space and the sequential order coupled. */
  lemma ActKeepsCoupled(s: Site, o: Order, act: Act)
    requires Coupled(s, o) && Allowed(s, act)
    ensures Coupled(Moved(s, act), Noted(s, o, act))
  {
    hide Coupled, Moved, FirstCommand, NextCommand, Entered;
    match act
    case Begin(c, call) =>
      match call {
        case Enqueue(task) => EnqueueBegins(s, o, c, task);
        case Dequeue(name, worker) => DequeueBegins(s, o, c, name, worker);
        case Ack(_) => AckOrNackBegins(s, o, c, call);
        case Nack(_, _) => AckOrNackBegins(s, o, c, call);
        case _ => LookBegins(s, o, c, call);
      }
    case Proceed(c) =>
      match s.clients[c].phase
      case Filing(_) => EnqueueEnds(s, o, c);
      case Taken(_, _) => DequeueGoesOn(s, o, c);
      case Starting(_, _) => DequeueGoesOn(s, o, c);
      case Clearing(_) => AckEnds(s, o, c);
      case Deciding(_, _, _) => NackGoesOn(s, o, c);
      case Requeueing(_, _, _) => NackRequeues(s, o, c);
      case Burying(_, _, _) => NackBuries(s, o, c);
  }

  // What the clients see of the sequential order.

  function AllCalls(log: seq<Entry>): (r: seq<Call>)
    ensures |r| == |log|
  {
    if log == [] then [] else AllCalls(log[..|log| - 1]) + [log[|log| - 1].call]
  }

  function AllReplies(log: seq<Entry>): (r: seq<Reply>)
    ensures |r| == |log|
  {
    if log == [] then [] else AllReplies(log[..|log| - 1]) + [log[|log| - 1].reply]
  }

  /** The part of the order that is one client's. */
  function Own(log: seq<Entry>, c: nat): seq<Entry> {
    if log == [] then [] else Own(log[..|log| - 1], c) + if log[|log| - 1].client == c then [log[|log| - 1]] else []
  }

  lemma OneMore(log: seq<Entry>, e: Entry, c: nat)
    ensures Own(log + [e], c) == if e.client == c then Own(log, c) + [e] else Own(log, c)
    ensures AllCalls(log + [e]) == AllCalls(log) + [e.call] && AllReplies(log + [e]) == AllReplies(log) + [e.reply]
  {
    assert (log + [e])[..|log + [e]| - 1] == log;
  }

  /** The operation took effect and is not answered yet. */
  function Owed(phase: Phase, q: Queues): seq<Reply> {
    match phase
    case Taken(id, _) => if id in q.items then [Given(q.items[id])] else []
    case Starting(id, t) => [Given(t)]
    case _ => []
  }

  /** The operation has begun and not taken effect yet. */
  function Due(phase: Phase): seq<Call> {
    match phase
    case Filing(t) => [Enqueue(t)]
    case Clearing(id) => [Ack(id)]
    case Deciding(id, _, error) => [Nack(id, error)]
    case Requeueing(id, _, error) => [Nack(id, error)]
    case Burying(id, _, error) => [Nack(id, error)]
    case _ => []
  }

  ghost predicate InStep(s: Site, o: Order, c: nat)
    requires c < |s.clients|
  {
    var me, mine := s.clients[c], Own(o.log, c);
    AllReplies(mine) == me.replies + Owed(me.phase, o.queues) && AllCalls(mine) + Due(me.phase) == me.calls
  }

  /** The one task an operation changes is its client's own, or a queue's head. */
  lemma OthersTasksStay(s: Site, o: Order, act: Act, d: nat, id: string)
    requires Coupled(s, o) && Allowed(s, act) && d < |s.clients| && d != act.client && id in OwnIds(s.clients[d].phase)
    ensures
      var q, r := o.queues, Noted(s, o, act).queues;
      (id in r.items <==> id in q.items) && (id in q.items ==> r.items[id] == q.items[id])
  {
    hide Conserved, ListsAgree, ClientOk, Agrees, Coupled, Observed;
    ClientIsOk(s, o, act.client);
    assert id in Claim(s.clients[d]);
    match act
    case Begin(_, call) =>
      if call.Dequeue? && Waiting(o.queues, call.queueName) != [] {
        HeadIsFree(s, o, call.queueName, call.worker);
      }
    case Proceed(_) => hide Waiting;
  }

  lemma OthersOweTheSame(s: Site, o: Order, act: Act, d: nat)
    requires Coupled(s, o) && Allowed(s, act) && d < |s.clients| && d != act.client
    ensures Owed(s.clients[d].phase, Noted(s, o, act).queues) == Owed(s.clients[d].phase, o.queues)
  {
    hide Coupled, Noted, Allowed;
    if s.clients[d].phase.Taken? {
      OthersTasksStay(s, o, act, d, s.clients[d].phase.id);
    }
  }

  /** What an act adds to the part of the order that is client `d`'s. */
  function Added(s: Site, o: Order, act: Act, d: nat): seq<Entry> {
    var call := Effective(s, act);
    if call.Some? && d == act.client then [Entry(d, call.value, Step(o.queues, call.value).1)] else []
  }

  lemma OwnGrows(s: Site, o: Order, act: Act, d: nat)
    ensures Own(Noted(s, o, act).log, d) == Own(o.log, d) + Added(s, o, act, d)
  {
    hide Effective, Step, Own;
    var call := Effective(s, act);
    if call.Some? {
      OneMore(o.log, Entry(act.client, call.value, Step(o.queues, call.value).1), d);
    }
  }

  lemma AllAppend(log: seq<Entry>, more: seq<Entry>)
    requires |more| <= 1
    ensures AllReplies(log + more) == AllReplies(log) + AllReplies(more) && AllCalls(log + more) == AllCalls(log) + AllCalls(more)
  {
    if more == [] {
      assert log + more == log;
    } else {
      assert more[..0] == [] && log + more == log + [more[0]];
      OneMore(log, more[0], 0);
    }
  }

  lemma HeldHasRecord(s: Site, o: Order, c: nat, id: string)
    requires Coupled(s, o) && c < |s.clients| && s.clients[c].phase.Idle? && id in s.clients[c].hand
    ensures RecordAt(s.db, id).Some?
  {
    hide Conserved, ListsAgree, Coupled, LiveItem;
    ClientIsOk(s, o, c);
    assert id in Claim(s.clients[c]);
    HeldIsSettled(s, o, c, id);
    InHandWaitsNowhere(o.queues, o.seen, id);
  }

  /** The reply of the sequential order is the one the client gets, now or when its operation ends. */
  ghost predicate Answers(s: Site, o: Order, act: Act)
    requires act.client < |s.clients|
  {
    var call := Effective(s, act);
    var me, now := s.clients[act.client], Moved(s, act).clients[act.client];
    var begun := if act.Begin? then [act.call] else [];
    && now.calls == me.calls + begun
    && Due(me.phase) + begun == (if call.Some? then [call.value] else []) + Due(now.phase)
    && me.replies + Owed(me.phase, o.queues) + (if call.Some? then [Step(o.queues, call.value).1] else []) ==
       now.replies + Owed(now.phase, Noted(s, o, act).queues)
  }

  lemma BeginAnswers(s: Site, o: Order, c: nat, call: Call)
    requires Coupled(s, o) && Allowed(s, Begin(c, call))
    ensures Answers(s, o, Begin(c, call))
  {
    hide Coupled, Conserved, ListsAgree, Pushed, Popped, Interred;
    match call
    case Enqueue(_) =>
    case Ack(id) => HeldHasRecord(s, o, c, id);
    case Nack(id, _) => HeldHasRecord(s, o, c, id);
    case Dequeue(name, worker) => DequeueAnswers(s, o, c, name, worker);
    case PeekDeadLetter(name) => ClientIsOk(s, o, c); ListsAt(s.db, o.queues, name);
    case QueueLength(name) => ClientIsOk(s, o, c); ListsAt(s.db, o.queues, name);
  }

  lemma DequeueAnswers(s: Site, o: Order, c: nat, name: string, worker: string)
    requires Coupled(s, o) && Allowed(s, Begin(c, Dequeue(name, worker)))
    ensures Answers(s, o, Begin(c, Dequeue(name, worker)))
  {
    hide Coupled, Conserved, ListsAgree, ClientOk, Popped;
    ClientIsOk(s, o, c);
    ListsAt(s.db, o.queues, name);
    if Waiting(o.queues, name) != [] {
      HeadIsFree(s, o, name, worker);
    }
  }

  lemma ProceedAnswers(s: Site, o: Order, c: nat)
    requires Coupled(s, o) && Allowed(s, Proceed(c))
    ensures Answers(s, o, Proceed(c))
  {
    hide Coupled, Conserved, ListsAgree, Pushed, Popped, Interred, LiveItem;
    ClientIsOk(s, o, c);
    if s.clients[c].phase.Clearing? {
      InHandWaitsNowhere(o.queues, o.seen, s.clients[c].phase.id);
    }
  }

  lemma ActAnswers(s: Site, o: Order, act: Act)
    requires Coupled(s, o) && Allowed(s, act)
    ensures Answers(s, o, act)
  {
    hide Answers, Coupled;
    match act
    case Begin(c, call) => BeginAnswers(s, o, c, call);
    case Proceed(c) => ProceedAnswers(s, o, c);
  }

  lemma Rejoin(mine: seq<Call>, due: seq<Call>, begun: seq<Call>, added: seq<Call>, dueNow: seq<Call>)
    requires due + begun == added + dueNow
    ensures (mine + added) + dueNow == (mine + due) + begun
  {
    assert (mine + added) + dueNow == mine + (added + dueNow);
  }

  lemma OwnStaysInStep(s: Site, o: Order, act: Act)
    requires act.client < |s.clients| && InStep(s, o, act.client) && Answers(s, o, act)
    ensures InStep(Moved(s, act), Noted(s, o, act), act.client)
  {
    hide Owed, Due, Own, Effective, Noted, Step, Moved;
    var c := act.client;
    var mine, added := Own(o.log, c), Added(s, o, act, c);
    OwnGrows(s, o, act, c);
    AllAppend(mine, added);
    assert added != [] ==> added[..0] == [];
    var begun := if act.Begin? then [act.call] else [];
    Rejoin(AllCalls(mine), Due(s.clients[c].phase), begun, AllCalls(added), Due(Moved(s, act).clients[c].phase));
  }

  lemma OthersStayInStep(s: Site, o: Order, act: Act, d: nat)
    requires Coupled(s, o) && Allowed(s, act) && d < |s.clients| && d != act.client && InStep(s, o, d)
    ensures InStep(Moved(s, act), Noted(s, o, act), d)
  {
    hide Coupled, Own, Owed, Due, AllReplies, AllCalls, Effective, FirstCommand, NextCommand, Noted;
    OwnGrows(s, o, act, d);
    assert Own(o.log, d) + [] == Own(o.log, d);
    OthersOweTheSame(s, o, act, d);
  }

  lemma ActKeepsInStep(s: Site, o: Order, act: Act, d: nat)
    requires Coupled(s, o) && Allowed(s, act) && d < |s.clients| && InStep(s, o, d)
    ensures InStep(Moved(s, act), Noted(s, o, act), d)
  {
    hide Coupled, InStep, Answers, Moved, Noted;
    if d == act.client {
      ActAnswers(s, o, act);
      OwnStaysInStep(s, o, act);
    } else {
      OthersStayInStep(s, o, act, d);
    }
  }

  lemma EffectiveIsDisciplined(s: Site, o: Order, act: Act)
    requires Coupled(s, o) && Allowed(s, act) && Effective(s, act).Some?
    ensures Disciplined(o.seen, Effective(s, act).value)
  {
    hide Coupled, Conserved, ListsAgree, Agrees;
    ClientIsOk(s, o, act.client);
  }

  /** The order is a run of the queue machine. */
  ghost predicate Sequential(o: Order) {
    var calls := AllCalls(o.log);
    && Run(EMPTY, NOTHING, calls) == (o.queues, o.seen)
    && DisciplinedRun(EMPTY, NOTHING, calls)
    && Replies(EMPTY, calls) == AllReplies(o.log)
  }

  lemma {:induction false} RunAppends(q: Queues, h: History, calls: seq<Call>, call: Call)
    ensures
      var (r, g) := Run(q, h, calls);
      var (next, reply) := Step(r, call);
      && Run(q, h, calls + [call]) == (next, Observed(g, call, reply))
      && (DisciplinedRun(q, h, calls + [call]) <==> DisciplinedRun(q, h, calls) && Disciplined(g, call))
      && Replies(q, calls + [call]) == Replies(q, calls) + [reply]
    decreases |calls|
  {
    hide Step, Observed, Disciplined;
    if calls == [] {
      assert [call][1..] == [];
    } else {
      var (next, reply) := Step(q, calls[0]);
      assert (calls + [call])[1..] == calls[1..] + [call];
      RunAppends(next, Observed(h, calls[0], reply), calls[1..], call);
    }
  }

  lemma ActKeepsSequential(s: Site, o: Order, act: Act)
    requires Coupled(s, o) && Allowed(s, act) && Sequential(o)
    ensures Sequential(Noted(s, o, act))
  {
    var call := Effective(s, act);
    hide Coupled, Run, Replies, DisciplinedRun, Disciplined, Step, Observed, Effective, AllCalls, AllReplies;
    if call.Some? {
      EffectiveIsDisciplined(s, o, act);
      RunAppends(EMPTY, NOTHING, AllCalls(o.log), call.value);
      OneMore(o.log, Entry(act.client, call.value, Step(o.queues, call.value).1), 0);
    }
  }

  ghost predicate Linked(s: Site, o: Order) {
    Coupled(s, o) && Sequential(o) && forall c :: 0 <= c < |s.clients| ==> InStep(s, o, c)
  }

  lemma StartIsLinked(n: nat)
    ensures Linked(SiteAfter(n, []), OrderAfter(n, []))
  {
    EmptyIsConserved();
    hide Conserved, ListsAgree;
  }

  lemma EmptyIsConserved()
    ensures Conserved(EMPTY, NOTHING) && ListsAgree(map[], EMPTY)
  {
    assert forall name :: Waiting(EMPTY, name) == [] && Buried(EMPTY, name) == [];
  }

  lemma {:induction false} AlwaysLinked(n: nat, acts: seq<Act>)
    requires Orderly(n, acts)
    ensures Linked(SiteAfter(n, acts), OrderAfter(n, acts))
  {
    hide Coupled, Sequential, InStep, Moved, Noted, Allowed;
    if acts == [] {
      StartIsLinked(n);
    } else {
      var earlier, act := acts[..|acts| - 1], acts[|acts| - 1];
      var s, o := SiteAfter(n, earlier), OrderAfter(n, earlier);
      AlwaysLinked(n, earlier);
      ActKeepsCoupled(s, o, act);
      ActKeepsSequential(s, o, act);
      forall d | 0 <= d < n ensures InStep(SiteAfter(n, acts), OrderAfter(n, acts), d) {
        ActKeepsInStep(s, o, act, d);
      }
    }
  }

  /**
   Every interleaving of the commands of any number of disciplined clients is explained by
   one sequential order of their operations: a disciplined run of the queue machine from
   the empty queue in which each client finds its own calls, in its own order, with the
   replies it was given; only the operation it is in the middle of may be missing, or be
   there and not be answered yet.
   */
  lemma Linearizable(n: nat, acts: seq<Act>)
    requires Orderly(n, acts)
    ensures
      var clients, log := SiteAfter(n, acts).clients, OrderAfter(n, acts).log;
      && DisciplinedRun(EMPTY, NOTHING, AllCalls(log))
      && Replies(EMPTY, AllCalls(log)) == AllReplies(log)
      && forall c :: 0 <= c < n ==>
           && clients[c].replies <= AllReplies(Own(log, c))
           && AllCalls(Own(log, c)) <= clients[c].calls
           && |clients[c].calls| <= |clients[c].replies| + 1
  {
    hide Coupled, InStep, Own, AllReplies, AllCalls, SiteAfter, OrderAfter, Run, Replies, DisciplinedRun;
    AlwaysLinked(n, acts);
    var s, o := SiteAfter(n, acts), OrderAfter(n, acts);
    assert Sequential(o);
    forall c | 0 <= c < n
      ensures s.clients[c].replies <= AllReplies(Own(o.log, c)) && AllCalls(Own(o.log, c)) <= s.clients[c].calls
      ensures |s.clients[c].calls| <= |s.clients[c].replies| + 1
    {
      InStepMeans(s, o, c);
    }
  }

  lemma InStepMeans(s: Site, o: Order, c: nat)
    requires c < |s.clients| && InStep(s, o, c)
    ensures
      var me, mine := s.clients[c], Own(o.log, c);
      me.replies <= AllReplies(mine) && AllCalls(mine) <= me.calls && |me.calls| <= |me.replies| + 1
  {
    hide Own, AllReplies, AllCalls;
  }

  lemma {:induction false} OrderlyPrefix(n: nat, acts: seq<Act>, k: nat)
    requires Orderly(n, acts) && k <= |acts|
    ensures Orderly(n, acts[..k]) && OrderAfter(n, acts[..k]).log <= OrderAfter(n, acts).log
  {
    hide SiteAfter, Allowed, Effective, Step;
    if k == |acts| {
      assert acts[..k] == acts;
    } else {
      assert acts[..|acts| - 1][..k] == acts[..k];
      OrderlyPrefix(n, acts[..|acts| - 1], k);
    }
  }

  /**
   The order respects real time. Cut a run anywhere: there is a cut of the order such that
   what was answered by then lies before it, and what begins only later lies after it.
   */
  lemma RealTimeOrder(n: nat, acts: seq<Act>, k: nat) returns (cut: nat)
    requires Orderly(n, acts) && k <= |acts|
    ensures cut <= |OrderAfter(n, acts).log|
    ensures
      var past, early := SiteAfter(n, acts[..k]).clients, OrderAfter(n, acts).log[..cut];
      forall c :: 0 <= c < n ==> |past[c].replies| <= |Own(early, c)| <= |past[c].calls|
  {
    hide SiteAfter, OrderAfter, Own, AllReplies, AllCalls;
    OrderlyPrefix(n, acts, k);
    Linearizable(n, acts[..k]);
    var past, early := SiteAfter(n, acts[..k]).clients, OrderAfter(n, acts[..k]).log;
    cut := |early|;
    assert OrderAfter(n, acts).log[..cut] == early;
    forall c | 0 <= c < n ensures |past[c].replies| <= |Own(early, c)| <= |past[c].calls| {
      assert past[c].replies <= AllReplies(Own(early, c));
    }
  }

  /** No task is ever in the hands of two clients. */
  lemma NeverInTwoHands(n: nat, acts: seq<Act>, c: nat, d: nat)
    requires Orderly(n, acts) && c < n && d < n && c != d
    ensures SiteAfter(n, acts).clients[c].hand !! SiteAfter(n, acts).clients[d].hand
  {
    AlwaysLinked(n, acts);
    var s := SiteAfter(n, acts);
    hide SiteAfter, OrderAfter, InStep, Sequential, Conserved, ListsAgree, ClientOk, Agrees;
    assert Claim(s.clients[c]) !! Claim(s.clients[d]);
  }

  /** When no operation is under way, the key space is the queue that the sequential order leaves. */
  lemma RestIsTheQueue(n: nat, acts: seq<Act>)
    requires Orderly(n, acts) && forall c :: 0 <= c < n ==> SiteAfter(n, acts).clients[c].phase.Idle?
    ensures Represents(SiteAfter(n, acts).db, Run(EMPTY, NOTHING, AllCalls(OrderAfter(n, acts).log)).0)
  {
    AlwaysLinked(n, acts);
    var s, o := SiteAfter(n, acts), OrderAfter(n, acts);
    hide SiteAfter, OrderAfter, InStep, Conserved, ListsAgree, ClientOk, Agrees, Run, Replies, DisciplinedRun;
    assert Sequential(o);
    forall id ensures Agrees(s.db, o.queues, id) {
      assert !Busy(s, id);
    }
  }

  lemma ThreeReplies(x: Call, y: Call, z: Call)
    ensures
      var one := Step(EMPTY, x);
      var two := Step(one.0, y);
      Replies(EMPTY, [x, y, z]) == [one.1, two.1, Step(two.0, z).1]
  {
    hide Step;
    var one := Step(EMPTY, x);
    var two := Step(one.0, y);
    assert [x, y, z][1..] == [y, z] && [y, z][1..] == [z] && [z][1..] == [];
    assert Replies(two.0, [z]) == [Step(two.0, z).1] + Replies(Step(two.0, z).0, []);
    assert Replies(one.0, [y, z]) == [two.1] + Replies(two.0, [z]);
  }

  lemma OneMoreAct(n: nat, acts: seq<Act>, act: Act)
    ensures SiteAfter(n, acts + [act]) == Moved(SiteAfter(n, acts), act)
  {
    assert (acts + [act])[..|acts + [act]| - 1] == acts;
  }

  /** Two clients that ack one task, each after the other has seen its record and before it is deleted. */
  function AckRace(t: Task): seq<Act> {
    [Begin(0, Enqueue(t))] + [Proceed(0)] + [Begin(0, Ack(t.taskId))] + [Begin(1, Ack(t.taskId))] + [Proceed(0)] + [Proceed(1)]
  }

  /**
   The discipline is needed: a client that acks what another one holds can make both be told
   that the task was there, which no sequential order of the three operations does.
   */
  lemma TwoAcksCanBothSucceed(t: Task)
    ensures
      var clients := SiteAfter(2, AckRace(t)).clients;
      clients[0].replies == [Given(t.(status := Pending)), Flag(true)] && clients[1].replies == [Flag(true)]
    ensures
      var e, a, given := Enqueue(t), Ack(t.taskId), Given(t.(status := Pending));
      && Replies(EMPTY, [e, a, a]) == [given, Flag(true), Flag(false)]
      && Replies(EMPTY, [a, e, a]) == [Flag(false), given, Flag(true)]
      && Replies(EMPTY, [a, a, e]) == [Flag(false), Flag(false), given]
  {
    AckRaceEnds(t);
    hide SiteAfter, Replies;
    var e, a := Enqueue(t), Ack(t.taskId);
    ThreeReplies(e, a, a);
    ThreeReplies(a, e, a);
    ThreeReplies(a, a, e);
  }

  lemma AckRaceEnds(t: Task)
    ensures
      var clients := SiteAfter(2, AckRace(t)).clients;
      clients[0].replies == [Given(t.(status := Pending)), Flag(true)] && clients[1].replies == [Flag(true)]
  {
    var id, given := t.taskId, Given(t.(status := Pending));
    var a1 := [Begin(0, Enqueue(t))];
    assert a1 == [] + [Begin(0, Enqueue(t))];
    OneMoreAct(2, [], Begin(0, Enqueue(t)));
    OneMoreAct(2, a1, Proceed(0));
    OneMoreAct(2, a1 + [Proceed(0)], Begin(0, Ack(id)));
    OneMoreAct(2, a1 + [Proceed(0)] + [Begin(0, Ack(id))], Begin(1, Ack(id)));
    OneMoreAct(2, a1 + [Proceed(0)] + [Begin(0, Ack(id))] + [Begin(1, Ack(id))], Proceed(0));
    OneMoreAct(2, a1 + [Proceed(0)] + [Begin(0, Ack(id))] + [Begin(1, Ack(id))] + [Proceed(0)], Proceed(1));
    var s2 := SiteAfter(2, a1 + [Proceed(0)]);
    assert ItemKey(id) in s2.db && s2.clients[1].phase == Idle && s2.clients[0].replies == [given] && s2.clients[1].replies == [];
    hide SiteAfter;
  }
}

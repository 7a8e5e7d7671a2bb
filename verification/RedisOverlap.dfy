/**
 * Clients of one Redis server without any discipline: they may enqueue a task again, ack or
 * nack what others hold, and close the server when nobody is in the middle of something.
 * As long as no two operations on one task overlap, every interleaving of their commands
 * still gives the replies of some sequential order of the operations.
 */
module RedisOverlap {
  import opened Wrappers
  import opened TaskQueue
  import opened RedisQueue
  import opened QueueRefinement
  import opened RedisClients

  /** The task an operation would work on, if it began now. */
  function Target(db: Keys, call: Call): set<string> {
    match call
    case Enqueue(t) => {t.taskId}
    case Dequeue(name, _) => if IdsAt(db, QueueKey(name)) == [] then {} else {IdsAt(db, QueueKey(name))[0]}
    case Ack(id) => {id}
    case Nack(id, _) => {id}
    case _ => {}
  }

  /** An operation begins only when no other on its task is under way, and `close` only when none is at all. */
  predicate Clear(s: Site, act: Act) {
    act.client < |s.clients| &&
    match act
    case Proceed(c) => !s.clients[c].phase.Idle?
    case Begin(c, call) =>
      && s.clients[c].phase.Idle?
      && (forall d :: 0 <= d < |s.clients| ==> OwnIds(s.clients[d].phase) !! Target(s.db, call))
      && (call.Close? ==> forall d :: 0 <= d < |s.clients| ==> s.clients[d].phase.Idle?)
  }

  predicate NoOverlap(n: nat, acts: seq<Act>) {
    acts == [] || (NoOverlap(n, acts[..|acts| - 1]) && Clear(SiteAfter(n, acts[..|acts| - 1]), acts[|acts| - 1]))
  }

  /** The operations in the order in which they take effect, on a key space of their own. */
  datatype Story = Story(db: Keys, log: seq<RedisClients.Entry>)

  /** An operation takes effect with the command that answers it, but a dequeue with its first one. */
  function TakesEffect(s: Site, act: Act): Option<Call> {
    match act
    case Begin(_, call) => if call.Dequeue? || FirstCommand(s.db, call).phase.Idle? then Some(call) else None
    case Proceed(_) => Effective(s, act)
  }

  function Told(o: Story, c: nat, call: Call): Story {
    var (next, reply) := RedisStep(o.db, call);
    Story(next, o.log + [Entry(c, call, reply)])
  }

  function Followed(s: Site, o: Story, act: Act): Story {
    var call := TakesEffect(s, act);
    if call.None? then o else Told(o, act.client, call.value)
  }

  function StoryAfter(n: nat, acts: seq<Act>): Story {
    if acts == [] then Story(map[], [])
    else
      var earlier := acts[..|acts| - 1];
      Followed(SiteAfter(n, earlier), StoryAfter(n, earlier), acts[|acts| - 1])
  }

  // The invariant.

  ghost predicate SameLists(a: Keys, b: Keys) {
    && (forall name {:trigger QueueKey(name)} :: IdsAt(a, QueueKey(name)) == IdsAt(b, QueueKey(name)))
    && (forall name {:trigger DeadKey(name)} :: TasksAt(a, DeadKey(name)) == TasksAt(b, DeadKey(name)))
  }

  /** How the record in the middle of an operation differs from the one in the story. */
  ghost predicate Fits(db: Keys, told: Keys, phase: Phase) {
    match phase
    case Idle => true
    case Filing(t) => RecordAt(db, t.taskId) == Some(t.(status := Pending))
    case Taken(id, worker) =>
      var raw := RecordAt(db, id);
      RecordAt(told, id) == if raw.Some? then Some(Started(raw.value, worker)) else None
    case Starting(id, t) => RecordAt(told, id) == Some(t)
    case Clearing(id) => RecordAt(db, id).Some? && RecordAt(told, id) == RecordAt(db, id)
    case Deciding(id, t, error) =>
      var raw := RecordAt(db, id);
      raw.Some? && RecordAt(told, id) == raw && t == raw.value.(lastError := Some(error))
    case Requeueing(id, t, error) =>
      var raw := RecordAt(told, id);
      && raw.Some? && !Exhausted(raw.value) && t == raw.value.(lastError := Some(error), status := Pending)
      && RecordAt(db, id) == Some(t)
    case Burying(id, t, error) =>
      var raw := RecordAt(told, id);
      && raw.Some? && Exhausted(raw.value) && t == raw.value.(lastError := Some(error), status := Dead)
      && RecordAt(db, id) == None
  }

  ghost predicate Separate(s: Site) {
    forall c, d :: 0 <= c < |s.clients| && 0 <= d < |s.clients| && c != d ==>
      OwnIds(s.clients[c].phase) !! OwnIds(s.clients[d].phase)
  }

  ghost predicate Matches(s: Site, o: Story) {
    && WellTyped(s.db) && WellTyped(o.db) && SameLists(s.db, o.db)
    && Separate(s)
    && (forall c :: 0 <= c < |s.clients| ==> Fits(s.db, o.db, s.clients[c].phase))
    && (forall id {:trigger RecordAt(s.db, id)} :: RecordAt(s.db, id) == RecordAt(o.db, id) || Busy(s, id))
  }

  /** Client `c` moves, and only the tasks `x`, which are in no other client's operation, are touched. */
  ghost predicate OnlyTouches(s: Site, o: Story, t: Site, p: Story, c: nat, x: set<string>) {
    && c < |s.clients| == |t.clients|
    && (forall d :: 0 <= d < |s.clients| && d != c ==> t.clients[d] == s.clients[d] && OwnIds(s.clients[d].phase) !! x)
    && (forall id :: id !in x ==> RecordAt(t.db, id) == RecordAt(s.db, id) && RecordAt(p.db, id) == RecordAt(o.db, id))
    && OwnIds(s.clients[c].phase) <= x && OwnIds(t.clients[c].phase) <= x
  }

  lemma OthersStillFit(s: Site, o: Story, t: Site, p: Story, c: nat, x: set<string>, d: nat)
    requires OnlyTouches(s, o, t, p, c, x) && d < |s.clients| && d != c && Fits(s.db, o.db, s.clients[d].phase)
    ensures Fits(t.db, p.db, t.clients[d].phase)
  {
    hide RecordAt;
    assert forall id :: id in OwnIds(s.clients[d].phase) ==> id !in x;
  }

  lemma OthersStillAgree(s: Site, o: Story, t: Site, p: Story, c: nat, x: set<string>, id: string)
    requires OnlyTouches(s, o, t, p, c, x) && id !in x && (RecordAt(s.db, id) == RecordAt(o.db, id) || Busy(s, id))
    ensures RecordAt(t.db, id) == RecordAt(p.db, id) || Busy(t, id)
  {
    hide RecordAt;
    if Busy(s, id) {
      var d :| 0 <= d < |s.clients| && id in OwnIds(s.clients[d].phase);
      assert t.clients[d] == s.clients[d];
    }
  }

  lemma MoveKeepsMatch(s: Site, o: Story, t: Site, p: Story, c: nat, x: set<string>)
    requires Matches(s, o) && OnlyTouches(s, o, t, p, c, x)
    requires WellTyped(t.db) && WellTyped(p.db) && SameLists(t.db, p.db) && Fits(t.db, p.db, t.clients[c].phase)
    requires forall id :: id in x ==> RecordAt(t.db, id) == RecordAt(p.db, id) || id in OwnIds(t.clients[c].phase)
    ensures Matches(t, p)
  {
    hide WellTyped, SameLists, Fits, RecordAt;
    forall d | 0 <= d < |t.clients| ensures Fits(t.db, p.db, t.clients[d].phase) {
      if d != c {
        OthersStillFit(s, o, t, p, c, x, d);
      }
    }
    forall id ensures RecordAt(t.db, id) == RecordAt(p.db, id) || Busy(t, id) {
      assert RecordAt(s.db, id) == RecordAt(o.db, id) || Busy(s, id);
      if id !in x {
        OthersStillAgree(s, o, t, p, c, x, id);
      }
    }
  }

  // What the commands do to two key spaces with the same lists.

  lemma WrittenRecords(db: Keys, id: string, t: Task)
    ensures forall k :: RecordAt(db[ItemKey(id) := Record(t)], k) == if k == id then Some(t) else RecordAt(db, k)
    ensures forall k :: RecordAt(db - {ItemKey(id)}, k) == if k == id then None else RecordAt(db, k)
  {
    var written, deleted := db[ItemKey(id) := Record(t)], db - {ItemKey(id)};
    forall k
      ensures RecordAt(written, k) == if k == id then Some(t) else RecordAt(db, k)
      ensures RecordAt(deleted, k) == if k == id then None else RecordAt(db, k)
    {
      assert ItemKey(k) == ItemKey(id) ==> k == id;
    }
  }

  lemma WrittenLists(db: Keys, id: string, t: Task)
    ensures SameLists(db, db[ItemKey(id) := Record(t)]) && SameLists(db, db - {ItemKey(id)})
  {
  }

  lemma WrittenTypes(db: Keys, id: string, t: Task)
    requires WellTyped(db)
    ensures WellTyped(db[ItemKey(id) := Record(t)]) && WellTyped(db - {ItemKey(id)})
  {
  }

  lemma WriteAndDelete(db: Keys, id: string, t: Task)
    requires WellTyped(db)
    ensures
      var written, deleted := db[ItemKey(id) := Record(t)], db - {ItemKey(id)};
      && WellTyped(written) && WellTyped(deleted) && SameLists(db, written) && SameLists(db, deleted)
      && (forall k :: RecordAt(written, k) == if k == id then Some(t) else RecordAt(db, k))
      && (forall k :: RecordAt(deleted, k) == if k == id then None else RecordAt(db, k))
  {
    hide WellTyped, SameLists, RecordAt;
    WrittenRecords(db, id, t);
    WrittenLists(db, id, t);
    WrittenTypes(db, id, t);
  }

  lemma ListCommandsKeepRecords(db: Keys, name: string, id: string, t: Task)
    ensures forall k :: RecordAt(Pushed(db, name, id), k) == RecordAt(db, k)
    ensures forall k :: RecordAt(Popped(db, name), k) == RecordAt(db, k)
    ensures forall k :: RecordAt(Interred(db, t), k) == RecordAt(db, k)
  {
  }

  lemma ListCommandsKeepTypes(db: Keys, name: string, id: string, t: Task)
    requires WellTyped(db)
    ensures WellTyped(Pushed(db, name, id)) && WellTyped(Popped(db, name)) && WellTyped(Interred(db, t))
  {
    hide IdsAt, TasksAt;
  }

  lemma ListsChain(a: Keys, b: Keys, c: Keys, d: Keys)
    requires SameLists(a, b) && SameLists(a, c) && SameLists(b, d)
    ensures SameLists(c, d)
  {
    forall name ensures IdsAt(c, QueueKey(name)) == IdsAt(d, QueueKey(name)) {
      assert IdsAt(a, QueueKey(name)) == IdsAt(b, QueueKey(name));
    }
    forall name ensures TasksAt(c, DeadKey(name)) == TasksAt(d, DeadKey(name)) {
      assert TasksAt(a, DeadKey(name)) == TasksAt(b, DeadKey(name));
    }
  }

  lemma PushBoth(a: Keys, b: Keys, name: string, id: string)
    requires SameLists(a, b)
    ensures SameLists(Pushed(a, name, id), Pushed(b, name, id))
  {
    var c, d := Pushed(a, name, id), Pushed(b, name, id);
    assert IdsAt(a, QueueKey(name)) == IdsAt(b, QueueKey(name));
    forall other ensures IdsAt(c, QueueKey(other)) == IdsAt(d, QueueKey(other)) {
      assert IdsAt(a, QueueKey(other)) == IdsAt(b, QueueKey(other));
    }
    forall other ensures TasksAt(c, DeadKey(other)) == TasksAt(d, DeadKey(other)) {
      assert TasksAt(a, DeadKey(other)) == TasksAt(b, DeadKey(other));
    }
  }

  lemma PopBoth(a: Keys, b: Keys, name: string)
    requires SameLists(a, b)
    ensures SameLists(Popped(a, name), Popped(b, name))
  {
    var c, d := Popped(a, name), Popped(b, name);
    assert IdsAt(a, QueueKey(name)) == IdsAt(b, QueueKey(name));
    forall other ensures IdsAt(c, QueueKey(other)) == IdsAt(d, QueueKey(other)) {
      assert IdsAt(a, QueueKey(other)) == IdsAt(b, QueueKey(other));
      assert QueueKey(other) == QueueKey(name) ==> other == name;
    }
    forall other ensures TasksAt(c, DeadKey(other)) == TasksAt(d, DeadKey(other)) {
      assert TasksAt(a, DeadKey(other)) == TasksAt(b, DeadKey(other));
    }
  }

  lemma BuryBoth(a: Keys, b: Keys, t: Task)
    requires SameLists(a, b)
    ensures SameLists(Interred(a, t), Interred(b, t))
  {
    var c, d := Interred(a, t), Interred(b, t);
    assert TasksAt(a, DeadKey(t.queueName)) == TasksAt(b, DeadKey(t.queueName));
    forall other ensures IdsAt(c, QueueKey(other)) == IdsAt(d, QueueKey(other)) {
      assert IdsAt(a, QueueKey(other)) == IdsAt(b, QueueKey(other));
    }
    forall other ensures TasksAt(c, DeadKey(other)) == TasksAt(d, DeadKey(other)) {
      assert TasksAt(a, DeadKey(other)) == TasksAt(b, DeadKey(other));
    }
  }

  lemma MatchParts(s: Site, o: Story, c: nat)
    requires Matches(s, o) && c < |s.clients|
    ensures WellTyped(s.db) && WellTyped(o.db) && SameLists(s.db, o.db) && Fits(s.db, o.db, s.clients[c].phase)
    ensures forall d :: 0 <= d < |s.clients| && d != c ==> OwnIds(s.clients[d].phase) !! OwnIds(s.clients[c].phase)
  {
    hide WellTyped, SameLists, Fits, RecordAt;
  }

  /** A task in nobody's operation has the record the story says. */
  lemma IdleTaskAgrees(s: Site, o: Story, id: string)
    requires Matches(s, o) && forall d :: 0 <= d < |s.clients| ==> id !in OwnIds(s.clients[d].phase)
    ensures RecordAt(s.db, id) == RecordAt(o.db, id)
  {
    hide WellTyped, SameLists, Fits, RecordAt;
    assert !Busy(s, id);
  }

  lemma KeyMeansRecord(db: Keys, id: string)
    requires WellTyped(db)
    ensures ItemKey(id) in db <==> RecordAt(db, id).Some?
    ensures RecordAt(db, id).None? ==> db - {ItemKey(id)} == db
  {
  }

  // One lemma per command.

  lemma EnqueueOpens(s: Site, o: Story, c: nat, task: Task)
    requires Matches(s, o) && Clear(s, Begin(c, Enqueue(task)))
    ensures Matches(Moved(s, Begin(c, Enqueue(task))), Followed(s, o, Begin(c, Enqueue(task))))
  {
    hide Matches, WellTyped, SameLists, RecordAt;
    MatchParts(s, o, c);
    WriteAndDelete(s.db, task.taskId, task.(status := Pending));
    WriteAndDelete(o.db, task.taskId, task);
    var t := Moved(s, Begin(c, Enqueue(task)));
    Reflexive(o.db);
    ListsChain(s.db, o.db, t.db, o.db);
    MoveKeepsMatch(s, o, t, o, c, {task.taskId});
  }

  lemma Reflexive(db: Keys)
    ensures SameLists(db, db)
  {
  }

  lemma AckOrNackOpens(s: Site, o: Story, c: nat, call: Call)
    requires Matches(s, o) && Clear(s, Begin(c, call)) && (call.Ack? || call.Nack?)
    ensures Matches(Moved(s, Begin(c, call)), Followed(s, o, Begin(c, call)))
  {
    hide Matches, WellTyped, SameLists, RecordAt;
    var id := call.taskId;
    MatchParts(s, o, c);
    IdleTaskAgrees(s, o, id);
    KeyMeansRecord(s.db, id);
    KeyMeansRecord(o.db, id);
    NackFinds(o.db, id);
    MoveKeepsMatch(s, o, Moved(s, Begin(c, call)), Followed(s, o, Begin(c, call)), c, {id});
  }

  lemma NackFinds(db: Keys, id: string)
    ensures forall error ::
      var raw := RecordAt(db, id);
      RedisNacked(db, id, error) ==
        if raw.None? then (db, false)
        else
          var t := raw.value.(lastError := Some(error));
          if Exhausted(t) then (Interred(db - {ItemKey(id)}, t.(status := Dead)), true)
          else (Pushed(db[ItemKey(id) := Record(t.(status := Pending))], t.queueName, id), true)
  {
    hide Interred, Pushed;
  }

  lemma LookOpens(s: Site, o: Story, c: nat, call: Call)
    requires Matches(s, o) && Clear(s, Begin(c, call)) && (call.PeekDeadLetter? || call.QueueLength?)
    ensures Matches(Moved(s, Begin(c, call)), Followed(s, o, Begin(c, call)))
  {
    hide Matches, WellTyped, SameLists, RecordAt;
    MatchParts(s, o, c);
    MoveKeepsMatch(s, o, Moved(s, Begin(c, call)), Followed(s, o, Begin(c, call)), c, {});
  }

  lemma CloseOpens(s: Site, o: Story, c: nat)
    requires Matches(s, o) && Clear(s, Begin(c, Close))
    ensures Matches(Moved(s, Begin(c, Close)), Followed(s, o, Begin(c, Close)))
  {
    var t := Moved(s, Begin(c, Close));
    hide Matches;
    forall d | 0 <= d < |t.clients| ensures t.clients[d].phase.Idle? {
      assert d != c ==> t.clients[d] == s.clients[d];
    }
    AllIdleMatch(t, Followed(s, o, Begin(c, Close)));
  }

  lemma AllIdleMatch(t: Site, p: Story)
    requires t.db == map[] == p.db && forall d :: 0 <= d < |t.clients| ==> t.clients[d].phase.Idle?
    ensures Matches(t, p)
  {
  }

  lemma DequeueFinds(db: Keys, name: string, worker: string)
    requires WellTyped(db)
    ensures
      var ids, raw := IdsAt(db, QueueKey(name)), RedisDequeued(db, name, worker);
      if ids == [] then raw == (db, None)
      else
        match RecordAt(db, ids[0])
        case None => raw == (Popped(db, name), None)
        case Some(t) => raw == (Popped(db, name)[ItemKey(ids[0]) := Record(Started(t, worker))], Some(Started(t, worker)))
  {
    hide WellTyped, IdsAt;
    ListCommandsKeepRecords(db, name, "", NO_TASK);
    if IdsAt(db, QueueKey(name)) != [] {
      var id := IdsAt(db, QueueKey(name))[0];
      assert RecordAt(Popped(db, name), id) == RecordAt(db, id);
      hide Popped;
    }
  }

  lemma HeadsAgree(s: Site, o: Story, name: string)
    requires SameLists(s.db, o.db)
    ensures IdsAt(s.db, QueueKey(name)) == IdsAt(o.db, QueueKey(name))
  {
  }

  lemma DequeueOpens(s: Site, o: Story, c: nat, name: string, worker: string)
    requires Matches(s, o) && Clear(s, Begin(c, Dequeue(name, worker)))
    ensures Matches(Moved(s, Begin(c, Dequeue(name, worker))), Followed(s, o, Begin(c, Dequeue(name, worker))))
  {
    hide Matches, WellTyped, SameLists, RecordAt, IdsAt, Popped, RedisDequeued;
    var act := Begin(c, Dequeue(name, worker));
    var t, p := Moved(s, act), Followed(s, o, act);
    MatchParts(s, o, c);
    HeadsAgree(s, o, name);
    DequeueFinds(o.db, name, worker);
    var ids := IdsAt(s.db, QueueKey(name));
    if ids == [] {
      MoveKeepsMatch(s, o, t, p, c, {});
    } else {
      var id := ids[0];
      IdleTaskAgrees(s, o, id);
      PopBoth(s.db, o.db, name);
      ListCommandsKeepTypes(s.db, name, "", NO_TASK);
      ListCommandsKeepTypes(o.db, name, "", NO_TASK);
      ListCommandsKeepRecords(s.db, name, "", NO_TASK);
      ListCommandsKeepRecords(o.db, name, "", NO_TASK);
      if RecordAt(o.db, id).Some? {
        WriteAndDelete(Popped(o.db, name), id, Started(RecordAt(o.db, id).value, worker));
        Reflexive(Popped(s.db, name));
        ListsChain(Popped(s.db, name), Popped(o.db, name), Popped(s.db, name), p.db);
      }
      MoveKeepsMatch(s, o, t, p, c, {id});
    }
  }

  lemma EnqueueCloses(s: Site, o: Story, c: nat)
    requires Matches(s, o) && c < |s.clients| && s.clients[c].phase.Filing?
    ensures Matches(Moved(s, Proceed(c)), Followed(s, o, Proceed(c)))
  {
    hide Matches, WellTyped, SameLists, RecordAt, Pushed;
    MatchParts(s, o, c);
    var t := s.clients[c].phase.task;
    var name, id, filed := t.queueName, t.taskId, t.(status := Pending);
    WriteAndDelete(o.db, id, filed);
    Reflexive(s.db);
    ListsChain(s.db, o.db, s.db, o.db[ItemKey(id) := Record(filed)]);
    PushBoth(s.db, o.db[ItemKey(id) := Record(filed)], name, id);
    PushedTypes(s.db, o.db[ItemKey(id) := Record(filed)], name, id);
    MoveKeepsMatch(s, o, Moved(s, Proceed(c)), Followed(s, o, Proceed(c)), c, {id});
  }

  lemma PushedTypes(a: Keys, b: Keys, name: string, id: string)
    requires WellTyped(a) && WellTyped(b)
    ensures WellTyped(Pushed(a, name, id)) && WellTyped(Pushed(b, name, id))
    ensures forall k :: RecordAt(Pushed(a, name, id), k) == RecordAt(a, k)
    ensures forall k :: RecordAt(Pushed(b, name, id), k) == RecordAt(b, k)
  {
    hide WellTyped, RecordAt;
    ListCommandsKeepTypes(a, name, id, NO_TASK);
    ListCommandsKeepTypes(b, name, id, NO_TASK);
    ListCommandsKeepRecords(a, name, id, NO_TASK);
    ListCommandsKeepRecords(b, name, id, NO_TASK);
  }

  lemma DequeueProceeds(s: Site, o: Story, c: nat)
    requires Matches(s, o) && c < |s.clients| && (s.clients[c].phase.Taken? || s.clients[c].phase.Starting?)
    ensures Matches(Moved(s, Proceed(c)), o)
  {
    hide Matches, WellTyped, SameLists, RecordAt;
    MatchParts(s, o, c);
    var phase, t := s.clients[c].phase, Moved(s, Proceed(c));
    if phase.Starting? {
      WriteAndDelete(s.db, phase.id, phase.task);
      Reflexive(o.db);
      ListsChain(s.db, o.db, t.db, o.db);
    }
    MoveKeepsMatch(s, o, t, o, c, {phase.id});
  }

  lemma AckCloses(s: Site, o: Story, c: nat)
    requires Matches(s, o) && c < |s.clients| && s.clients[c].phase.Clearing?
    ensures Matches(Moved(s, Proceed(c)), Followed(s, o, Proceed(c)))
  {
    hide Matches, WellTyped, SameLists, RecordAt;
    MatchParts(s, o, c);
    var id, t, p := s.clients[c].phase.id, Moved(s, Proceed(c)), Followed(s, o, Proceed(c));
    WriteAndDelete(s.db, id, NO_TASK);
    WriteAndDelete(o.db, id, NO_TASK);
    ListsChain(s.db, o.db, t.db, p.db);
    MoveKeepsMatch(s, o, t, p, c, {id});
  }

  lemma NackProceeds(s: Site, o: Story, c: nat)
    requires Matches(s, o) && c < |s.clients| && s.clients[c].phase.Deciding?
    ensures Matches(Moved(s, Proceed(c)), o)
  {
    hide Matches, WellTyped, SameLists, RecordAt;
    MatchParts(s, o, c);
    var phase, t := s.clients[c].phase, Moved(s, Proceed(c));
    WriteAndDelete(s.db, phase.id, phase.task.(status := Pending));
    Reflexive(o.db);
    ListsChain(s.db, o.db, t.db, o.db);
    MoveKeepsMatch(s, o, t, o, c, {phase.id});
  }

  lemma NackRequeues(s: Site, o: Story, c: nat)
    requires Matches(s, o) && c < |s.clients| && s.clients[c].phase.Requeueing?
    ensures Matches(Moved(s, Proceed(c)), Followed(s, o, Proceed(c)))
  {
    hide Matches, WellTyped, SameLists, RecordAt, Pushed, RedisNacked;
    MatchParts(s, o, c);
    var phase := s.clients[c].phase;
    var id, task := phase.id, phase.task;
    var written := o.db[ItemKey(id) := Record(task)];
    NackFinds(o.db, id);
    WriteAndDelete(o.db, id, task);
    Reflexive(s.db);
    ListsChain(s.db, o.db, s.db, written);
    PushBoth(s.db, written, task.queueName, id);
    PushedTypes(s.db, written, task.queueName, id);
    MoveKeepsMatch(s, o, Moved(s, Proceed(c)), Followed(s, o, Proceed(c)), c, {id});
  }

  lemma NackBuries(s: Site, o: Story, c: nat)
    requires Matches(s, o) && c < |s.clients| && s.clients[c].phase.Burying?
    ensures Matches(Moved(s, Proceed(c)), Followed(s, o, Proceed(c)))
  {
    hide Matches, WellTyped, SameLists, RecordAt, Interred, RedisNacked;
    MatchParts(s, o, c);
    var phase := s.clients[c].phase;
    var id, task, deleted := phase.id, phase.task, o.db - {ItemKey(phase.id)};
    NackFinds(o.db, id);
    WriteAndDelete(o.db, id, task);
    Reflexive(s.db);
    ListsChain(s.db, o.db, s.db, deleted);
    BuryBoth(s.db, deleted, task);
    ListCommandsKeepTypes(s.db, "", "", task);
    ListCommandsKeepTypes(deleted, "", "", task);
    ListCommandsKeepRecords(s.db, "", "", task);
    ListCommandsKeepRecords(deleted, "", "", task);
    MoveKeepsMatch(s, o, Moved(s, Proceed(c)), Followed(s, o, Proceed(c)), c, {id});
  }

  lemma ActKeepsMatch(s: Site, o: Story, act: Act)
    requires Matches(s, o) && Clear(s, act)
    ensures Matches(Moved(s, act), Followed(s, o, act))
  {
    hide Matches, Moved, FirstCommand, NextCommand, Told;
    match act
    case Begin(c, call) =>
      match call {
        case Enqueue(task) => EnqueueOpens(s, o, c, task);
        case Dequeue(name, worker) => DequeueOpens(s, o, c, name, worker);
        case Ack(_) => AckOrNackOpens(s, o, c, call);
        case Nack(_, _) => AckOrNackOpens(s, o, c, call);
        case Close => CloseOpens(s, o, c);
        case _ => LookOpens(s, o, c, call);
      }
    case Proceed(c) =>
      match s.clients[c].phase
      case Filing(_) => EnqueueCloses(s, o, c);
      case Taken(_, _) => DequeueProceeds(s, o, c);
      case Starting(_, _) => DequeueProceeds(s, o, c);
      case Clearing(_) => AckCloses(s, o, c);
      case Deciding(_, _, _) => NackProceeds(s, o, c);
      case Requeueing(_, _, _) => NackRequeues(s, o, c);
      case Burying(_, _, _) => NackBuries(s, o, c);
  }

  // What the clients see of the story.

  /** The operation took effect and is not answered yet. */
  function Promised(phase: Phase, told: Keys): seq<Reply> {
    match phase
    case Taken(id, _) => [if RecordAt(told, id).Some? then Given(RecordAt(told, id).value) else NoTask]
    case Starting(_, t) => [Given(t)]
    case _ => []
  }

  ghost predicate Tells(s: Site, o: Story, c: nat)
    requires c < |s.clients|
  {
    var me, mine := s.clients[c], Own(o.log, c);
    AllReplies(mine) == me.replies + Promised(me.phase, o.db) && AllCalls(mine) + Due(me.phase) == me.calls
  }

  /** The reply the story gives an operation is the one its client gets, now or when the operation ends. */
  ghost predicate Replied(s: Site, o: Story, act: Act)
    requires act.client < |s.clients|
  {
    var call := TakesEffect(s, act);
    var me, now := s.clients[act.client], Moved(s, act).clients[act.client];
    var begun := if act.Begin? then [act.call] else [];
    && now.calls == me.calls + begun
    && Due(me.phase) + begun == (if call.Some? then [call.value] else []) + Due(now.phase)
    && me.replies + Promised(me.phase, o.db) + (if call.Some? then [RedisStep(o.db, call.value).1] else []) ==
       now.replies + Promised(now.phase, Followed(s, o, act).db)
  }

  lemma BeginReplied(s: Site, o: Story, c: nat, call: Call)
    requires Matches(s, o) && Clear(s, Begin(c, call))
    ensures Replied(s, o, Begin(c, call))
  {
    match call
    case Dequeue(name, worker) => DequeueReplied(s, o, c, name, worker);
    case Ack(_) => AckOrNackReplied(s, o, c, call);
    case Nack(_, _) => AckOrNackReplied(s, o, c, call);
    case _ =>
      hide Matches, WellTyped, RecordAt;
      MatchParts(s, o, c);
  }

  lemma AckOrNackReplied(s: Site, o: Story, c: nat, call: Call)
    requires Matches(s, o) && Clear(s, Begin(c, call)) && (call.Ack? || call.Nack?)
    ensures Replied(s, o, Begin(c, call))
  {
    hide Matches, WellTyped, SameLists, RecordAt, RedisNacked;
    MatchParts(s, o, c);
    IdleTaskAgrees(s, o, call.taskId);
    KeyMeansRecord(s.db, call.taskId);
    KeyMeansRecord(o.db, call.taskId);
    NackFinds(o.db, call.taskId);
  }

  lemma DequeueReplied(s: Site, o: Story, c: nat, name: string, worker: string)
    requires Matches(s, o) && Clear(s, Begin(c, Dequeue(name, worker)))
    ensures Replied(s, o, Begin(c, Dequeue(name, worker)))
  {
    hide Matches, WellTyped, SameLists, RecordAt, IdsAt, Popped, RedisDequeued;
    MatchParts(s, o, c);
    HeadsAgree(s, o, name);
    DequeueFinds(o.db, name, worker);
    var ids := IdsAt(s.db, QueueKey(name));
    if ids != [] {
      ListCommandsKeepRecords(o.db, name, "", NO_TASK);
      if RecordAt(o.db, ids[0]).Some? {
        WrittenRecords(Popped(o.db, name), ids[0], Started(RecordAt(o.db, ids[0]).value, worker));
      }
    }
  }

  lemma ProceedReplied(s: Site, o: Story, c: nat)
    requires Matches(s, o) && Clear(s, Proceed(c))
    ensures Replied(s, o, Proceed(c))
  {
    hide Matches, WellTyped, SameLists, RecordAt, Pushed, Interred, RedisNacked;
    MatchParts(s, o, c);
    match s.clients[c].phase
    case Clearing(id) => KeyMeansRecord(o.db, id);
    case Requeueing(id, _, _) => NackFinds(o.db, id);
    case Burying(id, _, _) => NackFinds(o.db, id);
    case _ =>
  }

  /** In the story, too, an operation changes the record of its own task only. */
  lemma StepTouchesOne(db: Keys, call: Call, x: set<string>, id: string)
    requires WellTyped(db) && !call.Close? && id !in x && Target(db, call) <= x
    ensures RecordAt(RedisStep(db, call).0, id) == RecordAt(db, id)
  {
    hide WellTyped, IdsAt, RecordAt, Pushed, Popped, Interred, RedisDequeued, RedisNacked;
    match call
    case Enqueue(t) => EnqueueTouches(db, t, id);
    case Dequeue(name, worker) => DequeueTouches(db, name, worker, id);
    case Ack(k) => WrittenRecords(db, k, NO_TASK);
    case Nack(k, error) => NackTouches(db, k, error, id);
    case _ =>
  }

  lemma EnqueueTouches(db: Keys, t: Task, id: string)
    requires id != t.taskId
    ensures RecordAt(RedisEnqueued(db, t), id) == RecordAt(db, id)
  {
    hide RecordAt, Pushed;
    WrittenRecords(db, t.taskId, t.(status := Pending));
    ListCommandsKeepRecords(db[ItemKey(t.taskId) := Record(t.(status := Pending))], t.queueName, t.taskId, t);
  }

  lemma DequeueTouches(db: Keys, name: string, worker: string, id: string)
    requires WellTyped(db) && (IdsAt(db, QueueKey(name)) != [] ==> id != IdsAt(db, QueueKey(name))[0])
    ensures RecordAt(RedisDequeued(db, name, worker).0, id) == RecordAt(db, id)
  {
    hide WellTyped, RecordAt, IdsAt, Popped, RedisDequeued;
    DequeueFinds(db, name, worker);
    ListCommandsKeepRecords(db, name, "", NO_TASK);
    var ids := IdsAt(db, QueueKey(name));
    if ids != [] && RecordAt(db, ids[0]).Some? {
      WrittenRecords(Popped(db, name), ids[0], Started(RecordAt(db, ids[0]).value, worker));
    }
  }

  lemma NackTouches(db: Keys, k: string, error: string, id: string)
    requires id != k
    ensures RecordAt(RedisNacked(db, k, error).0, id) == RecordAt(db, id)
  {
    hide RecordAt, Pushed, Interred, RedisNacked;
    NackFinds(db, k);
    if RecordAt(db, k).Some? {
      var t := RecordAt(db, k).value.(lastError := Some(error));
      WrittenRecords(db, k, t.(status := Pending));
      ListCommandsKeepRecords(db - {ItemKey(k)}, "", "", t.(status := Dead));
      ListCommandsKeepRecords(db[ItemKey(k) := Record(t.(status := Pending))], t.queueName, k, t);
    }
  }

  /** An operation that takes effect works on its client's own task, or on one that is free. */
  lemma EffectIsApart(s: Site, o: Story, act: Act, d: nat)
    requires Matches(s, o) && Clear(s, act) && d < |s.clients| && d != act.client && TakesEffect(s, act).Some?
    ensures Target(o.db, TakesEffect(s, act).value) !! OwnIds(s.clients[d].phase)
  {
    hide Matches, WellTyped, RecordAt, IdsAt, Fits;
    MatchParts(s, o, act.client);
    match act
    case Begin(_, call) =>
      if call.Dequeue? {
        HeadsAgree(s, o, call.queueName);
      }
    case Proceed(_) =>
  }

  lemma OthersPromiseTheSame(s: Site, o: Story, act: Act, d: nat)
    requires Matches(s, o) && Clear(s, act) && d < |s.clients| && d != act.client
    ensures Promised(s.clients[d].phase, Followed(s, o, act).db) == Promised(s.clients[d].phase, o.db)
  {
    var phase, call := s.clients[d].phase, TakesEffect(s, act);
    hide Matches, RecordAt, RedisStep, TakesEffect, Target;
    if phase.Taken? && call.Some? {
      EffectIsApart(s, o, act, d);
      MatchParts(s, o, d);
      CloseIsAlone(s, act, d);
      StepTouchesOne(o.db, call.value, Target(o.db, call.value), phase.id);
    }
  }

  lemma CloseIsAlone(s: Site, act: Act, d: nat)
    requires Clear(s, act) && d < |s.clients| && d != act.client && !s.clients[d].phase.Idle?
    ensures TakesEffect(s, act).Some? ==> !TakesEffect(s, act).value.Close?
  {
  }

  /** What an act adds to the part of the story that is client `d`'s. */
  function NewEntries(s: Site, o: Story, act: Act, d: nat): seq<RedisClients.Entry> {
    var call := TakesEffect(s, act);
    if call.Some? && d == act.client then [Entry(d, call.value, RedisStep(o.db, call.value).1)] else []
  }

  lemma OwnPartGrows(s: Site, o: Story, act: Act, d: nat)
    ensures Own(Followed(s, o, act).log, d) == Own(o.log, d) + NewEntries(s, o, act, d)
  {
    hide TakesEffect, RedisStep, Own;
    var call := TakesEffect(s, act);
    if call.Some? {
      OneMore(o.log, Entry(act.client, call.value, RedisStep(o.db, call.value).1), d);
    }
  }

  lemma OwnStillTells(s: Site, o: Story, act: Act)
    requires act.client < |s.clients| && Tells(s, o, act.client) && Replied(s, o, act)
    ensures Tells(Moved(s, act), Followed(s, o, act), act.client)
  {
    hide Promised, Due, Own, TakesEffect, Followed, RedisStep, Moved;
    var c := act.client;
    var mine, added := Own(o.log, c), NewEntries(s, o, act, c);
    OwnPartGrows(s, o, act, c);
    AllAppend(mine, added);
    assert added != [] ==> added[..0] == [];
    var begun := if act.Begin? then [act.call] else [];
    Rejoin(AllCalls(mine), Due(s.clients[c].phase), begun, AllCalls(added), Due(Moved(s, act).clients[c].phase));
  }

  lemma OthersStillTell(s: Site, o: Story, act: Act, d: nat)
    requires Matches(s, o) && Clear(s, act) && d < |s.clients| && d != act.client && Tells(s, o, d)
    ensures Tells(Moved(s, act), Followed(s, o, act), d)
  {
    hide Matches, Own, Promised, Due, AllReplies, AllCalls, TakesEffect, FirstCommand, NextCommand, Followed, Clear;
    OwnPartGrows(s, o, act, d);
    assert Own(o.log, d) + [] == Own(o.log, d);
    OthersPromiseTheSame(s, o, act, d);
  }

  lemma ActKeepsTelling(s: Site, o: Story, act: Act, d: nat)
    requires Matches(s, o) && Clear(s, act) && d < |s.clients| && Tells(s, o, d)
    ensures Tells(Moved(s, act), Followed(s, o, act), d)
  {
    hide Matches, Tells, Replied, Moved, Followed;
    if d == act.client {
      match act {
        case Begin(c, call) => BeginReplied(s, o, c, call);
        case Proceed(c) => ProceedReplied(s, o, c);
      }
      OwnStillTells(s, o, act);
    } else {
      OthersStillTell(s, o, act, d);
    }
  }

  /** The key space after a sequence of whole operations. */
  function RedisAfter(db: Keys, calls: seq<Call>): Keys
    decreases |calls|
  {
    if calls == [] then db else RedisAfter(RedisStep(db, calls[0]).0, calls[1..])
  }

  /** The story is a run of whole operations, one after another. */
  ghost predicate IsRun(o: Story) {
    RedisAfter(map[], AllCalls(o.log)) == o.db && RedisReplies(map[], AllCalls(o.log)) == AllReplies(o.log)
  }

  lemma {:induction false} RunAppendsOne(db: Keys, calls: seq<Call>, call: Call)
    ensures
      var (next, reply) := RedisStep(RedisAfter(db, calls), call);
      RedisAfter(db, calls + [call]) == next && RedisReplies(db, calls + [call]) == RedisReplies(db, calls) + [reply]
    decreases |calls|
  {
    hide RedisStep;
    if calls == [] {
      assert [call][1..] == [] && [] + [call] == [call];
    } else {
      assert (calls + [call])[1..] == calls[1..] + [call];
      RunAppendsOne(RedisStep(db, calls[0]).0, calls[1..], call);
    }
  }

  lemma ActKeepsRun(s: Site, o: Story, act: Act)
    requires IsRun(o)
    ensures IsRun(Followed(s, o, act))
  {
    var call := TakesEffect(s, act);
    hide RedisAfter, RedisReplies, RedisStep, TakesEffect, AllCalls, AllReplies;
    if call.Some? {
      RunAppendsOne(map[], AllCalls(o.log), call.value);
      OneMore(o.log, Entry(act.client, call.value, RedisStep(o.db, call.value).1), 0);
    }
  }

  ghost predicate Explained(s: Site, o: Story) {
    Matches(s, o) && IsRun(o) && forall c :: 0 <= c < |s.clients| ==> Tells(s, o, c)
  }

  lemma {:induction false} AlwaysTold(n: nat, acts: seq<Act>)
    requires NoOverlap(n, acts)
    ensures Explained(SiteAfter(n, acts), StoryAfter(n, acts))
  {
    hide Matches, IsRun, Tells, Moved, Followed, Clear;
    if acts == [] {
      NothingToTell(n);
    } else {
      var earlier, act := acts[..|acts| - 1], acts[|acts| - 1];
      var s, o := SiteAfter(n, earlier), StoryAfter(n, earlier);
      AlwaysTold(n, earlier);
      ActKeepsMatch(s, o, act);
      ActKeepsRun(s, o, act);
      forall d | 0 <= d < n ensures Tells(SiteAfter(n, acts), StoryAfter(n, acts), d) {
        ActKeepsTelling(s, o, act, d);
      }
    }
  }

  lemma NothingToTell(n: nat)
    ensures Explained(SiteAfter(n, []), StoryAfter(n, []))
  {
    AllIdleMatch(SiteAfter(n, []), StoryAfter(n, []));
    hide Matches;
  }

  /**
   Every interleaving in which no two operations on one task overlap, whatever its clients
   enqueue, ack, nack or close, is explained by one sequential order of the operations: each
   client finds its own calls there, in its own order, with the replies it was given, but
   for the one it is in the middle of. The replies are those of the operations run whole,
   which are the queue machine's with its `KeyError` answered as no task.
   */
  lemma LinearizableWithoutOverlap(n: nat, acts: seq<Act>)
    requires NoOverlap(n, acts)
    ensures
      var clients, log := SiteAfter(n, acts).clients, StoryAfter(n, acts).log;
      && RedisReplies(map[], AllCalls(log)) == AllReplies(log)
      && (forall k :: 0 <= k < |log| ==> AllReplies(log)[k] == Swallowed(Replies(EMPTY, AllCalls(log))[k]))
      && forall c :: 0 <= c < n ==>
           && clients[c].replies <= AllReplies(Own(log, c))
           && AllCalls(Own(log, c)) <= clients[c].calls
           && |clients[c].calls| <= |clients[c].replies| + 1
  {
    hide Matches, Tells, Own, AllReplies, AllCalls, SiteAfter, StoryAfter, RedisReplies, Replies, RedisAfter, Represents;
    AlwaysTold(n, acts);
    var s, o := SiteAfter(n, acts), StoryAfter(n, acts);
    NothingRepresents();
    RunSimulates(map[], EMPTY, AllCalls(o.log));
    forall c | 0 <= c < n
      ensures s.clients[c].replies <= AllReplies(Own(o.log, c)) && AllCalls(Own(o.log, c)) <= s.clients[c].calls
      ensures |s.clients[c].calls| <= |s.clients[c].replies| + 1
    {
      TellsMeans(s, o, c);
    }
  }

  lemma NothingRepresents()
    ensures Represents(map[], EMPTY)
  {
  }

  lemma TellsMeans(s: Site, o: Story, c: nat)
    requires c < |s.clients| && Tells(s, o, c)
    ensures
      var me, mine := s.clients[c], Own(o.log, c);
      me.replies <= AllReplies(mine) && AllCalls(mine) <= me.calls && |me.calls| <= |me.replies| + 1
  {
    hide Own, AllReplies, AllCalls;
  }

  lemma {:induction false} StoryPrefix(n: nat, acts: seq<Act>, k: nat)
    requires NoOverlap(n, acts) && k <= |acts|
    ensures NoOverlap(n, acts[..k]) && StoryAfter(n, acts[..k]).log <= StoryAfter(n, acts).log
  {
    hide SiteAfter, Clear, TakesEffect, RedisStep;
    if k == |acts| {
      assert acts[..k] == acts;
    } else {
      assert acts[..|acts| - 1][..k] == acts[..k];
      StoryPrefix(n, acts[..|acts| - 1], k);
    }
  }

  /** That order respects real time, too. */
  lemma StoryKeepsTime(n: nat, acts: seq<Act>, k: nat) returns (cut: nat)
    requires NoOverlap(n, acts) && k <= |acts|
    ensures cut <= |StoryAfter(n, acts).log|
    ensures
      var past, early := SiteAfter(n, acts[..k]).clients, StoryAfter(n, acts).log[..cut];
      forall c :: 0 <= c < n ==> |past[c].replies| <= |Own(early, c)| <= |past[c].calls|
  {
    hide SiteAfter, StoryAfter, Own, AllReplies, AllCalls, Replies, RedisReplies;
    StoryPrefix(n, acts, k);
    LinearizableWithoutOverlap(n, acts[..k]);
    var past, early := SiteAfter(n, acts[..k]).clients, StoryAfter(n, acts[..k]).log;
    cut := |early|;
    assert StoryAfter(n, acts).log[..cut] == early;
    forall c | 0 <= c < n ensures |past[c].replies| <= |Own(early, c)| <= |past[c].calls| {
      assert past[c].replies <= AllReplies(Own(early, c));
    }
  }

  /** When no operation is under way, the lists and records are those the sequential order leaves. */
  lemma RestIsTheStory(n: nat, acts: seq<Act>)
    requires NoOverlap(n, acts) && forall c :: 0 <= c < n ==> SiteAfter(n, acts).clients[c].phase.Idle?
    ensures
      var db, told := SiteAfter(n, acts).db, RedisAfter(map[], AllCalls(StoryAfter(n, acts).log));
      SameLists(db, told) && forall id :: RecordAt(db, id) == RecordAt(told, id)
  {
    hide SiteAfter, StoryAfter, Matches, RecordAt, SameLists, RedisAfter, RedisReplies;
    AlwaysTold(n, acts);
    var s, o := SiteAfter(n, acts), StoryAfter(n, acts);
    assert IsRun(o);
    SameListsOf(s, o);
    forall id ensures RecordAt(s.db, id) == RecordAt(o.db, id) {
      IdleTaskAgrees(s, o, id);
    }
  }

  lemma SameListsOf(s: Site, o: Story)
    requires Matches(s, o)
    ensures SameLists(s.db, o.db)
  {
  }

  /** The discipline is one way to keep operations on one task apart. */
  lemma DisciplineIsClear(s: Site, o: Order, act: Act)
    requires Coupled(s, o) && Allowed(s, act)
    ensures Clear(s, act)
  {
    hide Coupled, IdsAt;
    match act
    case Proceed(_) =>
    case Begin(c, call) =>
      ClientIsOk(s, o, c);
      forall d | 0 <= d < |s.clients| ensures OwnIds(s.clients[d].phase) !! Target(s.db, call) {
        assert d != c ==> Claim(s.clients[d]) !! Claim(s.clients[c]);
        match call {
          case Enqueue(t) => NewIdIsFree(s, o, t.taskId);
          case Dequeue(name, worker) => HeadIsClear(s, o, name, worker, d);
          case _ =>
        }
      }
  }

  lemma HeadIsClear(s: Site, o: Order, name: string, worker: string, d: nat)
    requires Coupled(s, o) && d < |s.clients|
    ensures OwnIds(s.clients[d].phase) !! Target(s.db, Dequeue(name, worker))
  {
    hide Coupled, ListsAgree;
    ClientIsOk(s, o, d);
    ListsAt(s.db, o.queues, name);
    if Waiting(o.queues, name) != [] {
      HeadIsFree(s, o, name, worker);
    }
  }

  lemma {:induction false} DisciplineAvoidsOverlap(n: nat, acts: seq<Act>)
    requires Orderly(n, acts)
    ensures NoOverlap(n, acts)
  {
    hide SiteAfter, Allowed, Clear;
    if acts != [] {
      var earlier := acts[..|acts| - 1];
      DisciplineAvoidsOverlap(n, earlier);
      AlwaysLinked(n, earlier);
      DisciplineIsClear(SiteAfter(n, earlier), OrderAfter(n, earlier), acts[|acts| - 1]);
    }
  }

  /** Two clients nack one task; each reads and writes its record before either pushes its id. */
  function NackRace(s: Site, id: string, e: string, f: string): Site {
    var read := Moved(Moved(s, Begin(0, Nack(id, e))), Begin(1, Nack(id, f)));
    var written := Moved(Moved(read, Proceed(0)), Proceed(1));
    Moved(Moved(written, Proceed(0)), Proceed(1))
  }

  /**
   Keeping them apart is not necessary: wherever a task has deliveries left, two nacks of it
   that overlap like that give the replies, and leave the key space, of one after the other.
   Two acks do not (`TwoAcksCanBothSucceed`).
   */
  lemma NackRaceIsHarmless(s: Site, id: string, e: string, f: string)
    requires |s.clients| >= 2 && s.clients[0].phase.Idle? && s.clients[1].phase.Idle?
    requires RecordAt(s.db, id).Some? && !Exhausted(RecordAt(s.db, id).value)
    ensures !Clear(Moved(s, Begin(0, Nack(id, e))), Begin(1, Nack(id, f)))
    ensures
      var first := RedisStep(s.db, Nack(id, e));
      var second := RedisStep(first.0, Nack(id, f));
      var t := NackRace(s, id, e, f);
      && first.1 == Flag(true) == second.1 && t.db == second.0
      && t.clients[0].replies == s.clients[0].replies + [first.1] && t.clients[1].replies == s.clients[1].replies + [second.1]
  {
    var raw, key := RecordAt(s.db, id).value, ItemKey(id);
    var a, b := raw.(lastError := Some(e), status := Pending), raw.(lastError := Some(f), status := Pending);
    var name := raw.queueName;
    NackRaceEnds(s, id, e, f);
    var one := Pushed(s.db[key := Record(a)], name, id);
    NackFinds(s.db, id);
    PushedRecord(s.db[key := Record(a)], name, id, a);
    NackFinds(one, id);
    hide NackRace, RedisNacked, RecordAt;
    PushesCommute(s.db, id, name, a, b);
  }

  lemma PushedRecord(db: Keys, name: string, id: string, t: Task)
    requires ItemKey(id) in db && db[ItemKey(id)] == Record(t)
    ensures RecordAt(Pushed(db, name, id), id) == Some(t)
  {
  }

  lemma PushesCommute(db: Keys, id: string, name: string, a: Task, b: Task)
    ensures
      var key := ItemKey(id);
      Pushed(Pushed(db[key := Record(a)][key := Record(b)], name, id), name, id)
        == Pushed(Pushed(db[key := Record(a)], name, id)[key := Record(b)], name, id)
  {
    assert ItemKey(id) != QueueKey(name);
  }

  lemma NackRaceEnds(s: Site, id: string, e: string, f: string)
    requires |s.clients| >= 2 && s.clients[0].phase.Idle? && s.clients[1].phase.Idle?
    requires RecordAt(s.db, id).Some? && !Exhausted(RecordAt(s.db, id).value)
    ensures !Clear(Moved(s, Begin(0, Nack(id, e))), Begin(1, Nack(id, f)))
    ensures
      var raw, key, t := RecordAt(s.db, id).value, ItemKey(id), NackRace(s, id, e, f);
      var a, b := raw.(lastError := Some(e), status := Pending), raw.(lastError := Some(f), status := Pending);
      && t.db == Pushed(Pushed(s.db[key := Record(a)][key := Record(b)], raw.queueName, id), raw.queueName, id)
      && t.clients[0].replies == s.clients[0].replies + [Flag(true)] && t.clients[1].replies == s.clients[1].replies + [Flag(true)]
  {
    hide Pushed;
    assert id in OwnIds(Moved(s, Begin(0, Nack(id, e))).clients[0].phase);
  }
}

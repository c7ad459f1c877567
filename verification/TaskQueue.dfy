// The single-worker task queue (backend/app/task_queue.py).
module TaskQueues {
  import opened Common

  const MAX_QUEUED := 500
  const RETENTION := 3600.0

  datatype Status = Pending | Running | Succeeded | Failed
  datatype Request = Request(status: Status, created: real, started: Option<real>, completed: Option<real>)

  /** The state the condition variable guards. */
  datatype Queue = Queue(
    requests: map<nat, Request>,
    queue: seq<nat>,
    closing: bool,
    currentStarted: Option<real>,
    lastCompleted: Option<real>)

  predicate Stale(r: Request, now: real) {
    r.completed.Some? && now - r.completed.value > RETENTION
  }

  function Evict(q: Queue, now: real): Queue {
    q.(requests := map id | id in q.requests && !Stale(q.requests[id], now) :: q.requests[id])
  }

  datatype Admission = Closing | Full | Accepted

  function Enqueue(q: Queue, id: nat, now: real): (Queue, Admission) {
    if q.closing then (q, Closing)
    else if |Evict(q, now).queue| >= MAX_QUEUED then (Evict(q, now), Full)
    else
      var e := Evict(q, now);
      (e.(requests := e.requests[id := Request(Pending, now, None, None)], queue := e.queue + [id]), Accepted)
  }

  datatype Taken = Wait | Stop | Skip | Job(id: nat)

  /** One pass of the worker through the condition: wait, exit, skip an unknown id, or start a job. */
  function Take(q: Queue, now: real): (Queue, Taken) {
    if q.queue == [] then (q, if q.closing then Stop else Wait)
    else
      var id := q.queue[0];
      var rest := q.(queue := q.queue[1..]);
      if id !in q.requests then (rest, Skip)
      else
        (rest.(requests := q.requests[id := q.requests[id].(status := Running, started := Some(now))],
               currentStarted := Some(now)), Job(id))
  }

  function Complete(q: Queue, id: nat, ok: bool, now: real): Queue {
    var done := q.(currentStarted := None, lastCompleted := Some(now));
    if id in q.requests then
      done.(requests := q.requests[id := q.requests[id].(status := if ok then Succeeded else Failed,
                                                         completed := Some(now))])
    else done
  }

  function Close(q: Queue): Queue {
    q.(closing := true)
  }

  // ----- the machine -----

  datatype Worker = Ready | Busy(id: nat) | Exited

  /** `accepted`, `started` and `finished` are the histories in order of occurrence. */
  datatype World = World(q: Queue, worker: Worker, accepted: seq<nat>, started: seq<nat>, finished: seq<nat>)

  datatype Step =
    | Submit(id: nat, now: real)
    | Snapshots(now: real)
    | Shutdown
    | Pick(now: real)
    | Finish(ok: bool, now: real)

  ghost predicate Init(w: World) {
    w == World(Queue(map[], [], false, None, None), Ready, [], [], [])
  }

  ghost predicate Next(w: World, a: Step, w': World) {
    match a
    case Submit(id, now) =>
      && id !in w.accepted
      && var (q, admission) := Enqueue(w.q, id, now);
         if admission.Accepted? then w' == w.(q := q, accepted := w.accepted + [id]) else w' == w.(q := q)
    case Snapshots(now) => w' == w.(q := Evict(w.q, now))
    case Shutdown => w' == w.(q := Close(w.q))
    case Pick(now) =>
      && w.worker.Ready?
      && var (q, taken) := Take(w.q, now);
         if taken.Job? then w' == w.(q := q, worker := Busy(taken.id), started := w.started + [taken.id])
         else if taken.Stop? then w' == w.(q := q, worker := Exited)
         else w' == w.(q := q)
    case Finish(ok, now) =>
      && w.worker.Busy?
      && w' == w.(q := Complete(w.q, w.worker.id, ok, now), worker := Ready, finished := w.finished + [w.worker.id])
  }

  ghost predicate IsRun(states: seq<World>, steps: seq<Step>) {
    && |states| == |steps| + 1
    && Init(states[0])
    && forall i | 0 <= i < |steps| :: Next(states[i], steps[i], states[i + 1])
  }

  function Current(worker: Worker): seq<nat> {
    if worker.Busy? then [worker.id] else []
  }

  /** Accepted jobs are the finished ones, the running one and the queued ones, in order. */
  ghost predicate OrderInv(w: World) {
    && w.accepted == w.finished + Current(w.worker) + w.q.queue
    && w.started == w.finished + Current(w.worker)
    && Distinct(w.accepted)
    && |w.q.queue| <= MAX_QUEUED
    && (w.worker.Exited? ==> w.q.closing && w.q.queue == [])
  }

  predicate Waiting(q: Queue, id: nat) {
    id in q.requests && q.requests[id].status.Pending? && q.requests[id].completed.None?
  }

  predicate InProgress(q: Queue, id: nat) {
    id in q.requests && q.requests[id].status.Running? && q.requests[id].completed.None?
  }

  predicate Settled(q: Queue, id: nat) {
    id in q.requests ==>
      q.requests[id].completed.Some? && (q.requests[id].status.Succeeded? || q.requests[id].status.Failed?)
  }

  /** Every record says where its job is; only records of finished jobs may be missing. */
  ghost predicate RecordInv(w: World) {
    && (forall id | id in w.q.requests :: id in w.accepted)
    && (forall id | id in w.q.queue :: Waiting(w.q, id))
    && (w.worker.Busy? ==> InProgress(w.q, w.worker.id))
    && (forall id | id in w.finished :: Settled(w.q, id))
    && (w.q.currentStarted.Some? <==> w.worker.Busy?)
  }

  ghost predicate Inv(w: World) {
    OrderInv(w) && RecordInv(w)
  }

  lemma SubmitKeeps(w: World, id: nat, now: real, w': World)
    requires Inv(w) && Next(w, Submit(id, now), w')
    ensures Inv(w')
  {
    if w.q.closing {
    } else if |w.q.queue| >= MAX_QUEUED {
      EvictKeeps(w, now);
    } else {
      EvictKeeps(w, now);
      assert w'.q.queue == w.q.queue + [id];
    }
  }

  lemma EvictKeeps(w: World, now: real)
    requires Inv(w)
    ensures Inv(w.(q := Evict(w.q, now)))
  {
  }

  /** The head of the queue is registered and pending, so the worker never skips an id. */
  lemma PickNeverSkips(w: World, now: real)
    requires Inv(w)
    ensures !Take(w.q, now).1.Skip?
  {
    if w.q.queue != [] {
      assert w.q.queue[0] in w.q.queue;
    }
  }

  lemma PickOrder(w: World, now: real, w': World)
    requires Inv(w) && Next(w, Pick(now), w') && w.q.queue != []
    ensures OrderInv(w') && w'.worker == Busy(w.q.queue[0]) && w'.q.queue == w.q.queue[1..]
    ensures w'.q.currentStarted == Some(now)
  {
    PickNeverSkips(w, now);
    assert w.q.queue == [w.q.queue[0]] + w.q.queue[1..];
  }

  lemma HeadIsOnlyThere(w: World)
    requires Inv(w) && w.worker.Ready? && w.q.queue != []
    ensures w.q.queue[0] !in w.q.queue[1..] && w.q.queue[0] !in w.finished
  {
    assert w.accepted == w.finished + w.q.queue;
    DistinctParts(w.finished, w.q.queue);
    assert w.q.queue == [w.q.queue[0]] + w.q.queue[1..];
    DistinctParts([w.q.queue[0]], w.q.queue[1..]);
  }

  lemma PickKeeps(w: World, now: real, w': World)
    requires Inv(w) && Next(w, Pick(now), w')
    ensures Inv(w')
  {
    PickNeverSkips(w, now);
    if w.q.queue != [] {
      HeadIsOnlyThere(w);
      PickOrder(w, now, w');
      assert forall id | id in w'.q.queue :: id in w.q.queue;
    }
  }

  lemma RunningIsOnlyThere(w: World)
    requires Inv(w) && w.worker.Busy?
    ensures w.worker.id !in w.q.queue && w.worker.id !in w.finished
  {
    assert w.accepted == w.finished + ([w.worker.id] + w.q.queue);
    DistinctParts(w.finished, [w.worker.id] + w.q.queue);
    DistinctParts([w.worker.id], w.q.queue);
    assert ([w.worker.id] + w.q.queue)[0] == w.worker.id;
  }

  lemma FinishKeeps(w: World, ok: bool, now: real, w': World)
    requires Inv(w) && Next(w, Finish(ok, now), w')
    ensures Inv(w')
  {
    RunningIsOnlyThere(w);
    assert w'.accepted == w.finished + [w.worker.id] + w.q.queue;
  }

  lemma StepKeeps(w: World, a: Step, w': World)
    requires Inv(w) && Next(w, a, w')
    ensures Inv(w')
  {
    match a
    case Submit(id, now) => SubmitKeeps(w, id, now, w');
    case Snapshots(now) => EvictKeeps(w, now);
    case Shutdown =>
    case Pick(now) => PickKeeps(w, now, w');
    case Finish(ok, now) => FinishKeeps(w, ok, now, w');
  }

  lemma {:induction false} Always(states: seq<World>, steps: seq<Step>, k: nat)
    requires IsRun(states, steps) && k < |states|
    ensures Inv(states[k])
  {
    if k > 0 {
      Always(states, steps, k - 1);
      StepKeeps(states[k - 1], steps[k - 1], states[k]);
    }
  }

  /** In every interleaving jobs start once each, in the order in which they were accepted, and
      at most one runs at a time. */
  lemma FifoTheorem(states: seq<World>, steps: seq<Step>, k: nat)
    requires IsRun(states, steps) && k < |states|
    ensures states[k].started <= states[k].accepted && Distinct(states[k].started)
    ensures states[k].finished <= states[k].started && |states[k].started| <= |states[k].finished| + 1
    ensures |states[k].accepted| <= |states[k].started| + MAX_QUEUED
    ensures states[k].accepted == states[k].finished + Current(states[k].worker) + states[k].q.queue
    ensures Distinct(states[k].accepted) && forall id | id in states[k].q.queue :: Waiting(states[k].q, id)
  {
    Always(states, steps, k);
    var w := states[k];
    assert w.accepted == w.started + w.q.queue;
    assert forall i | 0 <= i < |w.started| :: w.started[i] == w.accepted[i];
  }

  /** Once the worker has exited, everything accepted has finished and nothing more is accepted. */
  lemma DrainTheorem(states: seq<World>, steps: seq<Step>, k: nat)
    requires IsRun(states, steps) && k < |states| && states[k].worker.Exited?
    ensures states[k].finished == states[k].accepted
    ensures forall id, now :: Enqueue(states[k].q, id, now).1.Closing?
  {
    Always(states, steps, k);
    var w := states[k];
    assert w.finished + Current(w.worker) + w.q.queue == w.finished;
  }

  /** An accepted job whose record is gone has finished: `get` loses nothing in progress. */
  lemma MissingMeansFinished(states: seq<World>, steps: seq<Step>, k: nat, id: nat)
    requires IsRun(states, steps) && k < |states|
    requires id in states[k].accepted && id !in states[k].q.requests
    ensures id in states[k].finished
  {
    Always(states, steps, k);
    var w := states[k];
    assert id in w.finished + Current(w.worker) + w.q.queue;
  }

  // ----- the class -----

  class TaskQueue {
    var requests: map<nat, Request>
    var queue: seq<nat>
    var closing: bool
    var currentStarted: Option<real>
    var lastCompleted: Option<real>

    function View(): Queue
      reads this
    {
      Queue(requests, queue, closing, currentStarted, lastCompleted)
    }

    constructor ()
      ensures View() == Queue(map[], [], false, None, None)
    {
      requests, queue, closing, currentStarted, lastCompleted := map[], [], false, None, None;
    }

    method EvictLocked(now: real)
      modifies this`requests
      ensures View() == Evict(old(View()), now)
    {
      var ids := requests.Keys;
      var kept := requests;
      while ids != {}
        invariant ids <= requests.Keys
        invariant kept == map id | id in requests && (id in ids || !Stale(requests[id], now)) :: requests[id]
        decreases |ids|
      {
        var id :| id in ids;
        ids := ids - {id};
        if requests[id].completed.Some? && now - requests[id].completed.value > RETENTION {
          kept := kept - {id};
        }
      }
      requests := kept;
    }

    method Add(id: nat, now: real) returns (admission: Admission)
      modifies this
      ensures (View(), admission) == Enqueue(old(View()), id, now)
    {
      if closing {
        return Closing;
      }
      EvictLocked(now);
      if |queue| >= MAX_QUEUED {
        return Full;
      }
      requests := requests[id := Request(Pending, now, None, None)];
      queue := queue + [id];
      return Accepted;
    }

    method Get(id: nat) returns (snapshot: Option<Request>)
      ensures snapshot == if id in requests then Some(requests[id]) else None
    {
      if id in requests {
        return Some(requests[id]);
      }
      return None;
    }

    method StartShutdown()
      modifies this
      ensures View() == Close(old(View()))
    {
      closing := true;
    }

    method TakeJob(now: real) returns (taken: Taken)
      modifies this
      ensures (View(), taken) == Take(old(View()), now)
    {
      if queue == [] {
        return if closing then Stop else Wait;
      }
      var id := queue[0];
      queue := queue[1..];
      if id !in requests {
        return Skip;
      }
      requests := requests[id := requests[id].(status := Running, started := Some(now))];
      currentStarted := Some(now);
      return Job(id);
    }

    method CompleteJob(id: nat, ok: bool, now: real)
      modifies this
      ensures View() == Complete(old(View()), id, ok, now)
    {
      if id in requests {
        requests := requests[id := requests[id].(status := if ok then Succeeded else Failed, completed := Some(now))];
      }
      lastCompleted := Some(now);
      currentStarted := None;
    }
  }

  // ----- named instances -----

  /** The class-level table of named queues, every instance made so far with its name, and those whose
      worker lives. */
  datatype Registry = Registry(named: map<string, nat>, made: map<nat, string>, live: set<nat>)

  /** `__new__`, the end of a worker, and the end of `shutdown`, which releases the name of its instance
      once that worker has stopped. */
  datatype Event = Obtains(name: string, instance: nat) | Exits(instance: nat) | Pops(instance: nat)

  function Obtain(r: Registry, name: string, newInstance: nat): Registry {
    if name in r.named then r
    else Registry(r.named[name := newInstance], r.made[newInstance := name], r.live + {newInstance})
  }

  function Release(r: Registry, instance: nat): Registry
    requires instance in r.made
  {
    r.(named := r.named - {r.made[instance]})
  }

  ghost predicate RegistryStep(r: Registry, e: Event, r': Registry) {
    match e
    case Obtains(name, i) => (name in r.named || i !in r.made) && r' == Obtain(r, name, i)
    case Exits(i) => i in r.live && r' == r.(live := r.live - {i})
    case Pops(i) => i in r.made && i !in r.live && r' == Release(r, i)
  }

  ghost predicate EventAt(es: seq<Event>, rs: seq<Registry>, k: nat)
    requires k < |es| && |rs| == |es| + 1
  {
    RegistryStep(rs[k], es[k], rs[k + 1])
  }

  ghost predicate IsLife(es: seq<Event>, rs: seq<Registry>) {
    && |rs| == |es| + 1 && rs[0] == Registry(map[], map[], {})
    && forall k: nat | k < |es| :: EventAt(es, rs, k)
  }

  ghost predicate Sane(r: Registry) {
    && (forall n | n in r.named :: r.named[n] in r.made && r.made[r.named[n]] == n)
    && r.live <= r.made.Keys
  }

  /** Every living worker is the registered one of its name, so no name has two. */
  ghost predicate OneWorkerPerName(r: Registry)
    requires Sane(r)
  {
    forall i | i in r.live :: r.made[i] in r.named && r.named[r.made[i]] == i
  }

  lemma ObtainKeeps(r: Registry, name: string, newInstance: nat)
    requires Sane(r) && OneWorkerPerName(r) && (name in r.named || newInstance !in r.made)
    ensures Sane(Obtain(r, name, newInstance)) && OneWorkerPerName(Obtain(r, name, newInstance))
  {
  }

  /** `shutdown` releases whatever instance is registered under the name: that is harmless exactly when no
      living one is. */
  predicate Harmless(r: Registry, instance: nat) {
    instance in r.made && r.made[instance] in r.named ==> r.named[r.made[instance]] !in r.live
  }

  lemma ReleaseKeepsIff(r: Registry, instance: nat)
    requires Sane(r) && OneWorkerPerName(r) && instance in r.made
    ensures Sane(Release(r, instance))
    ensures OneWorkerPerName(Release(r, instance)) <==> Harmless(r, instance)
  {
    var r' := Release(r, instance);
    if !Harmless(r, instance) {
      var other := r.named[r.made[instance]];
      assert other in r'.live && r'.made[other] !in r'.named;
    }
  }

  lemma {:induction false} AlwaysSane(es: seq<Event>, rs: seq<Registry>, n: nat)
    requires IsLife(es, rs) && n < |rs|
    ensures Sane(rs[n])
  {
    if n > 0 {
      AlwaysSane(es, rs, n - 1);
      assert EventAt(es, rs, n - 1);
    }
  }

  ghost predicate HarmlessAt(es: seq<Event>, rs: seq<Registry>, k: nat)
    requires k < |es| && |rs| == |es| + 1
  {
    es[k].Pops? ==> Harmless(rs[k], es[k].instance)
  }

  ghost predicate OneWorkerAt(rs: seq<Registry>, k: nat)
    requires k < |rs|
  {
    Sane(rs[k]) && OneWorkerPerName(rs[k])
  }

  lemma EventKeepsIff(es: seq<Event>, rs: seq<Registry>, k: nat)
    requires IsLife(es, rs) && k < |es| && OneWorkerAt(rs, k)
    ensures OneWorkerAt(rs, k + 1) <==> HarmlessAt(es, rs, k)
  {
    assert EventAt(es, rs, k);
    match es[k] {
      case Obtains(name, i) => ObtainKeeps(rs[k], name, i);
      case Exits(_) =>
      case Pops(i) => ReleaseKeepsIff(rs[k], i);
    }
  }

  lemma {:induction false} HarmlessPrefix(es: seq<Event>, rs: seq<Registry>, n: nat)
    requires IsLife(es, rs) && n <= |es| && forall k: nat | k < n :: HarmlessAt(es, rs, k)
    ensures OneWorkerAt(rs, n)
  {
    if n > 0 {
      HarmlessPrefix(es, rs, n - 1);
      EventKeepsIff(es, rs, n - 1);
    }
  }

  /** For any order of requests for queues, ends of workers and ends of shutdowns: every living worker is
      the registered one of its name at all times exactly when no shutdown ends while another living
      instance holds its name. */
  lemma WorkersTheorem(es: seq<Event>, rs: seq<Registry>)
    requires IsLife(es, rs)
    ensures (forall n: nat | n < |rs| :: OneWorkerAt(rs, n)) <==> forall k: nat | k < |es| :: HarmlessAt(es, rs, k)
  {
    if forall k: nat | k < |es| :: HarmlessAt(es, rs, k) {
      forall n: nat | n < |rs|
        ensures OneWorkerAt(rs, n)
      {
        HarmlessPrefix(es, rs, n);
      }
    } else {
      var k: nat :| k < |es| && !HarmlessAt(es, rs, k);
      if OneWorkerAt(rs, k) {
        EventKeepsIff(es, rs, k);
      }
    }
  }

  /** The name stays with an instance until a shutdown of that name ends. */
  lemma {:induction false} NameIsHeld(es: seq<Event>, rs: seq<Registry>, l: nat, k: nat, name: string)
    requires IsLife(es, rs) && l <= k <= |es| && name in rs[l].named
    requires forall p: nat | l <= p < k :: !Frees(es, rs, p, name)
    ensures name in rs[k].named && rs[k].named[name] == rs[l].named[name]
  {
    if l < k {
      NameIsHeld(es, rs, l, k - 1, name);
      assert EventAt(es, rs, k - 1) && !Frees(es, rs, k - 1, name);
    }
  }

  /** Event `p` ends a shutdown of an instance of this name. */
  predicate Frees(es: seq<Event>, rs: seq<Registry>, p: nat, name: string)
    requires p < |es| <= |rs|
  {
    es[p].Pops? && es[p].instance in rs[p].made && rs[p].made[es[p].instance] == name
  }

  /** A shutdown lists the registered instances first. It can do harm at its end only if another shutdown
      of the same name has ended in between: two shutdowns have to overlap. */
  lemma HarmNeedsOverlap(es: seq<Event>, rs: seq<Registry>, l: nat, k: nat)
    requires IsLife(es, rs) && l <= k < |es| && es[k].Pops? && es[k].instance in rs[l].named.Values
    requires !HarmlessAt(es, rs, k)
    ensures exists p: nat | l <= p < k :: Frees(es, rs, p, rs[k].made[es[k].instance])
  {
    AlwaysSane(es, rs, l);
    AlwaysSane(es, rs, k);
    MadeIsFixed(es, rs, l, k);
    var name := rs[l].made[es[k].instance];
    assert EventAt(es, rs, k);
    if forall p: nat | l <= p < k :: !Frees(es, rs, p, name) {
      NameIsHeld(es, rs, l, k, name);
    }
  }

  lemma {:induction false} MadeIsFixed(es: seq<Event>, rs: seq<Registry>, l: nat, k: nat)
    requires IsLife(es, rs) && l <= k <= |es|
    ensures forall i | i in rs[l].made :: i in rs[k].made && rs[k].made[i] == rs[l].made[i]
  {
    if l < k {
      MadeIsFixed(es, rs, l, k - 1);
      assert EventAt(es, rs, k - 1);
    }
  }

  /** The failing order, played out: two overlapping shutdowns of one instance end, the name having been
      taken again in between, and the next request makes a second living worker under it. */
  lemma StaleShutdownSplitsName(rs: seq<Registry>)
    requires IsLife([Obtains("maafw", 1), Exits(1), Pops(1), Obtains("maafw", 2), Pops(1), Obtains("maafw", 3)], rs)
    ensures {2, 3} <= rs[6].live && 2 in rs[6].made && 3 in rs[6].made && rs[6].made[2] == rs[6].made[3] == "maafw"
  {
    var es := [Obtains("maafw", 1), Exits(1), Pops(1), Obtains("maafw", 2), Pops(1), Obtains("maafw", 3)];
    assert EventAt(es, rs, 0) && EventAt(es, rs, 1) && EventAt(es, rs, 2);
    assert EventAt(es, rs, 3) && EventAt(es, rs, 4) && EventAt(es, rs, 5);
  }
}

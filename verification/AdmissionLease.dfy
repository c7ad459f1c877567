// The admission of diagnostic downloads: one bundle at a time, however the request ends
// (backend/app/diagnostics.py:753-812).
module AdmissionLease {
  import opened Common

  type RequestId = nat

  // ----- the lease of one request, as an object -----

  /** `_ADMISSION`. */
  class Semaphore {
    var permits: nat

    constructor ()
      ensures permits == 1
    {
      permits := 1;
    }

    method TryAcquire() returns (acquired: bool)
      modifies this
      ensures acquired <==> old(permits) > 0
      ensures permits == old(permits) - if acquired then 1 else 0
    {
      acquired := permits > 0;
      if acquired {
        permits := permits - 1;
      }
    }

    method Release()
      modifies this
      ensures permits == old(permits) + 1
    {
      permits := permits + 1;
    }
  }

  datatype Lease = Lease(workerDone: bool, closed: bool)

  function Finished(l: Lease, worker: bool): Lease {
    if worker then l.(workerDone := true) else l.(closed := true)
  }

  predicate Spent(l: Lease) {
    l.workerDone && l.closed
  }

  class LeaseCell {
    const admission: Semaphore
    var workerDone: bool
    var closed: bool

    function View(): Lease
      reads this
    {
      Lease(workerDone, closed)
    }

    constructor (admission: Semaphore)
      ensures View() == Lease(false, false) && this.admission == admission
    {
      this.admission := admission;
      workerDone, closed := false, false;
    }

    method Finish(worker: bool)
      modifies this, admission
      ensures View() == Finished(old(View()), worker)
      ensures admission.permits == old(admission.permits) + if Spent(View()) then 1 else 0
    {
      if worker {
        workerDone := true;
      } else {
        closed := true;
      }
      if workerDone && closed {
        admission.Release();
      }
    }
  }

  // ----- all requests -----

  /** Where one request is. While `Leased`, its worker and its coroutine end in either order. */
  datatype Phase = Acquired | Unscheduled | Leased(lease: Lease) | Rejected

  datatype Event = Took(id: RequestId) | Gave(id: RequestId)

  datatype World = World(permits: nat, requests: map<RequestId, Phase>, log: seq<Event>)

  datatype Action =
    | Ask(id: RequestId)            // the non-blocking acquire
    | Schedule(id: RequestId)       // `run_in_executor` returned
    | FailToSchedule(id: RequestId) // `run_in_executor` raised
    | EndWorker(id: RequestId)      // the done callback
    | EndCoroutine(id: RequestId)   // `finally`: sent and disconnected, send failed, or cancelled

  predicate Running(p: Phase) {
    p.Leased? && !p.lease.workerDone
  }

  predicate Holds(p: Phase) {
    p.Acquired? || (p.Leased? && !Spent(p.lease))
  }

  /** The head of `DiagnosticResponse.__call__`: only a request that got the permit and whose bundle was
      scheduled goes on to hold a lease; a failure to schedule gives the permit back at once. */
  method Begin(admission: Semaphore, schedules: bool) returns (phase: Phase, cell: Option<LeaseCell>)
    modifies admission
    ensures phase.Rejected? <==> old(admission.permits) == 0
    ensures phase.Rejected? || (if schedules then phase == Leased(Lease(false, false)) else phase.Unscheduled?)
    ensures admission.permits == old(admission.permits) - if Holds(phase) then 1 else 0
    ensures phase.Leased? <==> cell.Some?
    ensures cell.Some? ==> fresh(cell.value) && cell.value.admission == admission && cell.value.View() == phase.lease
  {
    var acquired := admission.TryAcquire();
    if !acquired {
      return Rejected, None;
    }
    var lease := new LeaseCell(admission);
    if !schedules {
      admission.Release();
      return Unscheduled, None;
    }
    return Leased(Lease(false, false)), Some(lease);
  }

  ghost predicate Step(w: World, a: Action, w': World) {
    match a
    case Ask(id) =>
      && id !in w.requests
      && if w.permits > 0
         then w' == World(w.permits - 1, w.requests[id := Acquired], w.log + [Took(id)])
         else w' == w.(requests := w.requests[id := Rejected])
    case Schedule(id) =>
      && id in w.requests && w.requests[id].Acquired?
      && w' == w.(requests := w.requests[id := Leased(Lease(false, false))])
    case FailToSchedule(id) =>
      && id in w.requests && w.requests[id].Acquired?
      && w' == World(w.permits + 1, w.requests[id := Unscheduled], w.log + [Gave(id)])
    case EndWorker(id) =>
      && id in w.requests && w.requests[id].Leased? && !w.requests[id].lease.workerDone
      && Ended(w, id, true, w')
    case EndCoroutine(id) =>
      && id in w.requests && w.requests[id].Leased? && !w.requests[id].lease.closed
      && Ended(w, id, false, w')
  }

  ghost predicate Ended(w: World, id: RequestId, worker: bool, w': World)
    requires id in w.requests && w.requests[id].Leased?
  {
    var lease := Finished(w.requests[id].lease, worker);
    if Spent(lease)
    then w' == World(w.permits + 1, w.requests[id := Leased(lease)], w.log + [Gave(id)])
    else w' == w.(requests := w.requests[id := Leased(lease)])
  }

  ghost predicate Init(w: World) {
    w == World(1, map[], [])
  }

  ghost predicate IsRun(ws: seq<World>, actions: seq<Action>) {
    && |ws| == |actions| + 1 && Init(ws[0])
    && forall i | 0 <= i < |actions| :: Step(ws[i], actions[i], ws[i + 1])
  }

  // ----- the invariant -----

  /** The one permit is free and nobody holds it, or it is held by one request. */
  ghost predicate OneHolder(w: World) {
    && w.permits <= 1
    && (w.permits == 1 ==> forall id | id in w.requests :: !Holds(w.requests[id]))
    && (w.permits == 0 ==> exists id | id in w.requests :: Holds(w.requests[id]))
    && (forall i, j | i in w.requests && j in w.requests && Holds(w.requests[i]) && Holds(w.requests[j]) :: i == j)
  }

  function Takes(log: seq<Event>, id: RequestId): nat {
    if log == [] then 0 else Takes(log[..|log| - 1], id) + if log[|log| - 1] == Took(id) then 1 else 0
  }

  function Gives(log: seq<Event>, id: RequestId): nat {
    if log == [] then 0 else Gives(log[..|log| - 1], id) + if log[|log| - 1] == Gave(id) then 1 else 0
  }

  /** A request that was admitted took the permit once, and gave it back once unless it still holds it. */
  ghost predicate Counted(w: World) {
    && (forall id | id in w.requests ::
          && Takes(w.log, id) == (if w.requests[id].Rejected? then 0 else 1)
          && Gives(w.log, id) == (if w.requests[id].Rejected? || Holds(w.requests[id]) then 0 else 1))
    && (forall id | id !in w.requests :: Takes(w.log, id) == 0 && Gives(w.log, id) == 0)
  }

  lemma LogGrows(log: seq<Event>, e: Event, id: RequestId)
    ensures Takes(log + [e], id) == Takes(log, id) + if e == Took(id) then 1 else 0
    ensures Gives(log + [e], id) == Gives(log, id) + if e == Gave(id) then 1 else 0
  {
    assert (log + [e])[..|log|] == log;
  }

  lemma StepKeepsHolder(w: World, a: Action, w': World)
    requires OneHolder(w) && Step(w, a, w')
    ensures OneHolder(w')
  {
    var id := a.id;
    assert id in w'.requests;
    if id in w.requests && Holds(w.requests[id]) {
      assert w.permits == 0;
    }
    if w'.permits == 0 && !Holds(w'.requests[id]) {
      assert w.permits == 0;
      var h :| h in w.requests && Holds(w.requests[h]);
      assert h in w'.requests && w'.requests[h] == w.requests[h];
    }
  }

  lemma StepKeepsCounts(w: World, a: Action, w': World)
    requires Counted(w) && Step(w, a, w')
    ensures Counted(w')
  {
    if w'.log != w.log {
      var e := w'.log[|w.log|];
      assert w'.log == w.log + [e];
      forall id
        ensures Takes(w'.log, id) == Takes(w.log, id) + if e == Took(id) then 1 else 0
        ensures Gives(w'.log, id) == Gives(w.log, id) + if e == Gave(id) then 1 else 0
      {
        LogGrows(w.log, e, id);
      }
    }
  }

  lemma {:induction false} Always(ws: seq<World>, actions: seq<Action>, i: nat)
    requires IsRun(ws, actions) && i <= |actions|
    ensures OneHolder(ws[i]) && Counted(ws[i])
  {
    if i > 0 {
      Always(ws, actions, i - 1);
      StepKeepsHolder(ws[i - 1], actions[i - 1], ws[i]);
      StepKeepsCounts(ws[i - 1], actions[i - 1], ws[i]);
    }
  }

  // ----- what the lease is for -----

  /** In every state of every run at most one bundle is being built, and only under the permit. */
  lemma OneBundleTheorem(ws: seq<World>, actions: seq<Action>, i: nat, a: RequestId, b: RequestId)
    requires IsRun(ws, actions) && i <= |actions|
    requires a in ws[i].requests && Running(ws[i].requests[a])
    requires b in ws[i].requests && Running(ws[i].requests[b])
    ensures a == b && ws[i].permits == 0
  {
    Always(ws, actions, i);
  }

  /** An admitted request gives the permit back exactly once, and exactly when its worker and its
      coroutine have both ended, or when it could not be scheduled. */
  lemma ReleaseTheorem(ws: seq<World>, actions: seq<Action>, i: nat, id: RequestId)
    requires IsRun(ws, actions) && i <= |actions| && id in ws[i].requests
    ensures Gives(ws[i].log, id) <= Takes(ws[i].log, id) <= 1
    ensures Gives(ws[i].log, id) == 1
       <==> ws[i].requests[id].Unscheduled? || (ws[i].requests[id].Leased? && Spent(ws[i].requests[id].lease))
    ensures Running(ws[i].requests[id]) ==> Gives(ws[i].log, id) == 0
  {
    Always(ws, actions, i);
  }

  /** This ending has happened. */
  ghost predicate Happened(actions: seq<Action>, i: nat, a: Action) {
    exists k: nat | k < i :: k < |actions| && actions[k] == a
  }

  lemma HappenedNext(actions: seq<Action>, i: nat, a: Action)
    requires i < |actions|
    ensures Happened(actions, i + 1, a) <==> Happened(actions, i, a) || actions[i] == a
  {
    if Happened(actions, i, a) {
      var k: nat :| k < i && k < |actions| && actions[k] == a;
      assert k < i + 1;
    }
  }

  /** The endings that the request's lease has noted. */
  function Noted(w: World, id: RequestId): Lease {
    if id in w.requests && w.requests[id].Leased? then w.requests[id].lease else Lease(false, false)
  }

  lemma NotedNext(w: World, a: Action, w': World, id: RequestId)
    requires Step(w, a, w')
    ensures Noted(w', id).workerDone <==> Noted(w, id).workerDone || a == EndWorker(id)
    ensures Noted(w', id).closed <==> Noted(w, id).closed || a == EndCoroutine(id)
  {
  }

  /** The lease of a request notes exactly the endings that have happened. */
  lemma {:induction false} LeaseNotes(ws: seq<World>, actions: seq<Action>, i: nat, id: RequestId)
    requires IsRun(ws, actions) && i <= |actions|
    ensures Noted(ws[i], id).workerDone <==> Happened(actions, i, EndWorker(id))
    ensures Noted(ws[i], id).closed <==> Happened(actions, i, EndCoroutine(id))
  {
    if i > 0 {
      LeaseNotes(ws, actions, i - 1, id);
      HappenedNext(actions, i - 1, EndWorker(id));
      HappenedNext(actions, i - 1, EndCoroutine(id));
      NotedNext(ws[i - 1], actions[i - 1], ws[i], id);
    }
  }

  /** So a scheduled request has given the permit back exactly when both of its endings have happened. */
  lemma BothEndingsRelease(ws: seq<World>, actions: seq<Action>, i: nat, id: RequestId)
    requires IsRun(ws, actions) && i <= |actions| && id in ws[i].requests && ws[i].requests[id].Leased?
    ensures Gives(ws[i].log, id) == 1
       <==> Happened(actions, i, EndWorker(id)) && Happened(actions, i, EndCoroutine(id))
  {
    ReleaseTheorem(ws, actions, i, id);
    LeaseNotes(ws, actions, i, id);
  }

  /** Once every admitted request is over, the next one is admitted. */
  lemma PermitReturns(ws: seq<World>, actions: seq<Action>, i: nat)
    requires IsRun(ws, actions) && i <= |actions|
    ensures ws[i].permits == 1 <==> forall id | id in ws[i].requests :: !Holds(ws[i].requests[id])
  {
    Always(ws, actions, i);
  }
}

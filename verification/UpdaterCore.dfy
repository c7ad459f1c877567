// The state behind `Updater.lock` and one function per lock region
// (backend/app/updater.py:392-727, backend/app/update_runtime.py:99-207), with the classes that
// change that state in place.
module UpdaterCore {
  import opened Common

  datatype Phase = Idle | Checking | Downloading | Ready | Installing | Error

  /** A workflow run is identified by its id and attempt. */
  datatype Run = Run(id: nat, attempt: nat)
  datatype Candidate = Candidate(id: nat, run: Run)
  /** A verified installer: the stage directory that holds it and the run it came from. */
  datatype Prepared = Prepared(stage: nat, run: Run)
  datatype Deadline = Never | At(time: real)

  /** What the broker has written to accepted.json for its own nonce. */
  datatype Answer = Silent | Accepted | Refused
  datatype Process = Absent | Running | Exited
  /** One broker attempt: the installer it was given, its answer, and the files written to it. */
  datatype Broker = Broker(installer: nat, answer: Answer, go: bool, cancelled: bool)
  datatype Runtime = Runtime(nonce: Option<nat>, process: Process, brokers: map<nat, Broker>)

  datatype Shared = Shared(
    supported: bool,
    phase: Phase,
    candidate: Option<Candidate>,
    prepared: Option<Prepared>,
    handoff: bool,
    handoffId: Option<nat>,
    deadline: Deadline,
    armed: bool,
    busy: bool,
    stage: Option<nat>,
    runtime: Runtime)

  const HANDOFF_SECONDS := 15.0

  predicate Expired(deadline: Deadline, now: real) {
    deadline.At? && now >= deadline.time
  }

  // ----- broker side -----

  function Forgotten(r: Runtime): Runtime {
    r.(nonce := None, process := Absent)
  }

  function Spawned(r: Runtime, nonce: nat, installer: nat): Runtime {
    Runtime(Some(nonce), Running, r.brokers[nonce := Broker(installer, Silent, false, false)])
  }

  predicate CanArm(r: Runtime) {
    r.process.Running? && r.nonce.Some? && r.nonce.value in r.brokers
  }

  function GoWritten(r: Runtime): Runtime
    requires CanArm(r)
  {
    var n := r.nonce.value;
    r.(brokers := r.brokers[n := r.brokers[n].(go := true)])
  }

  /** cancel.json is written when an attempt is current; an OSError is swallowed by the callers. */
  function CancelWritten(r: Runtime, writes: bool): Runtime {
    if writes && r.nonce.Some? && r.nonce.value in r.brokers then
      var n := r.nonce.value;
      r.(brokers := r.brokers[n := r.brokers[n].(cancelled := true)])
    else r
  }

  predicate Failed(r: Runtime) {
    || r.process.Exited?
    || (r.nonce.Some? && r.nonce.value in r.brokers && r.brokers[r.nonce.value].answer.Refused?)
  }

  // ----- lock regions -----

  predicate Admissible(s: Shared) {
    s.supported && !(s.phase.Checking? || s.phase.Downloading? || s.phase.Installing?) && !s.handoff
  }

  function Restored(s: Shared): Phase {
    if s.prepared.Some? then Ready else Error
  }

  function Check(s: Shared, threadStarts: bool): (Shared, bool) {
    if !Admissible(s) || s.busy then (s, false)
    else if threadStarts then (s.(busy := true, phase := Checking), true)
    else (s.(busy := false, phase := Error), false)
  }

  function Schedule(s: Shared): (Shared, bool) {
    if s.supported && (s.phase.Idle? || s.phase.Ready? || s.phase.Error?) && !s.handoff && !s.busy
    then (s.(busy := true), true) else (s, false)
  }

  predicate Holds(s: Shared, run: Run) {
    s.prepared.Some? && s.prepared.value.run == run
  }

  /** The region of `_cycle`; the flag says that there is nothing to download. */
  function Compare(s: Shared, run: Option<Run>, announce: bool): (Shared, bool) {
    if run.Some? && !Holds(s, run.value) then (s, false)
    else if !announce then (s, true)
    else if s.prepared.None? then (s.(phase := Idle, candidate := None), true)
    else (s.(phase := Ready), true)
  }

  function BeginDownload(s: Shared): (Shared, bool) {
    if s.handoff || s.phase.Installing? then (s, false) else (s.(phase := Downloading), true)
  }

  function OpenStage(s: Shared, stage: nat): Shared {
    s.(stage := Some(stage))
  }

  function Protected(s: Shared): set<nat> {
    (if s.prepared.Some? then {s.prepared.value.stage} else {}) + (if s.stage.Some? then {s.stage.value} else {})
  }

  function CloseStage(s: Shared): Shared {
    s.(stage := None)
  }

  function Publish(s: Shared, stage: nat, candidate: Candidate): Shared {
    s.(prepared := Some(Prepared(stage, candidate.run)), candidate := Some(candidate), phase := Ready)
  }

  function FailDownload(s: Shared): Shared {
    s.(phase := Restored(s))
  }

  function FailOperation(s: Shared): Shared {
    if s.phase.Checking? || s.phase.Downloading? then s.(phase := Restored(s)) else s
  }

  predicate MayPurge(s: Shared) {
    !s.handoff && !s.phase.Installing?
  }

  function Release(s: Shared): Shared {
    s.(busy := false)
  }

  datatype Admission = Rejected | Missing | Admitted

  function Install(s: Shared, candidateId: nat, installerPresent: bool, operation: nat): (Shared, Admission) {
    if !Admissible(s) || s.candidate.None? || s.candidate.value.id != candidateId then (s, Rejected)
    else if !s.phase.Ready? || s.prepared.None? then (s, Rejected)
    else if !installerPresent then (s.(prepared := None, phase := Idle, candidate := None), Missing)
    else (s.(runtime := Forgotten(s.runtime), handoff := true, handoffId := Some(operation), deadline := Never,
             armed := false, phase := Installing), Admitted)
  }

  function Bound(s: Shared, now: real): Shared {
    s.(deadline := At(now + HANDOFF_SECONDS))
  }

  function ClearHandoff(s: Shared): Shared {
    s.(handoffId := None, handoff := false)
  }

  function FailInstall(s: Shared, operation: nat): Shared {
    if s.handoffId == Some(operation) then ClearHandoff(s).(phase := Ready) else s
  }

  function Cancelled(s: Shared, writes: bool): Shared {
    ClearHandoff(s).(runtime := CancelWritten(s.runtime, writes), phase := Restored(s))
  }

  function CancelInstall(s: Shared, operation: nat, writes: bool): Shared {
    if s.handoffId == Some(operation) && !s.armed then Cancelled(s, writes) else s
  }

  predicate Arms(s: Shared, operation: nat, now: real, goWrites: bool) {
    && s.handoffId == Some(operation) && !s.armed
    && !Expired(s.deadline, now) && CanArm(s.runtime) && goWrites
  }

  function Arm(s: Shared, operation: nat, now: real, goWrites: bool, writes: bool): Shared {
    if s.handoffId != Some(operation) || s.armed then s
    else if Arms(s, operation, now, goWrites) then s.(runtime := GoWritten(s.runtime), armed := true)
    else Cancelled(s, writes)
  }

  predicate WatchCancels(s: Shared, now: real) {
    s.handoff && (Failed(s.runtime) || (!s.armed && Expired(s.deadline, now)))
  }

  function Watch(s: Shared, now: real, writes: bool): Shared {
    if WatchCancels(s, now) then Cancelled(s, writes) else s
  }

  // ----- the newest eligible run (`_latest_run`) -----

  /** A run as GitHub lists it, with the verdict of the eligibility filter. */
  datatype Listed = Listed(run: Run, number: nat, eligible: bool)

  predicate Precedes(a: (nat, nat), b: (nat, nat)) {
    a.0 < b.0 || (a.0 == b.0 && a.1 < b.1)
  }

  function Order(l: Listed): (nat, nat) {
    (l.number, l.run.attempt)
  }

  /** `build` is the running build's order when it came from the configured repository. */
  method LatestRun(listed: seq<Listed>, build: Option<(nat, nat)>) returns (run: Option<Run>)
    ensures run.Some? ==> exists l | l in listed ::
              && l.eligible && l.run == run.value
              && (build.Some? ==> Precedes(build.value, Order(l)))
              && forall o | o in listed && o.eligible :: !Precedes(Order(l), Order(o))
    ensures run.None? <==> forall o | o in listed && o.eligible :: build.Some? && !Precedes(build.value, Order(o))
  {
    var best: Option<Listed> := None;
    for i := 0 to |listed|
      invariant best.None? ==> forall o | o in listed[..i] :: !o.eligible
      invariant best.Some? ==> best.value in listed && best.value.eligible
      invariant best.Some? ==> forall o | o in listed[..i] && o.eligible :: !Precedes(Order(best.value), Order(o))
    {
      if listed[i].eligible && (best.None? || Precedes(Order(best.value), Order(listed[i]))) {
        best := Some(listed[i]);
      }
    }
    assert listed[..|listed|] == listed;
    if best.None? || (build.Some? && !Precedes(build.value, Order(best.value))) {
      run := None;
    } else {
      run := Some(best.value.run);
    }
  }

  // ----- classes -----

  class UpdateRuntime {
    var nonce: Option<nat>
    var process: Process
    var brokers: map<nat, Broker>

    function View(): Runtime
      reads this
    {
      Runtime(nonce, process, brokers)
    }

    constructor ()
      ensures View() == Runtime(None, Absent, map[])
    {
      nonce, process, brokers := None, Absent, map[];
    }

    method Reset()
      modifies this
      ensures View() == Forgotten(old(View()))
    {
      nonce, process := None, Absent;
    }

    /** `start` up to the point where the broker process exists. */
    method Spawn(newNonce: nat, installer: nat)
      modifies this
      ensures View() == Spawned(old(View()), newNonce, installer)
    {
      Reset();
      brokers := brokers[newNonce := Broker(installer, Silent, false, false)];
      nonce, process := Some(newNonce), Running;
    }

    /** `_await_accept`: each poll sees an answer and whether the process has exited. The
        attempt is accepted exactly when the first decisive poll is an acceptance. */
    static method AwaitAccept(polls: seq<(Answer, bool)>) returns (accepted: bool)
      ensures accepted <==> exists k | 0 <= k < |polls| ::
                polls[k].0.Accepted? && forall i | 0 <= i < k :: polls[i].0.Silent? && !polls[i].1
    {
      for i := 0 to |polls|
        invariant forall j | 0 <= j < i :: polls[j].0.Silent? && !polls[j].1
      {
        if polls[i].0.Accepted? {
          return true;
        }
        if polls[i].0.Refused? || polls[i].1 {
          return false;
        }
      }
      return false;
    }

    /** Writes go.json; raises when the helper is unavailable or the write fails. */
    method Arm(writes: bool) returns (ok: bool)
      modifies this
      ensures ok == (CanArm(old(View())) && writes)
      ensures View() == if ok then GoWritten(old(View())) else old(View())
    {
      ok := process.Running? && nonce.Some? && nonce.value in brokers && writes;
      if ok {
        brokers := brokers[nonce.value := brokers[nonce.value].(go := true)];
      }
    }

    method Cancel(writes: bool)
      modifies this
      ensures View() == CancelWritten(old(View()), writes)
    {
      if writes && nonce.Some? && nonce.value in brokers {
        brokers := brokers[nonce.value := brokers[nonce.value].(cancelled := true)];
      }
    }
  }

  class Updater {
    const runtime: UpdateRuntime
    var supported: bool
    var phase: Phase
    var candidate: Option<Candidate>
    var prepared: Option<Prepared>
    var handoff: bool
    var handoffId: Option<nat>
    var deadline: Deadline
    var armed: bool
    var busy: bool
    var stage: Option<nat>

    function View(): Shared
      reads this, runtime
    {
      Shared(supported, phase, candidate, prepared, handoff, handoffId, deadline, armed, busy, stage, runtime.View())
    }

    constructor (runtime: UpdateRuntime)
      ensures this.runtime == runtime
      ensures View() == Shared(true, Idle, None, None, false, None, At(0.0), false, false, None, runtime.View())
    {
      this.runtime := runtime;
      supported, phase, candidate, prepared := true, Idle, None, None;
      handoff, handoffId, deadline, armed, busy, stage := false, None, At(0.0), false, false, None;
    }

    method CheckNow(threadStarts: bool) returns (started: bool)
      modifies this
      ensures (View(), started) == Check(old(View()), threadStarts)
    {
      if !Admissible(View()) || busy {
        return false;
      }
      busy := true;
      phase := Checking;
      if !threadStarts {
        busy := false;
        phase := Error;
      }
      return threadStarts;
    }

    method ScheduledCycle() returns (started: bool)
      modifies this
      ensures (View(), started) == Schedule(old(View()))
    {
      if !supported || !(phase.Idle? || phase.Ready? || phase.Error?) || handoff || busy {
        return false;
      }
      busy := true;
      return true;
    }

    method CompareRun(run: Option<Run>, announce: bool) returns (done: bool)
      modifies this
      ensures (View(), done) == Compare(old(View()), run, announce)
    {
      done := run.None? || (prepared.Some? && prepared.value.run == run.value);
      if done && announce {
        if prepared.None? {
          phase, candidate := Idle, None;
        } else {
          phase := Ready;
        }
      }
    }

    method StartDownload() returns (proceed: bool)
      modifies this
      ensures (View(), proceed) == BeginDownload(old(View()))
    {
      proceed := !(handoff || phase.Installing?);
      if proceed {
        phase := Downloading;
      }
    }

    method RegisterStage(newStage: nat) returns (protected: set<nat>)
      modifies this
      ensures View() == OpenStage(old(View()), newStage) && protected == Protected(View())
    {
      stage := Some(newStage);
      protected := {newStage};
      if prepared.Some? {
        protected := protected + {prepared.value.stage};
      }
    }

    method ReleaseStage()
      modifies this
      ensures View() == CloseStage(old(View()))
    {
      stage := None;
    }

    method PublishInstaller(verified: nat, newCandidate: Candidate)
      modifies this
      ensures View() == Publish(old(View()), verified, newCandidate)
    {
      prepared := Some(Prepared(verified, newCandidate.run));
      phase, candidate := Ready, Some(newCandidate);
    }

    method DownloadFailed()
      modifies this
      ensures View() == FailDownload(old(View()))
    {
      phase := if prepared.Some? then Ready else Error;
    }

    method OperationFailed()
      modifies this
      ensures View() == FailOperation(old(View()))
    {
      if phase.Checking? || phase.Downloading? {
        phase := if prepared.Some? then Ready else Error;
      }
    }

    method Finish()
      modifies this
      ensures View() == Release(old(View()))
    {
      busy := false;
    }

    method InstallUpdate(candidateId: nat, installerPresent: bool, operation: nat) returns (admission: Admission)
      modifies this, runtime
      ensures (View(), admission) == Install(old(View()), candidateId, installerPresent, operation)
    {
      if !Admissible(View()) || candidate.None? || candidate.value.id != candidateId
         || !phase.Ready? || prepared.None? {
        return Rejected;
      }
      if !installerPresent {
        prepared, phase, candidate := None, Idle, None;
        return Missing;
      }
      runtime.Reset();
      handoff, handoffId, deadline, armed, phase := true, Some(operation), Never, false, Installing;
      return Admitted;
    }

    method BoundHandoff(now: real)
      modifies this
      ensures View() == Bound(old(View()), now)
    {
      deadline := At(now + HANDOFF_SECONDS);
    }

    method InstallFailed(operation: nat)
      modifies this
      ensures View() == FailInstall(old(View()), operation)
    {
      if handoffId == Some(operation) {
        handoffId, handoff, phase := None, false, Ready;
      }
    }

    method CancelLocked(writes: bool)
      modifies this, runtime
      ensures View() == Cancelled(old(View()), writes)
    {
      runtime.Cancel(writes);
      handoffId, handoff := None, false;
      phase := if prepared.Some? then Ready else Error;
    }

    method CancelHandoff(operation: nat, writes: bool)
      modifies this, runtime
      ensures View() == CancelInstall(old(View()), operation, writes)
    {
      if handoffId == Some(operation) && !armed {
        CancelLocked(writes);
      }
    }

    method ArmHandoff(operation: nat, now: real, goWrites: bool, writes: bool)
      modifies this, runtime
      ensures View() == Arm(old(View()), operation, now, goWrites, writes)
    {
      if handoffId != Some(operation) || armed {
        return;
      }
      if Expired(deadline, now) {
        CancelLocked(writes);
      } else {
        var ok := runtime.Arm(goWrites);
        if ok {
          armed := true;
        } else {
          CancelLocked(writes);
        }
      }
    }

    method WritesBlocked(now: real, writes: bool) returns (blocked: bool)
      modifies this, runtime
      ensures View() == Watch(old(View()), now, writes) && blocked == View().handoff
    {
      if handoff && (Failed(runtime.View()) || (!armed && Expired(deadline, now))) {
        CancelLocked(writes);
      }
      return handoff;
    }
  }
}

// The updater as a machine of interleaved atomic steps: background workers, one installation
// call at a time, response callbacks, watchdog polls, brokers and the outside world. Every lock
// region is one step; so is every action between two regions.
module UpdateMachine {
  import opened Common
  import opened Staging
  import opened UpdaterCore
  import opened ResponseDelivery

  /** Where a `_run_guarded` thread is between two steps. */
  datatype WorkerPc =
    | Looking(announce: bool)
    | Comparing(announce: bool, found: Option<Run>)
    | Resolving(announce: bool, run: Run)
    | Selecting(announce: bool, candidate: Candidate)
    | Opening(candidate: Candidate)
    | Pruning(candidate: Candidate, stage: nat, protected: set<nat>)
    | Fetching(candidate: Candidate, stage: nat)
    | Discarding(stage: nat)
    | Clearing(stage: nat)
    | Closing(candidate: Candidate, stage: nat)
    | Publishing(candidate: Candidate, stage: nat)
    | DownloadFailing
    | OperationFailing
    | Reconciling
    | Releasing

  /** Where the single `install_update` call in flight is; it occupies the event loop. */
  datatype InstallPc =
    | NoInstall
    | Starting(operation: nat, installer: nat)
    | Awaiting(operation: nat)
    | Bounding(operation: nat)
    | Spawning(operation: nat)
    | Failing(operation: nat)
    | Cancelling(operation: nat)

  /** History: the commit file was written (with its time and deadline), or the handoff ended. */
  datatype Event = Went(operation: nat, at: real, limit: real) | Ended(operation: nat)

  datatype World = World(
    shared: Shared,
    workers: map<nat, WorkerPc>,
    install: InstallPc,
    /** Responses in flight that carry a pending handoff, and those already finalised. */
    requests: map<nat, Trace>,
    finalised: map<nat, Trace>,
    disk: Disk,
    now: real,
    /** Identifiers already drawn. */
    operations: set<nat>,
    stages: set<nat>,
    /** Stages whose files something outside the updater removed. */
    vanished: set<nat>,
    /** The operation each broker nonce was created for. */
    owners: map<nat, nat>,
    /** What each operation was admitted with, and when its broker accepted. */
    promised: map<nat, Prepared>,
    bounded: map<nat, real>,
    log: seq<Event>)

  ghost predicate Init(w: World) {
    && w.shared.supported && w.shared.phase.Idle? && w.shared.candidate.None? && w.shared.prepared.None?
    && !w.shared.handoff && w.shared.handoffId.None? && !w.shared.armed && !w.shared.busy && w.shared.stage.None?
    && w.shared.runtime == Runtime(None, Absent, map[])
    && w.workers == map[] && w.install.NoInstall? && w.requests == map[] && w.finalised == map[]
    && w.disk.Keys <= w.stages && w.operations == {} && w.owners == map[]
    && w.promised == map[] && w.bounded == map[] && w.log == []
  }

  datatype WorkerAction =
    | StartCheck(tid: nat, threadStarts: bool)
    | StartScheduled(tid: nat)
    | Look(tid: nat, outcome: Option<Option<Run>>)
    | CompareRun(tid: nat)
    | Resolve(tid: nat, selected: Option<nat>)
    | Select(tid: nat)
    | Open(tid: nat, stage: Option<nat>)
    | Prune(tid: nat, made: bool, disk: Disk)
    | Fetch(tid: nat, verified: bool, artifacts: set<Artifact>)
    | Discard(tid: nat, disk: Disk)
    | Clear(tid: nat)
    | Close(tid: nat)
    | PublishInstaller(tid: nat)
    | DownloadFails(tid: nat)
    | OperationFails(tid: nat)
    | Reconcile(tid: nat, disk: Disk)
    | Finish(tid: nat)

  datatype HandoffAction =
    | AdmitInstall(candidateId: nat, operation: nat)
    | Spawn(created: Option<nat>, directory: nat, modified: int)
    | Answered(accepted: bool)
    | BoundHandoff
    | StartWatchdog(threadStarts: bool)
    | InstallFails
    | CancelOutside(writes: bool)
    | Deliver(operation: nat, event: AsgiEvent)
    | Finalise(operation: nat, goWrites: bool, writes: bool)
    | Observe(writes: bool)

  datatype EnvironmentAction =
    | BrokerAnswers(nonce: nat, answer: Answer)
    | BrokerExits
    | Tick(time: real)
    | Vanish(stage: nat, disk: Disk)

  datatype Step = Work(work: WorkerAction) | Handoff(move: HandoffAction) | Environment(change: EnvironmentAction)

  // ----- worker steps -----

  function Goto(w: World, tid: nat, pc: WorkerPc): World {
    w.(workers := w.workers[tid := pc])
  }

  ghost predicate WorkerStep(w: World, a: WorkerAction, w': World)
  {
    match a
    case StartCheck(tid, threadStarts) =>
      && tid !in w.workers
      && var (s, started) := Check(w.shared, threadStarts);
         if started then w' == Goto(w, tid, Looking(true)).(shared := s) else w' == w.(shared := s)
    case StartScheduled(tid) =>
      && tid !in w.workers
      && var (s, started) := Schedule(w.shared);
         if started then w' == Goto(w, tid, Looking(false)).(shared := s) else w' == w.(shared := s)
    case Look(tid, outcome) =>
      && tid in w.workers && w.workers[tid].Looking?
      && w' == Goto(w, tid, if outcome.None? then OperationFailing
                            else Comparing(w.workers[tid].announce, outcome.value))
    case CompareRun(tid) =>
      && tid in w.workers && w.workers[tid].Comparing?
      && var pc := w.workers[tid];
         var (s, done) := Compare(w.shared, pc.found, pc.announce);
         w' == Goto(w, tid, if done || pc.found.None? then Reconciling
                          else Resolving(pc.announce, pc.found.value)).(shared := s)
    case Resolve(tid, selected) =>
      && tid in w.workers && w.workers[tid].Resolving?
      && var pc := w.workers[tid];
         w' == Goto(w, tid, if selected.None? then OperationFailing
                          else Selecting(pc.announce, Candidate(selected.value, pc.run)))
    case Select(tid) =>
      && tid in w.workers && w.workers[tid].Selecting?
      && var (s, proceed) := BeginDownload(w.shared);
         w' == Goto(w, tid, if proceed then Opening(w.workers[tid].candidate) else Reconciling).(shared := s)
    case Open(tid, stage) =>
      && tid in w.workers && w.workers[tid].Opening?
      && if stage.None? then // there is no directory for stages
           w' == Goto(w, tid, DownloadFailing)
         else
           && stage.value !in w.stages
           && var s := OpenStage(w.shared, stage.value);
              w' == Goto(w, tid, Pruning(w.workers[tid].candidate, stage.value, Protected(s)))
                      .(shared := s, stages := w.stages + {stage.value})
    case Prune(tid, made, disk) =>
      && tid in w.workers && w.workers[tid].Pruning?
      && var pc := w.workers[tid];
         if made then
           && pc.stage in disk && disk[pc.stage].artifacts == {}
           && Pruned(w.disk[pc.stage := disk[pc.stage]], pc.protected, STAGE_KEEP, disk)
           && w' == Goto(w, tid, Fetching(pc.candidate, pc.stage)).(disk := disk)
         else
           w' == Goto(w, tid, Discarding(pc.stage))
    case Fetch(tid, verified, artifacts) =>
      && tid in w.workers && w.workers[tid].Fetching?
      && var pc := w.workers[tid];
         var disk := if pc.stage in w.disk then w.disk[pc.stage := w.disk[pc.stage].(artifacts := artifacts)]
                     else w.disk;
         if verified then
           pc.stage in w.disk && artifacts == {Installer}
           && w' == Goto(w, tid, Closing(pc.candidate, pc.stage)).(disk := disk)
         else
           w' == Goto(w, tid, Discarding(pc.stage)).(disk := disk)
    case Discard(tid, disk) =>
      && tid in w.workers && w.workers[tid].Discarding?
      && OnlyLoses(w.disk, w.workers[tid].stage, disk)
      && w' == Goto(w, tid, Clearing(w.workers[tid].stage)).(disk := disk)
    case Clear(tid) =>
      && tid in w.workers && w.workers[tid].Clearing?
      && w' == Goto(w, tid, DownloadFailing).(shared := CloseStage(w.shared))
    case Close(tid) =>
      && tid in w.workers && w.workers[tid].Closing?
      && w' == Goto(w, tid, Publishing(w.workers[tid].candidate, w.workers[tid].stage)).(shared := CloseStage(w.shared))
    case PublishInstaller(tid) =>
      && tid in w.workers && w.workers[tid].Publishing?
      && w' == Goto(w, tid, Reconciling).(shared := Publish(w.shared, w.workers[tid].stage, w.workers[tid].candidate))
    case DownloadFails(tid) =>
      && tid in w.workers && w.workers[tid].DownloadFailing?
      && w' == Goto(w, tid, OperationFailing).(shared := FailDownload(w.shared))
    case OperationFails(tid) =>
      && tid in w.workers && w.workers[tid].OperationFailing?
      && w' == Goto(w, tid, Reconciling).(shared := FailOperation(w.shared))
    case Reconcile(tid, disk) =>
      && tid in w.workers && w.workers[tid].Reconciling?
      && (if MayPurge(w.shared) then Purged(w.disk, Protected(w.shared), disk) else disk == w.disk)
      && w' == Goto(w, tid, Releasing).(disk := disk)
    case Finish(tid) =>
      && tid in w.workers && w.workers[tid].Releasing?
      && w' == w.(shared := Release(w.shared), workers := w.workers - {tid})
  }

  /** rmtree of one stage, best effort. */
  ghost predicate OnlyLoses(before: Disk, stage: nat, after: Disk) {
    && before.Keys - {stage} <= after.Keys <= before.Keys
    && (forall s | s in after && s != stage :: after[s] == before[s])
    && (stage in after ==> after[stage].artifacts <= before[stage].artifacts)
  }

  // ----- handoff steps -----

  /** The history of the handoff follows from what a step does to the shared state. */
  function Recorded(w: World, s: Shared): seq<Event> {
    if w.shared.handoffId.None? then w.log
    else if s.handoffId != w.shared.handoffId then w.log + [Ended(w.shared.handoffId.value)]
    else if s.armed && !w.shared.armed then
      w.log + [Went(w.shared.handoffId.value, w.now, if w.shared.deadline.At? then w.shared.deadline.time else w.now)]
    else w.log
  }

  function Update(w: World, s: Shared): World {
    w.(shared := s, log := Recorded(w, s))
  }

  /** `install_update`'s lock region looks for the installer file itself. */
  function Admit(w: World, candidateId: nat, operation: nat): (Shared, Admission) {
    var present := w.shared.prepared.Some? && HasInstaller(w.disk, w.shared.prepared.value.stage);
    Install(w.shared, candidateId, present, operation)
  }

  ghost predicate HandoffStep(w: World, a: HandoffAction, w': World)
  {
    match a
    case AdmitInstall(candidateId, operation) =>
      && w.install.NoInstall? && operation !in w.operations
      && var (s, admission) := Admit(w, candidateId, operation);
         if admission.Admitted? && w.shared.prepared.Some? then
           w' == w.(shared := s, install := Starting(operation, w.shared.prepared.value.stage),
                    operations := w.operations + {operation},
                    promised := w.promised[operation := w.shared.prepared.value])
         else
           w' == w.(shared := s)
    case Spawn(created, directory, modified) =>
      && w.install.Starting? && directory !in w.stages
      && var placed := w.(disk := w.disk[directory := Stage(modified, {})], stages := w.stages + {directory});
         if w.shared.runtime.process.Running? then
           w' == w.(install := Failing(w.install.operation))
         else if created.None? then
           || w' == placed.(install := Failing(w.install.operation))
           || w' == placed.(install := Failing(w.install.operation), disk := w.disk)
         else
           created.value !in w.owners
           && var spawned := Spawned(w.shared.runtime, created.value, w.install.installer);
              w' == placed.(shared := w.shared.(runtime := spawned),
                            install := Awaiting(w.install.operation),
                            owners := w.owners[created.value := w.install.operation])
    case Answered(accepted) =>
      && w.install.Awaiting?
      && if accepted then
           w' == w.(install := Bounding(w.install.operation))
         else
           w' == w.(install := Failing(w.install.operation),
                    shared := w.shared.(runtime := Forgotten(w.shared.runtime)))
    case BoundHandoff =>
      && w.install.Bounding?
      && w' == w.(install := Spawning(w.install.operation), shared := Bound(w.shared, w.now),
                  bounded := w.bounded[w.install.operation := w.now])
    case StartWatchdog(threadStarts) =>
      && w.install.Spawning?
      && if threadStarts then
           w' == w.(install := NoInstall, requests := w.requests[w.install.operation := []])
         else
           w' == w.(install := Failing(w.install.operation))
    case InstallFails =>
      && w.install.Failing?
      && w' == Update(w, FailInstall(w.shared, w.install.operation)).(install := Cancelling(w.install.operation))
    case CancelOutside(writes) =>
      && w.install.Cancelling?
      && w' == w.(shared := w.shared.(runtime := CancelWritten(w.shared.runtime, writes)), install := NoInstall)
    case Deliver(operation, event) =>
      && operation in w.requests
      && w' == w.(requests := w.requests[operation := w.requests[operation] + [event]])
    case Finalise(operation, goWrites, writes) =>
      && operation in w.requests
      && var v := w.(requests := w.requests - {operation},
                     finalised := w.finalised[operation := w.requests[operation]]);
         w' == Update(v, if Armable(Follow(w.requests[operation]))
                         then Arm(w.shared, operation, w.now, goWrites, writes)
                         else CancelInstall(w.shared, operation, writes))
    case Observe(writes) =>
      w' == Update(w, Watch(w.shared, w.now, writes))
  }

  // ----- environment steps -----

  ghost predicate EnvironmentStep(w: World, a: EnvironmentAction, w': World)
  {
    match a
    case BrokerAnswers(nonce, answer) =>
      && var r := w.shared.runtime;
         nonce in r.brokers
         && var brokers := r.brokers[nonce := r.brokers[nonce].(answer := answer)];
            w' == w.(shared := w.shared.(runtime := r.(brokers := brokers)))
    case BrokerExits =>
      && w.shared.runtime.process.Running?
      && w' == w.(shared := w.shared.(runtime := w.shared.runtime.(process := Exited)))
    case Tick(time) => time >= w.now && w' == w.(now := time)
    case Vanish(stage, disk) =>
      OnlyLoses(w.disk, stage, disk) && w' == w.(disk := disk, vanished := w.vanished + {stage})
  }

  ghost predicate Next(w: World, a: Step, w': World) {
    match a
    case Work(work) => WorkerStep(w, work, w')
    case Handoff(move) => HandoffStep(w, move, w')
    case Environment(change) => EnvironmentStep(w, change, w')
  }

  /** A run of the machine: `states[i+1]` follows `states[i]` by `steps[i]`. */
  ghost predicate IsRun(states: seq<World>, steps: seq<Step>) {
    && |states| == |steps| + 1
    && Init(states[0])
    && forall i | 0 <= i < |steps| :: Next(states[i], steps[i], states[i + 1])
  }
}

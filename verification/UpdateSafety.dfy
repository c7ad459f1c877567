// What every interleaving of the update machine keeps.
module UpdateSafety {
  import opened Common
  import opened Staging
  import opened UpdaterCore
  import opened ResponseDelivery
  import opened UpdateMachine

  // ----- the shared state on its own -----

  /** handoff exactly in phase installing, `installing` and `ready` only with an installer, and
      the candidate on display names the run of that installer. */
  ghost predicate PhaseInv(s: Shared) {
    && (s.handoff <==> s.phase.Installing?)
    && (s.handoff <==> s.handoffId.Some?)
    && (s.handoff ==> s.prepared.Some?)
    && (s.phase.Ready? ==> s.prepared.Some?)
    && (s.candidate.Some? <==> s.prepared.Some?)
    && (s.prepared.Some? ==> s.candidate.value.run == s.prepared.value.run)
  }

  // ----- workers -----

  function StageOf(pc: WorkerPc): Option<nat> {
    if pc.Pruning? || pc.Fetching? || pc.Discarding? || pc.Clearing? || pc.Closing? then Some(pc.stage) else None
  }

  predicate Transferring(pc: WorkerPc) {
    pc.Opening? || pc.Pruning? || pc.Fetching? || pc.Discarding? || pc.Clearing? || pc.Closing? || pc.Publishing?
    || pc.DownloadFailing?
  }

  /** What a worker at `pc` knows of the shared state, whoever else has run meanwhile. */
  ghost predicate PcInv(s: Shared, pc: WorkerPc) {
    && s.stage == StageOf(pc)
    && (pc.Pruning? ==> pc.protected == Protected(s))
    && (if Transferring(pc) then s.phase.Downloading?
        else if pc.Looking? || pc.Comparing? || pc.Resolving? || pc.Selecting? then
          if pc.announce then s.phase.Checking? else !s.phase.Checking? && !s.phase.Downloading?
        else if pc.OperationFailing? then !s.phase.Downloading?
        else !s.phase.Checking? && !s.phase.Downloading?)
  }

  /** At most one worker exists, and `_busy` says so. */
  ghost predicate WorkerInv(s: Shared, workers: map<nat, WorkerPc>) {
    && (forall t, u | t in workers && u in workers :: t == u)
    && (forall t | t in workers :: s.busy && PcInv(s, workers[t]))
    && (workers == map[] ==> !s.busy && s.stage.None? && !s.phase.Checking? && !s.phase.Downloading?)
  }

  // ----- files -----

  predicate Kept(disk: Disk, vanished: set<nat>, stage: nat) {
    stage in vanished || HasInstaller(disk, stage)
  }

  function StageInUse(pc: WorkerPc): Option<nat> {
    if pc.Publishing? then Some(pc.stage) else StageOf(pc)
  }

  /** The files a worker at `pc` relies on. `Publishing` is the window in which `_stage` is
      cleared and `prepared` not yet set: neither field protects the installer there. */
  ghost predicate PcFiles(w: World, pc: WorkerPc) {
    && (StageInUse(pc).Some? ==>
          && StageInUse(pc).value in w.stages
          && (w.shared.prepared.Some? ==> w.shared.prepared.value.stage != StageInUse(pc).value))
    && (pc.Pruning? ==> pc.stage !in w.disk)
    && (pc.Fetching? ==> pc.stage in w.vanished || pc.stage in w.disk)
    && (pc.Closing? || pc.Publishing? ==> Kept(w.disk, w.vanished, pc.stage))
  }

  ghost predicate FileInv(w: World) {
    && w.disk.Keys <= w.stages
    && (w.shared.prepared.Some? ==>
          && w.shared.prepared.value.stage in w.stages
          && Kept(w.disk, w.vanished, w.shared.prepared.value.stage))
    && (forall t | t in w.workers :: PcFiles(w, w.workers[t]))
  }

  // ----- the handoff -----

  ghost predicate HasWent(log: seq<Event>, operation: nat) {
    exists i | 0 <= i < |log| :: log[i].Went? && log[i].operation == operation
  }

  ghost predicate HasEnded(log: seq<Event>, operation: nat) {
    exists i | 0 <= i < |log| :: log[i].Ended? && log[i].operation == operation
  }

  /** A commit was justified: the operation's response had been fully sent, and the time was
      before the deadline, fifteen seconds after the broker's acceptance was noted. */
  ghost predicate Justified(w: World, e: Event) {
    e.Went? ==>
      && e.operation in w.finalised && FullySent(w.finalised[e.operation])
      && e.operation in w.bounded && e.limit == w.bounded[e.operation] + HANDOFF_SECONDS
      && e.at < e.limit
  }

  /** A commit is the first event of its operation: never a second one, never after the end. */
  ghost predicate LogInv(w: World) {
    && (forall i | 0 <= i < |w.log| :: w.log[i].operation in w.operations && Justified(w, w.log[i]))
    && (forall i, j | 0 <= i < j < |w.log| :: w.log[j].Went? ==> w.log[i].operation != w.log[j].operation)
  }

  /** The handoff in progress belongs to one operation. */
  ghost predicate CurrentInv(w: World) {
    var s := w.shared;
    s.handoffId.Some? ==>
      var op := s.handoffId.value;
      && op in w.operations
      && op in w.promised && s.prepared == Some(w.promised[op])
      && !HasEnded(w.log, op)
      && (s.armed <==> HasWent(w.log, op))
      && (w.install.NoInstall? || w.install.operation == op)
      && !w.install.Cancelling?
      && (w.install.NoInstall? || w.install.Spawning? ==>
            op in w.bounded && s.deadline == At(w.bounded[op] + HANDOFF_SECONDS))
  }

  /** The runtime's current attempt belongs to the operation in progress, if there is one. */
  ghost predicate RuntimeInv(w: World) {
    var r := w.shared.runtime;
    && r.brokers.Keys == w.owners.Keys
    && (r.process.Running? ==> r.nonce.Some?)
    && (r.nonce.Some? ==>
          && r.nonce.value in w.owners
          && (w.shared.handoffId.Some? ==> w.owners[r.nonce.value] == w.shared.handoffId.value)
          && (!w.install.NoInstall? ==> w.owners[r.nonce.value] == w.install.operation))
    && (w.install.Starting? ==> r.nonce.None? && r.process.Absent?)
  }

  /** Every commit file written so far belongs to an operation that was committed, and every
      broker holds the installer its operation was admitted with. */
  ghost predicate BrokerInv(w: World) {
    && (w.install.Starting? ==>
          && w.install.operation in w.promised
          && w.promised[w.install.operation].stage == w.install.installer)
    && forall n | n in w.owners && n in w.shared.runtime.brokers ::
         && w.owners[n] in w.promised
         && w.shared.runtime.brokers[n].installer == w.promised[w.owners[n]].stage
         && (w.shared.runtime.brokers[n].go ==> HasWent(w.log, w.owners[n]))
  }

  /** Operation identifiers are used once: an installation in flight has no response yet. */
  ghost predicate RequestInv(w: World) {
    && w.requests.Keys <= w.operations && w.finalised.Keys <= w.operations
    && w.requests.Keys !! w.finalised.Keys
    && w.promised.Keys == w.operations
    && (!w.install.NoInstall? ==>
          && w.install.operation in w.operations
          && w.install.operation !in w.requests && w.install.operation !in w.finalised)
  }

  ghost predicate HandoffInv(w: World) {
    LogInv(w) && CurrentInv(w) && RuntimeInv(w) && BrokerInv(w) && RequestInv(w)
  }

  ghost predicate Inv(w: World) {
    DownloadInv(w) && HandoffInv(w)
  }

  ghost predicate DownloadInv(w: World) {
    PhaseInv(w.shared) && WorkerInv(w.shared, w.workers) && FileInv(w)
  }

  // ----- frames -----

  predicate SameHandoff(s: Shared, s': Shared) {
    && s'.handoff == s.handoff && s'.handoffId == s.handoffId && s'.deadline == s.deadline && s'.armed == s.armed
    && s'.runtime == s.runtime && (s.handoffId.Some? ==> s'.prepared == s.prepared)
  }

  ghost predicate DownloadOnly(w: World, w': World) {
    && SameHandoff(w.shared, w'.shared)
    && w'.install == w.install && w'.requests == w.requests && w'.finalised == w.finalised && w'.now == w.now
    && w'.operations == w.operations && w'.owners == w.owners && w'.promised == w.promised
    && w'.bounded == w.bounded && w'.log == w.log
  }

  /** Steps that touch only workers, files and the download side leave the handoff alone. */
  lemma HandoffFrame(w: World, w': World)
    requires HandoffInv(w) && DownloadOnly(w, w')
    ensures HandoffInv(w')
  {
  }

  predicate SameDownload(s: Shared, s': Shared) {
    && s'.stage == s.stage && s'.busy == s.busy
    && (s'.phase != s.phase ==>
          && !s.phase.Checking? && !s.phase.Downloading? && !s'.phase.Checking? && !s'.phase.Downloading?)
    && (s'.prepared != s.prepared ==> s'.prepared.None? && !s.phase.Downloading?)
  }

  /** Steps of the handoff leave workers and files alone. */
  lemma DownloadFrame(w: World, w': World)
    requires WorkerInv(w.shared, w.workers) && FileInv(w) && SameDownload(w.shared, w'.shared)
    requires w'.workers == w.workers && w'.disk == w.disk && w'.stages == w.stages && w'.vanished == w.vanished
    ensures WorkerInv(w'.shared, w'.workers) && FileInv(w')
  {
  }

  // ----- worker steps -----

  /** Replacing the one worker's position: what remains to show about it. */
  lemma WorkerMoves(w: World, tid: nat, w': World)
    requires WorkerInv(w.shared, w.workers) && tid in w.workers
    requires tid in w'.workers && w'.workers == w.workers[tid := w'.workers[tid]]
    requires w'.shared.busy && PcInv(w'.shared, w'.workers[tid])
    requires w'.disk.Keys <= w'.stages
    requires w'.shared.prepared.Some? ==>
               && w'.shared.prepared.value.stage in w'.stages
               && Kept(w'.disk, w'.vanished, w'.shared.prepared.value.stage)
    requires PcFiles(w', w'.workers[tid])
    ensures WorkerInv(w'.shared, w'.workers) && FileInv(w')
  {
    assert forall t | t in w'.workers :: t == tid;
  }

  lemma IdleMeansNoWorker(s: Shared, workers: map<nat, WorkerPc>)
    requires WorkerInv(s, workers) && !s.busy
    ensures workers == map[]
  {
  }

  lemma CheckShared(s: Shared, threadStarts: bool)
    requires PhaseInv(s)
    ensures var (s', started) := Check(s, threadStarts);
            && PhaseInv(s') && SameHandoff(s, s') && s'.prepared == s.prepared && s'.stage == s.stage
            && (started ==> !s.busy && s'.busy && s'.phase.Checking?)
            && (!started && s' != s ==> !s.busy && !s'.busy && s'.phase.Error? && Admissible(s))
  {
  }

  lemma WorkerStarts(w: World, tid: nat, w': World, announce: bool)
    requires WorkerInv(w.shared, w.workers) && FileInv(w) && !w.shared.busy
    requires w' == w.(shared := w'.shared, workers := w.workers[tid := Looking(announce)])
    requires w'.shared.busy && PcInv(w'.shared, Looking(announce)) && w'.shared.prepared == w.shared.prepared
    ensures WorkerInv(w'.shared, w'.workers) && FileInv(w')
  {
    IdleMeansNoWorker(w.shared, w.workers);
    assert tid in w'.workers;
  }

  lemma CheckStarts(w: World, tid: nat, threadStarts: bool, w': World)
    requires DownloadInv(w) && WorkerStep(w, StartCheck(tid, threadStarts), w')
    requires Check(w.shared, threadStarts).1
    ensures DownloadInv(w') && DownloadOnly(w, w')
  {
    CheckShared(w.shared, threadStarts);
    WorkerStarts(w, tid, w', true);
  }

  lemma CheckRefused(w: World, tid: nat, threadStarts: bool, w': World)
    requires DownloadInv(w) && WorkerStep(w, StartCheck(tid, threadStarts), w')
    requires !Check(w.shared, threadStarts).1
    ensures DownloadInv(w') && DownloadOnly(w, w')
  {
    CheckShared(w.shared, threadStarts);
    DownloadFrame(w, w');
  }

  lemma CheckKeeps(w: World, tid: nat, threadStarts: bool, w': World)
    requires DownloadInv(w) && WorkerStep(w, StartCheck(tid, threadStarts), w')
    ensures DownloadInv(w') && DownloadOnly(w, w')
  {
    if Check(w.shared, threadStarts).1 {
      CheckStarts(w, tid, threadStarts, w');
    } else {
      CheckRefused(w, tid, threadStarts, w');
    }
  }

  lemma ScheduleKeeps(w: World, tid: nat, w': World)
    requires DownloadInv(w) && WorkerStep(w, StartScheduled(tid), w')
    ensures DownloadInv(w') && DownloadOnly(w, w')
  {
    if Schedule(w.shared).1 {
      IdleMeansNoWorker(w.shared, w.workers);
      WorkerStarts(w, tid, w', false);
    }
  }

  lemma SearchKeeps(w: World, a: WorkerAction, w': World)
    requires DownloadInv(w) && (a.Look? || a.CompareRun? || a.Resolve?) && WorkerStep(w, a, w')
    ensures DownloadInv(w') && DownloadOnly(w, w')
  {
    WorkerMoves(w, a.tid, w');
  }

  lemma SelectKeeps(w: World, tid: nat, w': World)
    requires DownloadInv(w) && WorkerStep(w, Select(tid), w')
    ensures DownloadInv(w') && DownloadOnly(w, w')
  {
    WorkerMoves(w, tid, w');
  }

  lemma OpenFails(w: World, tid: nat, w': World)
    requires DownloadInv(w) && WorkerStep(w, Open(tid, None), w')
    ensures DownloadInv(w') && DownloadOnly(w, w')
  {
    WorkerMoves(w, tid, w');
  }

  lemma OpenKeeps(w: World, tid: nat, stage: nat, w': World)
    requires DownloadInv(w) && WorkerStep(w, Open(tid, Some(stage)), w')
    ensures DownloadInv(w') && DownloadOnly(w, w')
  {
    WorkerMoves(w, tid, w');
  }

  /** The prune of a new download spares its own stage and the installer `prepared` names. */
  lemma PruneKeeps(w: World, tid: nat, made: bool, disk: Disk, w': World)
    requires DownloadInv(w) && WorkerStep(w, Prune(tid, made, disk), w')
    ensures DownloadInv(w') && DownloadOnly(w, w')
  {
    if made {
      PruneSpares(w, tid, disk);
    }
    WorkerMoves(w, tid, w');
  }

  lemma PruneSpares(w: World, tid: nat, disk: Disk)
    requires DownloadInv(w) && tid in w.workers && w.workers[tid].Pruning?
    requires var pc := w.workers[tid];
             pc.stage in disk && Pruned(w.disk[pc.stage := disk[pc.stage]], pc.protected, STAGE_KEEP, disk)
    ensures disk.Keys <= w.stages
    ensures w.shared.prepared.Some? ==> Kept(disk, w.vanished, w.shared.prepared.value.stage)
  {
    var pc := w.workers[tid];
    var before := w.disk[pc.stage := disk[pc.stage]];
    assert PcFiles(w, pc) && PcInv(w.shared, pc);
    assert before.Keys == w.disk.Keys + {pc.stage};
    if w.shared.prepared.Some? {
      var p := w.shared.prepared.value.stage;
      assert p in pc.protected && p !in Excess(before, pc.protected, STAGE_KEEP);
    }
  }

  lemma FetchKeeps(w: World, tid: nat, verified: bool, artifacts: set<Artifact>, w': World)
    requires DownloadInv(w) && WorkerStep(w, Fetch(tid, verified, artifacts), w')
    ensures DownloadInv(w') && DownloadOnly(w, w')
  {
    assert PcFiles(w, w.workers[tid]) && PcInv(w.shared, w.workers[tid]);
    assert w'.disk.Keys == w.disk.Keys;
    WorkerMoves(w, tid, w');
  }

  /** Cleaning up a failed download touches no stage but its own. */
  lemma DiscardKeeps(w: World, tid: nat, disk: Disk, w': World)
    requires DownloadInv(w) && WorkerStep(w, Discard(tid, disk), w')
    ensures DownloadInv(w') && DownloadOnly(w, w')
  {
    assert PcFiles(w, w.workers[tid]) && PcInv(w.shared, w.workers[tid]);
    WorkerMoves(w, tid, w');
  }

  lemma CloseKeeps(w: World, a: WorkerAction, w': World)
    requires DownloadInv(w) && (a.Clear? || a.Close?) && WorkerStep(w, a, w')
    ensures DownloadInv(w') && DownloadOnly(w, w')
  {
    assert PcFiles(w, w.workers[a.tid]) && PcInv(w.shared, w.workers[a.tid]);
    WorkerMoves(w, a.tid, w');
  }

  /** The window closes: the new installer is still there when `prepared` starts to name it. */
  lemma PublishKeeps(w: World, tid: nat, w': World)
    requires DownloadInv(w) && WorkerStep(w, PublishInstaller(tid), w')
    ensures DownloadInv(w') && DownloadOnly(w, w')
  {
    assert PcFiles(w, w.workers[tid]) && PcInv(w.shared, w.workers[tid]);
    WorkerMoves(w, tid, w');
  }

  lemma FailureKeeps(w: World, a: WorkerAction, w': World)
    requires DownloadInv(w) && (a.DownloadFails? || a.OperationFails?) && WorkerStep(w, a, w')
    ensures DownloadInv(w') && DownloadOnly(w, w')
  {
    assert PcFiles(w, w.workers[a.tid]) && PcInv(w.shared, w.workers[a.tid]);
    WorkerMoves(w, a.tid, w');
  }

  lemma ReconcileKeeps(w: World, tid: nat, disk: Disk, w': World)
    requires DownloadInv(w) && WorkerStep(w, Reconcile(tid, disk), w')
    ensures DownloadInv(w') && DownloadOnly(w, w')
  {
    assert PcInv(w.shared, w.workers[tid]);
    WorkerMoves(w, tid, w');
  }

  lemma FinishKeeps(w: World, tid: nat, w': World)
    requires DownloadInv(w) && WorkerStep(w, Finish(tid), w')
    ensures DownloadInv(w') && DownloadOnly(w, w')
  {
    assert PcInv(w.shared, w.workers[tid]);
    assert w'.workers == map[];
  }

  predicate Searches(a: WorkerAction) {
    a.StartCheck? || a.StartScheduled? || a.Look? || a.CompareRun? || a.Resolve? || a.Select? || a.Open? || a.Finish?
  }

  lemma SearchingKeeps(w: World, a: WorkerAction, w': World)
    requires Searches(a) && DownloadInv(w) && WorkerStep(w, a, w')
    ensures DownloadInv(w') && DownloadOnly(w, w')
  {
    match a
    case StartCheck(tid, threadStarts) => CheckKeeps(w, tid, threadStarts, w');
    case StartScheduled(tid) => ScheduleKeeps(w, tid, w');
    case Look(_, _) => SearchKeeps(w, a, w');
    case CompareRun(_) => SearchKeeps(w, a, w');
    case Resolve(_, _) => SearchKeeps(w, a, w');
    case Select(tid) => SelectKeeps(w, tid, w');
    case Open(tid, None) => OpenFails(w, tid, w');
    case Open(tid, Some(stage)) => OpenKeeps(w, tid, stage, w');
    case Finish(tid) => FinishKeeps(w, tid, w');
  }

  lemma DownloadingKeeps(w: World, a: WorkerAction, w': World)
    requires !Searches(a) && DownloadInv(w) && WorkerStep(w, a, w')
    ensures DownloadInv(w') && DownloadOnly(w, w')
  {
    match a
    case Prune(tid, made, disk) => PruneKeeps(w, tid, made, disk, w');
    case Fetch(tid, verified, artifacts) => FetchKeeps(w, tid, verified, artifacts, w');
    case Discard(tid, disk) => DiscardKeeps(w, tid, disk, w');
    case Clear(_) => CloseKeeps(w, a, w');
    case Close(_) => CloseKeeps(w, a, w');
    case PublishInstaller(tid) => PublishKeeps(w, tid, w');
    case DownloadFails(_) => FailureKeeps(w, a, w');
    case OperationFails(_) => FailureKeeps(w, a, w');
    case Reconcile(tid, disk) => ReconcileKeeps(w, tid, disk, w');
  }
}

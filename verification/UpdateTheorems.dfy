// Whole-run theorems about updates: phases, installers on disk, and the commit protocol.
module UpdateTheorems {
  import opened Common
  import opened Staging
  import opened UpdaterCore
  import opened ResponseDelivery
  import opened UpdateMachine
  import opened UpdateSafety
  import opened UpdateHandoff

  lemma InitHolds(w: World)
    requires Init(w)
    ensures Inv(w)
  {
  }

  lemma EnvironmentKeeps(w: World, a: EnvironmentAction, w': World)
    requires Inv(w) && EnvironmentStep(w, a, w')
    ensures Inv(w')
  {
    match a
    case BrokerAnswers(nonce, answer) =>
      BrokerNoteKeeps(w, w'.shared.runtime);
    case BrokerExits =>
      BrokerNoteKeeps(w, w'.shared.runtime);
    case Tick(time) => TickKeeps(w, w');
    case Vanish(stage, disk) => VanishKeeps(w, stage, disk);
  }

  lemma TickKeeps(w: World, w': World)
    requires Inv(w) && w' == w.(now := w'.now)
    ensures Inv(w')
  {
    DownloadFrame(w, w');
    assert w'.log == w.log;
  }

  lemma VanishKeeps(w: World, stage: nat, disk: Disk)
    requires Inv(w) && OnlyLoses(w.disk, stage, disk)
    ensures Inv(w.(disk := disk, vanished := w.vanished + {stage}))
  {
    HandoffFrame(w, w.(disk := disk, vanished := w.vanished + {stage}));
  }

  lemma HandoffStepKeeps(w: World, a: HandoffAction, w': World)
    requires Inv(w) && HandoffStep(w, a, w')
    ensures Inv(w')
  {
    match a
    case AdmitInstall(candidateId, operation) => AdmitKeeps(w, candidateId, operation, w');
    case Spawn(created, directory, modified) => SpawnKeeps(w, created, directory, modified, w');
    case Answered(accepted) => AnsweredKeeps(w, accepted, w');
    case BoundHandoff => BoundKeeps(w, w');
    case StartWatchdog(threadStarts) => WatchdogKeeps(w, threadStarts, w');
    case InstallFails => InstallFailsKeeps(w, w');
    case CancelOutside(writes) => CancelOutsideKeeps(w, writes, w');
    case Deliver(operation, event) => DeliverKeeps(w, operation, event, w');
    case Finalise(operation, goWrites, writes) => FinaliseKeeps(w, operation, goWrites, writes, w');
    case Observe(writes) => ObserveKeeps(w, writes, w');
  }

  lemma WorkIsDownloadOnly(w: World, a: WorkerAction, w': World)
    requires DownloadInv(w) && WorkerStep(w, a, w')
    ensures DownloadInv(w') && DownloadOnly(w, w')
  {
    if Searches(a) {
      SearchingKeeps(w, a, w');
    } else {
      DownloadingKeeps(w, a, w');
    }
  }

  lemma WorkKeeps(w: World, a: WorkerAction, w': World)
    requires Inv(w) && WorkerStep(w, a, w')
    ensures Inv(w')
  {
    WorkIsDownloadOnly(w, a, w');
    HandoffFrame(w, w');
  }

  lemma StepKeeps(w: World, a: Step, w': World)
    requires Inv(w) && Next(w, a, w')
    ensures Inv(w')
  {
    match a
    case Work(work) => WorkKeeps(w, work, w');
    case Handoff(move) => HandoffStepKeeps(w, move, w');
    case Environment(change) => EnvironmentKeeps(w, change, w');
  }

  lemma {:induction false} Always(states: seq<World>, steps: seq<Step>, k: nat)
    requires IsRun(states, steps) && k < |states|
    ensures Inv(states[k])
  {
    if k == 0 {
      InitHolds(states[0]);
    } else {
      Always(states, steps, k - 1);
      StepKeeps(states[k - 1], steps[k - 1], states[k]);
    }
  }

  // ----- phases -----

  /** In every reachable state of every interleaving the displayed phase tells the truth. */
  lemma PhaseTheorem(states: seq<World>, steps: seq<Step>, k: nat)
    requires IsRun(states, steps) && k < |states|
    ensures var s := states[k].shared;
            && (s.handoff <==> s.phase.Installing?)
            && (s.phase.Installing? || s.phase.Ready? ==> s.prepared.Some?)
            && (s.phase.Checking? || s.phase.Downloading? ==> s.busy && !s.handoff)
            && (s.candidate.Some? <==> s.prepared.Some?)
            && (s.prepared.Some? ==> s.candidate.value.run == s.prepared.value.run)
    ensures forall t, u | t in states[k].workers && u in states[k].workers :: t == u
  {
    Always(states, steps, k);
    if states[k].workers != map[] {
      var t :| t in states[k].workers;
      assert PcInv(states[k].shared, states[k].workers[t]);
    }
  }

  // ----- steps that decide nothing -----

  /** The steps of the installation call and of response delivery that decide nothing. */
  predicate Plumbing(a: HandoffAction) {
    a.Spawn? || a.Answered? || a.BoundHandoff? || a.StartWatchdog? || a.CancelOutside? || a.Deliver?
  }

  ghost predicate SameDecision(w: World, w': World) {
    && w'.log == w.log && w'.promised == w.promised
    && w'.shared.handoffId == w.shared.handoffId && w'.shared.armed == w.shared.armed
  }

  lemma SpawnDecidesNothing(w: World, a: HandoffAction, w': World)
    requires a.Spawn? && HandoffStep(w, a, w')
    ensures SameDecision(w, w')
  {
  }

  lemma AnsweredDecidesNothing(w: World, a: HandoffAction, w': World)
    requires a.Answered? && HandoffStep(w, a, w')
    ensures SameDecision(w, w') && w'.disk == w.disk
  {
  }

  lemma BoundDecidesNothing(w: World, a: HandoffAction, w': World)
    requires (a.BoundHandoff? || a.CancelOutside? || a.Deliver?) && HandoffStep(w, a, w')
    ensures SameDecision(w, w') && w'.disk == w.disk
  {
  }

  lemma WatchdogDecidesNothing(w: World, a: HandoffAction, w': World)
    requires a.StartWatchdog? && HandoffStep(w, a, w')
    ensures SameDecision(w, w') && w'.disk == w.disk
  {
  }

  lemma PlumbingDecidesNothing(w: World, a: HandoffAction, w': World)
    requires Plumbing(a) && HandoffStep(w, a, w')
    ensures SameDecision(w, w') && (!a.Spawn? ==> w'.disk == w.disk)
  {
    if a.Spawn? {
      SpawnDecidesNothing(w, a, w');
    } else if a.Answered? {
      AnsweredDecidesNothing(w, a, w');
    } else if a.StartWatchdog? {
      WatchdogDecidesNothing(w, a, w');
    } else {
      BoundDecidesNothing(w, a, w');
    }
  }

  // ----- installers -----

  /** Handoffs and the outside world add a directory, or lose files of one stage. */
  lemma DiskOutsideWork(w: World, a: Step, w': World, p: nat)
    requires w.disk.Keys <= w.stages && !a.Work? && Next(w, a, w') && p in w.disk
    requires !(a.Environment? && a.change.Vanish? && a.change.stage == p)
    ensures p in w'.disk && w'.disk[p] == w.disk[p]
  {
    match a
    case Handoff(move) => HandoffAddsDirectory(w, move, w', p);
    case Environment(change) => OutsideSparesOthers(w, change, w', p);
  }

  lemma OutsideSparesOthers(w: World, a: EnvironmentAction, w': World, p: nat)
    requires EnvironmentStep(w, a, w') && p in w.disk && !(a.Vanish? && a.stage == p)
    ensures p in w'.disk && w'.disk[p] == w.disk[p]
  {
  }

  lemma HandoffAddsDirectory(w: World, a: HandoffAction, w': World, p: nat)
    requires w.disk.Keys <= w.stages && HandoffStep(w, a, w') && p in w.disk
    ensures p in w'.disk && w'.disk[p] == w.disk[p]
  {
    if Plumbing(a) && !a.Spawn? {
      PlumbingDecidesNothing(w, a, w');
    } else if a.Spawn? {
      SpawnAddsDirectory(w, a, w', p);
    } else {
      DecisionsSpareDisk(w, a, w');
    }
  }

  lemma SpawnAddsDirectory(w: World, a: HandoffAction, w': World, p: nat)
    requires a.Spawn? && w.disk.Keys <= w.stages && HandoffStep(w, a, w') && p in w.disk
    ensures p in w'.disk && w'.disk[p] == w.disk[p]
  {
  }

  lemma DecisionsSpareDisk(w: World, a: HandoffAction, w': World)
    requires !Plumbing(a) && HandoffStep(w, a, w')
    ensures w'.disk == w.disk
  {
  }

  /** Nothing the updater does deletes the installer that `prepared` names. */
  lemma InstallerSurvives(w: World, a: Step, w': World)
    requires Inv(w) && Next(w, a, w')
    requires w.shared.prepared.Some? && HasInstaller(w.disk, w.shared.prepared.value.stage)
    requires !(a.Environment? && a.change.Vanish? && a.change.stage == w.shared.prepared.value.stage)
    ensures HasInstaller(w'.disk, w.shared.prepared.value.stage)
  {
    var p := w.shared.prepared.value.stage;
    if a.Work? {
      WorkSpares(w, a.work, w', p);
    } else {
      DiskOutsideWork(w, a, w', p);
    }
  }

  predicate TouchesDisk(a: WorkerAction) {
    a.Prune? || a.Fetch? || a.Discard? || a.Reconcile?
  }

  lemma SearchesSpareDisk(w: World, a: WorkerAction, w': World)
    requires WorkerStep(w, a, w') && !TouchesDisk(a)
    ensures w'.disk == w.disk
  {
    if Searches(a) {
      SearchSparesDisk(w, a, w');
    }
  }

  lemma StartSparesDisk(w: World, a: WorkerAction, w': World)
    requires WorkerStep(w, a, w') && (a.StartCheck? || a.StartScheduled? || a.Finish?)
    ensures w'.disk == w.disk
  {
  }

  lemma LookSparesDisk(w: World, a: WorkerAction, w': World)
    requires WorkerStep(w, a, w') && (a.Look? || a.CompareRun? || a.Resolve? || a.Select?)
    ensures w'.disk == w.disk
  {
  }

  lemma OpenSparesDisk(w: World, tid: nat, stage: Option<nat>, w': World)
    requires WorkerStep(w, Open(tid, stage), w')
    ensures w'.disk == w.disk
  {
  }

  lemma SearchSparesDisk(w: World, a: WorkerAction, w': World)
    requires WorkerStep(w, a, w') && Searches(a)
    ensures w'.disk == w.disk
  {
    if a.Open? {
      OpenSparesDisk(w, a.tid, a.stage, w');
    } else if a.StartCheck? || a.StartScheduled? || a.Finish? {
      StartSparesDisk(w, a, w');
    } else {
      LookSparesDisk(w, a, w');
    }
  }

  lemma WorkSpares(w: World, a: WorkerAction, w': World, p: nat)
    requires DownloadInv(w) && WorkerStep(w, a, w') && w.shared.prepared.Some? && p == w.shared.prepared.value.stage
    requires HasInstaller(w.disk, p)
    ensures HasInstaller(w'.disk, p)
  {
    if TouchesDisk(a) {
      assert PcFiles(w, w.workers[a.tid]) && PcInv(w.shared, w.workers[a.tid]);
      if a.Prune? && a.made {
        PruneSparesProtected(w, a.tid, a.disk, p);
      }
    } else {
      SearchesSpareDisk(w, a, w');
    }
  }

  lemma PruneSparesProtected(w: World, tid: nat, disk: Disk, p: nat)
    requires tid in w.workers && w.workers[tid].Pruning? && p in w.workers[tid].protected
    requires p in w.disk && p != w.workers[tid].stage
    requires var pc := w.workers[tid];
             pc.stage in disk && Pruned(w.disk[pc.stage := disk[pc.stage]], pc.protected, STAGE_KEEP, disk)
    ensures p in disk && disk[p] == w.disk[p]
  {
    var pc := w.workers[tid];
    var before := w.disk[pc.stage := disk[pc.stage]];
    assert p in before && p !in Excess(before, pc.protected, STAGE_KEEP);
  }

  /** A download's stage is safe from every step but its owner's and the outside world's, also
      in the window where neither `_stage` nor `prepared` names it. */
  lemma DownloadSurvives(w: World, a: Step, w': World, tid: nat)
    requires DownloadInv(w) && Next(w, a, w') && tid in w.workers
    requires var pc := w.workers[tid]; (pc.Fetching? || pc.Closing? || pc.Publishing?) && pc.stage in w.disk
    requires !(a.Environment? && a.change.Vanish? && a.change.stage == w.workers[tid].stage)
    requires !(a.Work? && a.work.Fetch? && a.work.tid == tid)
    ensures w.workers[tid].stage in w'.disk && w'.disk[w.workers[tid].stage] == w.disk[w.workers[tid].stage]
  {
    if a.Work? {
      WorkLeavesDownload(w, a.work, w', tid);
    } else {
      DiskOutsideWork(w, a, w', w.workers[tid].stage);
    }
  }

  /** The worker in the window is the only worker, so nobody purges or prunes meanwhile. */
  lemma WorkLeavesDownload(w: World, a: WorkerAction, w': World, tid: nat)
    requires WorkerInv(w.shared, w.workers) && WorkerStep(w, a, w') && tid in w.workers
    requires var pc := w.workers[tid]; (pc.Fetching? || pc.Closing? || pc.Publishing?)
    requires !(a.Fetch? && a.tid == tid)
    ensures w'.disk == w.disk
  {
    if !TouchesDisk(a) {
      SearchesSpareDisk(w, a, w');
    }
  }

  /** The verified installer is on disk in every reachable state, unless something outside the
      updater removed files from its stage. */
  lemma InstallerTheorem(states: seq<World>, steps: seq<Step>, k: nat)
    requires IsRun(states, steps) && k < |states| && states[k].shared.prepared.Some?
    ensures var p := states[k].shared.prepared.value.stage;
            p !in states[k].vanished ==> HasInstaller(states[k].disk, p)
  {
    Always(states, steps, k);
  }

  /** While a handoff lasts no worker is downloading, so no worker prunes, purges or discards. */
  lemma WorkSparesHandoff(w: World, a: WorkerAction, w': World)
    requires DownloadInv(w) && WorkerStep(w, a, w') && w.shared.handoff
    ensures w'.disk == w.disk
  {
    if TouchesDisk(a) {
      assert PcInv(w.shared, w.workers[a.tid]);
    } else {
      SearchesSpareDisk(w, a, w');
    }
  }

  /** And nothing else removes a stage either, but the outside world. */
  lemma HandoffSparesStages(w: World, a: Step, w': World, stage: nat)
    requires Inv(w) && Next(w, a, w') && w.shared.handoff && stage in w.disk
    requires !(a.Environment? && a.change.Vanish? && a.change.stage == stage)
    ensures stage in w'.disk && w'.disk[stage] == w.disk[stage]
  {
    if a.Work? {
      WorkSparesHandoff(w, a.work, w');
    } else {
      DiskOutsideWork(w, a, w', stage);
    }
  }

  lemma {:induction false} StageStays(states: seq<World>, steps: seq<Step>, i: nat, j: nat, stage: nat)
    requires IsRun(states, steps) && i <= j < |states| && stage in states[i].disk
    requires forall k | i <= k < j :: states[k].shared.handoff
    requires forall k | i <= k < j ::
               !(steps[k].Environment? && steps[k].change.Vanish? && steps[k].change.stage == stage)
    ensures stage in states[j].disk && states[j].disk[stage] == states[i].disk[stage]
  {
    if i < j {
      StageStays(states, steps, i, j - 1, stage);
      Always(states, steps, j - 1);
      HandoffSparesStages(states[j - 1], steps[j - 1], states[j], stage);
    }
  }

  /** The stage directory that the broker runs in, made when it was started, survives every prune and purge
      as long as its handoff lasts. */
  lemma BrokerStageSurvives(states: seq<World>, steps: seq<Step>, i: nat, j: nat)
    requires IsRun(states, steps) && i < j < |states| && steps[i].Handoff? && steps[i].move.Spawn?
    requires states[i + 1].install.Awaiting? && forall k | i < k < j :: states[k].shared.handoff
    requires forall k | i < k < j ::
               !(steps[k].Environment? && steps[k].change.Vanish? && steps[k].change.stage == steps[i].move.directory)
    ensures steps[i].move.directory in states[j].disk
  {
    SpawnMakesStage(states[i], steps[i].move, states[i + 1]);
    StageStays(states, steps, i + 1, j, steps[i].move.directory);
  }

  lemma SpawnMakesStage(w: World, a: HandoffAction, w': World)
    requires a.Spawn? && HandoffStep(w, a, w') && w'.install.Awaiting?
    ensures a.directory in w'.disk
  {
  }

  // ----- the handoff -----

  ghost predicate HistoryExtends(w: World, w': World) {
    && w.log <= w'.log
    && w.promised.Keys <= w'.promised.Keys
    && forall op | op in w.promised :: w'.promised[op] == w.promised[op]
  }

  lemma HandoffExtendsHistory(w: World, a: HandoffAction, w': World)
    requires w.promised.Keys == w.operations && HandoffStep(w, a, w')
    ensures HistoryExtends(w, w')
  {
    if Plumbing(a) {
      PlumbingDecidesNothing(w, a, w');
    } else if a.AdmitInstall? {
      assert w'.log == w.log;
    } else {
      assert w'.promised == w.promised;
    }
  }

  lemma OutsideKeepsHistory(w: World, a: EnvironmentAction, w': World)
    requires EnvironmentStep(w, a, w')
    ensures w'.log == w.log && w'.promised == w.promised
  {
  }

  lemma HistoryGrowsByStep(w: World, a: Step, w': World)
    requires Inv(w) && Next(w, a, w')
    ensures HistoryExtends(w, w')
  {
    match a
    case Work(work) => WorkIsDownloadOnly(w, work, w');
    case Handoff(move) => HandoffExtendsHistory(w, move, w');
    case Environment(change) => OutsideKeepsHistory(w, change, w');
  }

  lemma RunExtendsHistory(states: seq<World>, steps: seq<Step>, k: nat)
    requires IsRun(states, steps) && k < |steps|
    ensures HistoryExtends(states[k], states[k + 1])
  {
    Always(states, steps, k);
    HistoryGrowsByStep(states[k], steps[k], states[k + 1]);
  }

  lemma {:induction false} ChainExtends(states: seq<World>, i: nat, j: nat)
    requires i <= j < |states|
    requires forall k | 0 <= k < |states| - 1 :: HistoryExtends(states[k], states[k + 1])
    ensures HistoryExtends(states[i], states[j])
  {
    if i < j {
      ChainExtends(states, i, j - 1);
      HistoryTransitive(states[i], states[j - 1], states[j]);
    }
  }

  lemma HistoryGrows(states: seq<World>, steps: seq<Step>, i: nat, j: nat)
    requires IsRun(states, steps) && i <= j < |states|
    ensures HistoryExtends(states[i], states[j])
  {
    forall k | 0 <= k < |states| - 1
      ensures HistoryExtends(states[k], states[k + 1])
    {
      RunExtendsHistory(states, steps, k);
    }
    ChainExtends(states, i, j);
  }

  lemma HistoryTransitive(a: World, b: World, c: World)
    requires HistoryExtends(a, b) && HistoryExtends(b, c)
    ensures HistoryExtends(a, c)
  {
  }

  /** The installer does not change while one handoff lasts, and the broker holds that one. */
  lemma PreparedIsStable(states: seq<World>, steps: seq<Step>, i: nat, j: nat)
    requires IsRun(states, steps) && i <= j < |states|
    requires states[i].shared.handoffId.Some? && states[j].shared.handoffId == states[i].shared.handoffId
    ensures states[i].shared.prepared.Some? && states[j].shared.prepared == states[i].shared.prepared
    ensures var r := states[j].shared.runtime;
            r.nonce.Some? ==>
              && r.nonce.value in r.brokers
              && r.brokers[r.nonce.value].installer == states[i].shared.prepared.value.stage
  {
    Always(states, steps, i);
    Always(states, steps, j);
    HistoryGrows(states, steps, i, j);
  }

  /** Over a whole run, each operation is committed at most once, after its response was fully
      sent, before its deadline, and never once its handoff has ended. */
  lemma CommitTheorem(states: seq<World>, steps: seq<Step>, k: nat, i: nat)
    requires IsRun(states, steps) && k < |states| && i < |states[k].log| && states[k].log[i].Went?
    ensures var w, e := states[k], states[k].log[i];
            && e.operation in w.finalised && FullySent(w.finalised[e.operation])
            && e.operation in w.bounded && e.at < w.bounded[e.operation] + HANDOFF_SECONDS
            && forall j | 0 <= j < |w.log| && j != i && w.log[j].operation == e.operation :: j > i && w.log[j].Ended?
  {
    Always(states, steps, k);
    var w := states[k];
    assert Justified(w, w.log[i]);
  }

  /** A commit file exists only for an operation that was committed. */
  lemma CommitFileTheorem(states: seq<World>, steps: seq<Step>, k: nat, nonce: nat)
    requires IsRun(states, steps) && k < |states| && nonce in states[k].shared.runtime.brokers
    requires states[k].shared.runtime.brokers[nonce].go
    ensures nonce in states[k].owners && HasWent(states[k].log, states[k].owners[nonce])
  {
    Always(states, steps, k);
  }

  /** Only the finaliser of the operation in progress commits it, and writes the file of a broker
      that was created for it. */
  lemma CommitIsOwn(w: World, a: HandoffAction, w': World)
    requires RuntimeInv(w) && HandoffStep(w, a, w') && !w.shared.armed && w'.shared.armed
    ensures a.Finalise? && w.shared.handoffId == Some(a.operation) == w'.shared.handoffId
    ensures FullySent(w.requests[a.operation]) && !Expired(w.shared.deadline, w.now)
    ensures w.shared.runtime.nonce.Some? && w.shared.runtime.nonce.value in w.owners
    ensures w.owners[w.shared.runtime.nonce.value] == a.operation
    ensures GoWritten(w.shared.runtime) == w'.shared.runtime
  {
    CommitIsFinaliser(w, a, w');
    ArmableIffFullySent(w.requests[a.operation]);
  }

  lemma CommitIsFinaliser(w: World, a: HandoffAction, w': World)
    requires HandoffStep(w, a, w') && !w.shared.armed && w'.shared.armed
    ensures a.Finalise? && Armable(Follow(w.requests[a.operation]))
    ensures Arms(w.shared, a.operation, w.now, true)
    ensures w'.shared == w.shared.(armed := true, runtime := GoWritten(w.shared.runtime))
  {
    if Plumbing(a) {
      PlumbingDecidesNothing(w, a, w');
    }
  }

  /** What can end a handoff: its own response callback before the commit, its own failed start,
      or a poll that finds the helper failed or the uncommitted handoff expired. */
  lemma EndIsJustified(w: World, a: HandoffAction, w': World)
    requires PhaseInv(w.shared) && HandoffStep(w, a, w')
    requires w.shared.handoffId.Some? && w'.shared.handoffId != w.shared.handoffId
    ensures w'.shared.handoffId.None?
    ensures || (a.Finalise? && Some(a.operation) == w.shared.handoffId && !w.shared.armed)
            || (a.InstallFails? && Some(w.install.operation) == w.shared.handoffId)
            || (a.Observe? && (Failed(w.shared.runtime) || (!w.shared.armed && Expired(w.shared.deadline, w.now))))
  {
    if Plumbing(a) {
      PlumbingDecidesNothing(w, a, w');
    }
  }

  /** A callback that comes late for its own operation changes nothing. */
  lemma StaleCallback(w: World, operation: nat, goWrites: bool, writes: bool, w': World)
    requires HandoffStep(w, Finalise(operation, goWrites, writes), w')
    requires w.shared.handoffId != Some(operation) || w.shared.armed
    ensures w'.shared == w.shared && w'.log == w.log
  {
  }
}

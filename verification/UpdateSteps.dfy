// What each region of the updater decides, stated on the steps of the machine
// (backend/app/updater.py:397-563, 617-619, 654-727).
module UpdateSteps {
  import opened Common
  import opened Staging
  import opened UpdaterCore
  import opened ResponseDelivery
  import opened UpdateMachine
  import opened UpdateSafety
  import opened UpdateTheorems

  // ----- starting an operation -----

  /** No other operation or handoff is under way. */
  predicate Free(s: Shared) {
    s.supported && !s.busy && !s.handoff && (s.phase.Idle? || s.phase.Ready? || s.phase.Error?)
  }

  lemma CheckIs(s: Shared, threadStarts: bool)
    requires PhaseInv(s)
    ensures !Free(s) ==> Check(s, threadStarts) == (s, false)
    ensures Free(s) && threadStarts ==> Check(s, threadStarts) == (s.(busy := true, phase := Checking), true)
    ensures Free(s) && !threadStarts ==> Check(s, threadStarts) == (s.(phase := Error), false)
  {
  }

  /** A manual check starts a worker exactly when nothing else is under way and its thread starts. */
  lemma CheckStartsIff(w: World, tid: nat, threadStarts: bool, w': World)
    requires PhaseInv(w.shared) && WorkerStep(w, StartCheck(tid, threadStarts), w')
    ensures tid in w'.workers <==> Free(w.shared) && threadStarts
    ensures tid in w'.workers ==>
              w'.workers[tid] == Looking(true) && w'.shared == w.shared.(busy := true, phase := Checking)
    ensures !Free(w.shared) ==> w' == w
    ensures Free(w.shared) && !threadStarts ==> w' == w.(shared := w.shared.(phase := Error))
  {
    CheckIs(w.shared, threadStarts);
  }

  /** A scheduled cycle likewise; it does not show. */
  lemma ScheduleStartsIff(w: World, tid: nat, w': World)
    requires PhaseInv(w.shared) && WorkerStep(w, StartScheduled(tid), w')
    ensures tid in w'.workers <==> Free(w.shared)
    ensures tid in w'.workers ==> w'.workers[tid] == Looking(false) && w'.shared == w.shared.(busy := true)
    ensures !Free(w.shared) ==> w' == w
  {
  }

  /** The end of an operation admits the next one, unless a handoff has begun. */
  lemma FinishFrees(w: World, tid: nat, w': World)
    requires PhaseInv(w.shared) && WorkerInv(w.shared, w.workers) && WorkerStep(w, Finish(tid), w')
    ensures w'.workers == map[] && Free(w'.shared) == (w.shared.supported && !w.shared.handoff)
    ensures w'.shared == w.shared.(busy := false)
  {
    assert PcInv(w.shared, w.workers[tid]);
    assert forall t | t in w.workers :: t == tid;
  }

  // ----- one cycle -----

  /** A found run goes on to be resolved exactly when it is not the run of the prepared installer. If there
      is nothing to do an announced check shows what there is, and a scheduled one nothing. */
  lemma FoundRunIsResolvedIff(w: World, tid: nat, w': World)
    requires WorkerStep(w, CompareRun(tid), w')
    ensures var found, announce := w.workers[tid].found, w.workers[tid].announce;
            var newer := found.Some? && !(w.shared.prepared.Some? && w.shared.prepared.value.run == found.value);
            && (if newer then w'.workers[tid] == Resolving(announce, found.value)
                else w'.workers[tid] == Reconciling)
            && w'.shared.prepared == w.shared.prepared
            && (newer || !announce ==> w'.shared == w.shared)
            && (!newer && announce && w.shared.prepared.Some? ==> w'.shared == w.shared.(phase := Ready))
            && (!newer && announce && w.shared.prepared.None? ==>
                  w'.shared == w.shared.(phase := Idle, candidate := None))
  {
  }

  /** The resolved candidate is downloaded exactly when no handoff has begun. */
  lemma SelectedIsDownloadedIff(w: World, tid: nat, w': World)
    requires PhaseInv(w.shared) && WorkerStep(w, Select(tid), w')
    ensures if w.shared.handoff then w'.workers[tid] == Reconciling && w'.shared == w.shared
            else w'.workers[tid] == Opening(w.workers[tid].candidate) && w'.shared == w.shared.(phase := Downloading)
  {
  }

  /** A new download's prune spares the prepared installer, its own stage and every stage that has fewer than
      four newer ones beside those. */
  lemma PruneSparesNewest(w: World, tid: nat, disk: Disk, w': World, stage: nat)
    requires PhaseInv(w.shared) && WorkerInv(w.shared, w.workers) && WorkerStep(w, Prune(tid, true, disk), w')
    requires stage in w.disk && stage != w.workers[tid].stage
    requires || (w.shared.prepared.Some? && w.shared.prepared.value.stage == stage)
             || |NewerThan(w, stage)| < 4
    ensures stage in w'.disk && w'.disk[stage] == w.disk[stage]
  {
    var pc := w.workers[tid];
    assert PcInv(w.shared, pc);
    var before := w.disk[pc.stage := disk[pc.stage]];
    assert LaterStages(before, pc.protected, stage) == NewerThan(w, stage);
    assert stage !in Excess(before, pc.protected, STAGE_KEEP);
  }

  /** The stages newer than this one, other than the prepared installer's and the download's own. */
  ghost function NewerThan(w: World, stage: nat): set<nat>
    requires stage in w.disk
  {
    set t | t in w.disk && !(w.shared.prepared.Some? && w.shared.prepared.value.stage == t)
            && !(w.shared.stage == Some(t)) && Later(w.disk, t, stage)
  }

  /** A finished download offers its own candidate and its own installer, of the same run. */
  lemma PublishedIsOffered(w: World, tid: nat, w': World)
    requires PhaseInv(w.shared) && WorkerInv(w.shared, w.workers) && WorkerStep(w, PublishInstaller(tid), w')
    ensures w'.shared.phase.Ready? && w'.shared.candidate == Some(w.workers[tid].candidate)
    ensures w'.shared.prepared == Some(Prepared(w.workers[tid].stage, w.workers[tid].candidate.run))
    ensures !w'.shared.handoff && w'.disk == w.disk
  {
    assert PcInv(w.shared, w.workers[tid]);
  }

  /** A failed download leaves what was offered before: ready exactly when an installer is prepared. */
  lemma FailedDownloadKeepsOffer(w: World, tid: nat, w': World)
    requires WorkerStep(w, DownloadFails(tid), w')
    ensures w'.shared == w.shared.(phase := if w.shared.prepared.Some? then Ready else Error)
    ensures w'.disk == w.disk
  {
  }

  /** A failed search ends its own check, and leaves the phase that a handoff has set. */
  lemma FailedOperationShows(w: World, tid: nat, w': World)
    requires PhaseInv(w.shared) && WorkerInv(w.shared, w.workers) && WorkerStep(w, OperationFails(tid), w')
    ensures w'.shared.prepared == w.shared.prepared && w'.shared.candidate == w.shared.candidate
    ensures !w'.shared.phase.Checking? && !w'.shared.phase.Downloading?
    ensures w.shared.phase.Checking? ==> (w'.shared.phase.Ready? <==> w.shared.prepared.Some?)
    ensures !w.shared.phase.Checking? ==> w'.shared == w.shared
  {
    assert PcInv(w.shared, w.workers[tid]);
  }

  // ----- installing -----

  /** What the user confirmed is what is offered, and nothing else is under way. */
  predicate Confirmed(s: Shared, candidateId: nat) {
    && s.supported && s.phase.Ready? && !s.handoff
    && s.candidate.Some? && s.candidate.value.id == candidateId && s.prepared.Some?
  }

  predicate SameLease(s: Shared, s': Shared) {
    s'.handoff == s.handoff && s'.handoffId == s.handoffId && s'.deadline == s.deadline && s'.armed == s.armed
    && s'.runtime == s.runtime
  }

  lemma AdmitIs(w: World, candidateId: nat, operation: nat)
    requires PhaseInv(w.shared)
    ensures var s, (s', admission) := w.shared, Admit(w, candidateId, operation);
            && (!Confirmed(s, candidateId) ==> admission.Rejected? && s' == s)
            && (Confirmed(s, candidateId) && !HasInstaller(w.disk, s.prepared.value.stage) ==>
                  admission.Missing? && s' == s.(prepared := None, phase := Idle, candidate := None))
            && (Confirmed(s, candidateId) && HasInstaller(w.disk, s.prepared.value.stage) ==>
                  && admission.Admitted?
                  && s' == s.(runtime := s.runtime.(nonce := None, process := Absent), handoff := true,
                              handoffId := Some(operation), deadline := Never, armed := false, phase := Installing))
  {
  }

  /** An installation is admitted exactly when the confirmed candidate is the one on offer and its installer
      is on disk, and it then promises the run of that candidate. A confirmation of any other candidate
      changes nothing; a missing installer withdraws the offer. */
  lemma AdmissionIff(w: World, candidateId: nat, operation: nat, w': World)
    requires PhaseInv(w.shared) && HandoffStep(w, AdmitInstall(candidateId, operation), w')
    ensures var s, s' := w.shared, w'.shared;
            var present := s.prepared.Some? && s.prepared.value.stage in w.disk
                           && Installer in w.disk[s.prepared.value.stage].artifacts;
            && (w'.install.Starting? <==> Confirmed(s, candidateId) && present)
            && (w'.install.Starting? ==>
                  && w'.install == Starting(operation, s.prepared.value.stage)
                  && operation in w'.promised && w'.promised[operation] == s.prepared.value
                  && w'.promised[operation].run == s.candidate.value.run && s.candidate.value.id == candidateId
                  && s'.handoff && s'.handoffId == Some(operation) && s'.phase.Installing? && !s'.armed
                  && s'.deadline.Never? && s'.runtime.nonce.None? && s'.runtime.process.Absent?
                  && s'.prepared == s.prepared && s'.candidate == s.candidate)
            && (!w'.install.Starting? ==> w'.install.NoInstall? && w'.promised == w.promised && SameLease(s, s'))
            && (!Confirmed(s, candidateId) ==> w' == w)
            && (Confirmed(s, candidateId) && !present ==>
                  w' == w.(shared := s.(prepared := None, phase := Idle, candidate := None)))
  {
    AdmitIs(w, candidateId, operation);
  }

  // ----- the end of a handoff -----

  /** The handoff is given up: the lease is gone, the prepared installer can be offered again, and the
      current broker is told to cancel if that can be written. */
  predicate GivenUp(s: Shared, s': Shared, writes: bool) {
    && !s'.handoff && s'.handoffId.None? && s'.prepared == s.prepared && s'.candidate == s.candidate
    && s'.phase == (if s.prepared.Some? then Ready else Error)
    && (writes && s.runtime.nonce.Some? && s.runtime.nonce.value in s'.runtime.brokers ==>
          s'.runtime.brokers[s.runtime.nonce.value].cancelled)
  }

  /** A failed start gives the lease up. */
  lemma FailedStartGivesUp(w: World, w': World)
    requires PhaseInv(w.shared) && HandoffStep(w, InstallFails, w')
    ensures w.shared.handoffId == Some(w.install.operation) ==>
              !w'.shared.handoff && w'.shared.handoffId.None? && w'.shared.phase.Ready?
              && w'.shared.prepared == w.shared.prepared
    ensures w.shared.handoffId != Some(w.install.operation) ==> w'.shared == w.shared
  {
  }

  /** The helper of the handoff has exited or refused. */
  predicate HelperFailed(r: Runtime) {
    || r.process.Exited?
    || (r.nonce.Some? && r.nonce.value in r.brokers && r.brokers[r.nonce.value].answer.Refused?)
  }

  /** A poll gives a handoff up exactly when its helper has failed or its deadline has passed uncommitted. */
  lemma PollGivesUpIff(w: World, writes: bool, w': World)
    requires PhaseInv(w.shared) && HandoffStep(w, Observe(writes), w')
    ensures var s := w.shared;
            if s.handoff && (HelperFailed(s.runtime)
                             || (!s.armed && s.deadline.At? && w.now >= s.deadline.time))
            then GivenUp(s, w'.shared, writes)
            else w'.shared == s
  {
  }

  /** What an armed, fully delivered finaliser needs to commit. */
  predicate InTime(s: Shared, now: real, goWrites: bool) {
    && !(s.deadline.At? && now >= s.deadline.time) && s.runtime.process.Running? && s.runtime.nonce.Some? && goWrites
  }

  predicate Committed(s: Shared, s': Shared) {
    && s'.armed && s'.handoff == s.handoff && s'.handoffId == s.handoffId && s'.phase == s.phase
    && s.runtime.nonce.Some? && s.runtime.nonce.value in s'.runtime.brokers
    && s'.runtime.brokers[s.runtime.nonce.value].go
  }

  lemma ArmIs(s: Shared, operation: nat, now: real, goWrites: bool, writes: bool)
    requires s.handoffId == Some(operation) && !s.armed
    requires s.runtime.nonce.Some? ==> s.runtime.nonce.value in s.runtime.brokers
    ensures if InTime(s, now, goWrites) then Committed(s, Arm(s, operation, now, goWrites, writes))
            else GivenUp(s, Arm(s, operation, now, goWrites, writes), writes)
  {
  }

  lemma CancelIs(s: Shared, operation: nat, writes: bool)
    requires s.handoffId == Some(operation) && !s.armed
    ensures GivenUp(s, CancelInstall(s, operation, writes), writes)
  {
  }

  /** The finaliser commits exactly when the operation is still the current one, uncommitted and in time, its
      response was fully sent, its helper is alive and `go` could be written; then the helper has its `go`.
      Otherwise it gives its own handoff up, and touches no other. */
  lemma FinaliserCommitsIff(w: World, operation: nat, goWrites: bool, writes: bool, w': World)
    requires PhaseInv(w.shared) && RuntimeInv(w) && HandoffStep(w, Finalise(operation, goWrites, writes), w')
    ensures var s, s' := w.shared, w'.shared;
            var mine := s.handoffId == Some(operation) && !s.armed;
            var commits := FullySent(w.requests[operation]) && InTime(s, w.now, goWrites);
            && (!mine ==> s' == s)
            && (mine && commits ==> Committed(s, s'))
            && (mine && !commits ==> GivenUp(s, s', writes))
  {
    ArmableIffFullySent(w.requests[operation]);
    if w.shared.handoffId == Some(operation) && !w.shared.armed {
      ArmIs(w.shared, operation, w.now, goWrites, writes);
      CancelIs(w.shared, operation, writes);
    }
  }

  /** The deadline of a handoff is fifteen seconds after its acceptance was noted. */
  lemma AcceptanceSetsDeadline(w: World, w': World)
    requires HandoffStep(w, BoundHandoff, w')
    ensures w'.shared == w.shared.(deadline := At(w.now + 15.0))
  {
  }

  // ----- over a whole run -----

  /** Step `i` admitted the operation: the user confirmed candidate `candidateId`, which was on offer. */
  ghost predicate Admits(states: seq<World>, steps: seq<Step>, i: nat, operation: nat, p: Prepared) {
    && i < |steps| && i + 1 < |states| && steps[i].Handoff? && steps[i].move.AdmitInstall?
    && steps[i].move.operation == operation
    && Confirmed(states[i].shared, steps[i].move.candidateId) && states[i].shared.prepared == Some(p)
    && states[i].shared.candidate.value.run == p.run && HasInstaller(states[i].disk, p.stage)
  }

  lemma DecisionsKeepPromises(w: World, a: HandoffAction, w': World)
    requires HandoffStep(w, a, w') && !Plumbing(a) && !a.AdmitInstall?
    ensures w'.promised == w.promised
  {
  }

  lemma OthersKeepPromises(w: World, a: Step, w': World)
    requires Inv(w) && Next(w, a, w') && !(a.Handoff? && a.move.AdmitInstall?)
    ensures w'.promised == w.promised
  {
    match a
    case Work(work) => WorkIsDownloadOnly(w, work, w');
    case Environment(change) => OutsideKeepsHistory(w, change, w');
    case Handoff(move) =>
      if Plumbing(move) {
        PlumbingDecidesNothing(w, move, w');
      } else {
        DecisionsKeepPromises(w, move, w');
      }
  }

  lemma AdmissionPromises(w: World, candidateId: nat, operation: nat, w': World, op: nat)
    requires PhaseInv(w.shared) && HandoffStep(w, AdmitInstall(candidateId, operation), w')
    requires op in w'.promised && op !in w.promised
    ensures op == operation && Confirmed(w.shared, candidateId) && w.shared.prepared == Some(w'.promised[op])
    ensures w.shared.candidate.value.run == w'.promised[op].run && HasInstaller(w.disk, w'.promised[op].stage)
  {
    AdmitIs(w, candidateId, operation);
  }

  lemma NewPromise(w: World, a: Step, w': World, op: nat)
    requires Inv(w) && Next(w, a, w') && op in w'.promised && op !in w.promised
    ensures a.Handoff? && a.move.AdmitInstall? && a.move.operation == op && Confirmed(w.shared, a.move.candidateId)
    ensures w.shared.prepared == Some(w'.promised[op]) && HasInstaller(w.disk, w'.promised[op].stage)
    ensures w.shared.candidate.value.run == w'.promised[op].run
  {
    if a.Handoff? && a.move.AdmitInstall? {
      AdmissionPromises(w, a.move.candidateId, a.move.operation, w', op);
    } else {
      OthersKeepPromises(w, a, w');
    }
  }

  lemma {:induction false} PromisedByAdmission(states: seq<World>, steps: seq<Step>, k: nat, operation: nat)
    returns (i: nat)
    requires IsRun(states, steps) && k < |states| && operation in states[k].promised
    ensures i < k && Admits(states, steps, i, operation, states[k].promised[operation])
  {
    Always(states, steps, k - 1);
    RunExtendsHistory(states, steps, k - 1);
    if operation in states[k - 1].promised {
      i := PromisedByAdmission(states, steps, k - 1, operation);
    } else {
      NewPromise(states[k - 1], steps[k - 1], states[k], operation);
      i := k - 1;
    }
  }

  /** Whatever a committed helper installs was confirmed: the user confirmed the candidate that was on offer,
      and the helper has the installer of that candidate's run. */
  lemma ConfirmedIsInstalled(states: seq<World>, steps: seq<Step>, k: nat, nonce: nat) returns (i: nat)
    requires IsRun(states, steps) && k < |states| && nonce in states[k].shared.runtime.brokers
    requires states[k].shared.runtime.brokers[nonce].go
    ensures nonce in states[k].owners && i < k
    ensures exists p: Prepared :: Admits(states, steps, i, states[k].owners[nonce], p)
                                  && states[k].shared.runtime.brokers[nonce].installer == p.stage
  {
    Always(states, steps, k);
    i := PromisedByAdmission(states, steps, k, states[k].owners[nonce]);
  }
}

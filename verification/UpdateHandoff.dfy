// The handoff side of the update machine, and the theorems about whole runs.
module UpdateHandoff {
  import opened Common
  import opened Staging
  import opened UpdaterCore
  import opened ResponseDelivery
  import opened UpdateMachine
  import opened UpdateSafety

  // ----- history -----

  lemma EventAppended(log: seq<Event>, e: Event, operation: nat)
    ensures HasWent(log + [e], operation) <==> HasWent(log, operation) || (e.Went? && e.operation == operation)
    ensures HasEnded(log + [e], operation) <==> HasEnded(log, operation) || (e.Ended? && e.operation == operation)
  {
    var after := log + [e];
    assert after[|log|] == e;
    if HasWent(log, operation) {
      var i :| 0 <= i < |log| && log[i].Went? && log[i].operation == operation;
      assert after[i] == log[i];
    }
    if HasEnded(log, operation) {
      var i :| 0 <= i < |log| && log[i].Ended? && log[i].operation == operation;
      assert after[i] == log[i];
    }
  }

  lemma EventIsWentOrEnded(log: seq<Event>, i: nat)
    requires i < |log|
    ensures HasWent(log, log[i].operation) || HasEnded(log, log[i].operation)
  {
    if log[i].Went? {
      assert HasWent(log, log[i].operation);
    } else {
      assert HasEnded(log, log[i].operation);
    }
  }

  lemma CurrentHasNoEvent(w: World)
    requires CurrentInv(w) && w.shared.handoffId.Some? && !w.shared.armed
    ensures forall i | 0 <= i < |w.log| :: w.log[i].operation != w.shared.handoffId.value
  {
    forall i | 0 <= i < |w.log|
      ensures w.log[i].operation != w.shared.handoffId.value
    {
      EventIsWentOrEnded(w.log, i);
    }
  }

  // ----- the end of a handoff -----

  /** What cancelling, or a failed start, does to the state: the handoff is over, the installer
      stays, no commit file appears. */
  predicate Ends(s: Shared, s': Shared) {
    && s'.handoffId.None? && !s'.handoff
    && s'.prepared == s.prepared && s'.candidate == s.candidate
    && (s'.phase.Ready? || (s'.phase.Error? && s.prepared.None?))
    && s'.busy == s.busy && s'.stage == s.stage && s'.armed == s.armed
    && (s'.runtime == s.runtime || s'.runtime == CancelWritten(s.runtime, true))
  }

  lemma EndKeepsBrokers(w: World, w': World)
    requires BrokerInv(w) && RuntimeInv(w) && w.shared.handoffId.Some? && Ends(w.shared, w'.shared)
    requires w' == w.(shared := w'.shared, log := w.log + [Ended(w.shared.handoffId.value)])
    ensures BrokerInv(w') && RuntimeInv(w')
  {
    var e := Ended(w.shared.handoffId.value);
    assert w'.shared.runtime.brokers.Keys == w.shared.runtime.brokers.Keys;
    forall n | n in w'.owners && n in w'.shared.runtime.brokers
      ensures w'.owners[n] in w'.promised
      ensures w'.shared.runtime.brokers[n].installer == w'.promised[w'.owners[n]].stage
      ensures w'.shared.runtime.brokers[n].go ==> HasWent(w'.log, w'.owners[n])
    {
      EventAppended(w.log, e, w.owners[n]);
    }
  }

  lemma EndKeepsLog(w: World, w': World)
    requires LogInv(w) && CurrentInv(w) && RequestInv(w) && w.shared.handoffId.Some? && w'.shared.handoffId.None?
    requires w' == w.(shared := w'.shared, log := w.log + [Ended(w.shared.handoffId.value)])
    ensures LogInv(w') && CurrentInv(w') && RequestInv(w')
  {
  }

  lemma EndKeeps(w: World, s': Shared)
    requires Inv(w) && w.shared.handoffId.Some? && Ends(w.shared, s')
    ensures Inv(Update(w, s'))
  {
    var w' := Update(w, s');
    EndKeepsBrokers(w, w');
    EndKeepsLog(w, w');
    DownloadFrame(w, w');
  }

  // ----- the commit -----

  lemma GoKeepsLog(w: World, s': Shared)
    requires HandoffInv(w) && w.install.NoInstall? && w.shared.handoffId.Some?
    requires w.shared.handoffId.value in w.finalised && FullySent(w.finalised[w.shared.handoffId.value])
    requires Arms(w.shared, w.shared.handoffId.value, w.now, true)
    requires s' == w.shared.(runtime := GoWritten(w.shared.runtime), armed := true)
    ensures LogInv(Update(w, s')) && CurrentInv(Update(w, s')) && RequestInv(Update(w, s'))
  {
    var op := w.shared.handoffId.value;
    var w' := Update(w, s');
    var e := Went(op, w.now, w.shared.deadline.time);
    assert w'.log == w.log + [e];
    CurrentHasNoEvent(w);
    EventAppended(w.log, e, op);
  }

  lemma GoKeepsBrokers(w: World, s': Shared)
    requires HandoffInv(w) && w.install.NoInstall? && w.shared.handoffId.Some?
    requires Arms(w.shared, w.shared.handoffId.value, w.now, true)
    requires s' == w.shared.(runtime := GoWritten(w.shared.runtime), armed := true)
    ensures BrokerInv(Update(w, s')) && RuntimeInv(Update(w, s'))
  {
    var op := w.shared.handoffId.value;
    var w' := Update(w, s');
    var e := Went(op, w.now, w.shared.deadline.time);
    assert w'.log == w.log + [e];
    assert w'.shared.runtime.brokers.Keys == w.shared.runtime.brokers.Keys;
    forall n | n in w'.owners && n in w'.shared.runtime.brokers
      ensures w'.owners[n] in w'.promised
      ensures w'.shared.runtime.brokers[n].installer == w'.promised[w'.owners[n]].stage
      ensures w'.shared.runtime.brokers[n].go ==> HasWent(w'.log, w'.owners[n])
    {
      EventAppended(w.log, e, w.owners[n]);
    }
  }

  lemma GoKeeps(w: World, s': Shared)
    requires Inv(w) && w.install.NoInstall? && w.shared.handoffId.Some?
    requires w.shared.handoffId.value in w.finalised && FullySent(w.finalised[w.shared.handoffId.value])
    requires Arms(w.shared, w.shared.handoffId.value, w.now, true)
    requires s' == w.shared.(runtime := GoWritten(w.shared.runtime), armed := true)
    ensures Inv(Update(w, s'))
  {
    GoKeepsLog(w, s');
    GoKeepsBrokers(w, s');
    DownloadFrame(w, Update(w, s'));
  }

  // ----- response callbacks and the watchdog -----

  lemma FinalisingKeeps(w: World, operation: nat)
    requires Inv(w) && operation in w.requests
    ensures Inv(w.(requests := w.requests - {operation}, finalised := w.finalised[operation := w.requests[operation]]))
  {
    var v := w.(requests := w.requests - {operation}, finalised := w.finalised[operation := w.requests[operation]]);
    DownloadFrame(w, v);
    assert v.log == w.log;
  }

  /** The finaliser commits only the operation its response belongs to, while it is current. */
  lemma FinaliseKeeps(w: World, operation: nat, goWrites: bool, writes: bool, w': World)
    requires Inv(w) && HandoffStep(w, Finalise(operation, goWrites, writes), w')
    ensures Inv(w')
  {
    FinalisingKeeps(w, operation);
    var trace := w.requests[operation];
    var v := w.(requests := w.requests - {operation}, finalised := w.finalised[operation := trace]);
    SettleKeeps(v, operation, goWrites, writes);
  }

  lemma SettleKeeps(v: World, operation: nat, goWrites: bool, writes: bool)
    requires Inv(v) && operation in v.finalised
    ensures Inv(Update(v, if Armable(Follow(v.finalised[operation]))
                          then Arm(v.shared, operation, v.now, goWrites, writes)
                          else CancelInstall(v.shared, operation, writes)))
  {
    ArmableIffFullySent(v.finalised[operation]);
    if v.shared.handoffId == Some(operation) && !v.shared.armed {
      if Armable(Follow(v.finalised[operation])) && Arms(v.shared, operation, v.now, goWrites) {
        GoKeeps(v, Arm(v.shared, operation, v.now, goWrites, writes));
      } else {
        EndKeeps(v, Cancelled(v.shared, writes));
      }
    } else {
      assert Update(v, v.shared) == v;
    }
  }

  lemma ObserveKeeps(w: World, writes: bool, w': World)
    requires Inv(w) && HandoffStep(w, Observe(writes), w')
    ensures Inv(w')
  {
    if WatchCancels(w.shared, w.now) {
      EndKeeps(w, Cancelled(w.shared, writes));
    }
  }

  lemma DeliverKeeps(w: World, operation: nat, event: AsgiEvent, w': World)
    requires Inv(w) && HandoffStep(w, Deliver(operation, event), w')
    ensures Inv(w')
  {
    DownloadFrame(w, w');
    assert w'.requests.Keys == w.requests.Keys;
    assert w'.log == w.log;
  }

  // ----- the installation call -----

  /** Moving the installation on, with nothing else changed. */
  lemma InstallMoves(w: World, install: InstallPc)
    requires Inv(w) && !w.install.NoInstall? && !install.NoInstall? && install.operation == w.install.operation
    requires || install.Failing? || (install.Cancelling? && w.shared.handoffId.None?)
             || (w.install.Awaiting? && install.Bounding?)
    ensures Inv(w.(install := install))
  {
    var w' := w.(install := install);
    DownloadFrame(w, w');
    assert w'.log == w.log;
  }

  lemma AdmissionShared(w: World, candidateId: nat, operation: nat)
    requires PhaseInv(w.shared)
    ensures var s, (s', admission) := w.shared, Admit(w, candidateId, operation);
            && PhaseInv(s') && SameDownload(s, s')
            && (admission.Rejected? ==> s' == s)
            && (admission.Missing? ==> s.handoffId.None? && s'.handoffId.None? && s'.runtime == s.runtime)
            && (admission.Admitted? ==>
                  && s.handoffId.None? && s'.handoffId == Some(operation)
                  && s'.prepared == s.prepared && s.prepared.Some?
                  && s'.runtime == Forgotten(s.runtime) && !s'.armed)
  {
  }

  lemma UnusedHasNoEvent(w: World, operation: nat)
    requires LogInv(w) && operation !in w.operations
    ensures !HasWent(w.log, operation) && !HasEnded(w.log, operation)
  {
  }

  lemma AdmittedKeeps(w: World, operation: nat, s': Shared)
    requires Inv(w) && w.install.NoInstall? && operation !in w.operations
    requires w.shared.handoffId.None? && s'.handoffId == Some(operation) && s'.prepared == w.shared.prepared
    requires w.shared.prepared.Some? && s'.runtime == Forgotten(w.shared.runtime) && !s'.armed
    ensures HandoffInv(w.(shared := s', install := Starting(operation, w.shared.prepared.value.stage),
                          operations := w.operations + {operation},
                          promised := w.promised[operation := w.shared.prepared.value]))
  {
    UnusedHasNoEvent(w, operation);
    var w' := w.(shared := s', install := Starting(operation, w.shared.prepared.value.stage),
                 operations := w.operations + {operation},
                 promised := w.promised[operation := w.shared.prepared.value]);
    assert w'.log == w.log;
    forall n | n in w'.owners && n in w'.shared.runtime.brokers
      ensures w'.owners[n] in w'.promised
      ensures w'.shared.runtime.brokers[n].installer == w'.promised[w'.owners[n]].stage
    {
      assert w.owners[n] in w.promised && w.owners[n] in w.operations;
    }
  }

  lemma AdmitKeeps(w: World, candidateId: nat, operation: nat, w': World)
    requires Inv(w) && HandoffStep(w, AdmitInstall(candidateId, operation), w')
    ensures Inv(w')
  {
    if Admit(w, candidateId, operation).1.Admitted? {
      AdmitAdmits(w, candidateId, operation, w');
    } else {
      AdmitRefuses(w, candidateId, operation, w');
    }
  }

  lemma AdmitAdmits(w: World, candidateId: nat, operation: nat, w': World)
    requires Inv(w) && HandoffStep(w, AdmitInstall(candidateId, operation), w')
    requires Admit(w, candidateId, operation).1.Admitted?
    ensures Inv(w')
  {
    AdmissionShared(w, candidateId, operation);
    DownloadFrame(w, w');
    AdmittedKeeps(w, operation, Admit(w, candidateId, operation).0);
  }

  lemma AdmitRefuses(w: World, candidateId: nat, operation: nat, w': World)
    requires Inv(w) && HandoffStep(w, AdmitInstall(candidateId, operation), w')
    requires !Admit(w, candidateId, operation).1.Admitted?
    ensures Inv(w')
  {
    AdmissionShared(w, candidateId, operation);
    DownloadFrame(w, w');
    assert w'.log == w.log;
  }

  lemma AnsweredKeeps(w: World, accepted: bool, w': World)
    requires Inv(w) && HandoffStep(w, Answered(accepted), w')
    ensures Inv(w')
  {
    if accepted {
      InstallMoves(w, Bounding(w.install.operation));
    } else {
      InstallMoves(w, Failing(w.install.operation));
      var v := w.(install := Failing(w.install.operation));
      DownloadFrame(v, w');
      assert w'.log == v.log;
    }
  }

  lemma BoundKeeps(w: World, w': World)
    requires Inv(w) && HandoffStep(w, BoundHandoff, w')
    ensures Inv(w')
  {
    DownloadFrame(w, w');
    var op := w.install.operation;
    assert w'.log == w.log;
    forall i | 0 <= i < |w'.log|
      ensures Justified(w', w'.log[i])
    {
      assert Justified(w, w.log[i]);
    }
  }

  lemma WatchdogKeeps(w: World, threadStarts: bool, w': World)
    requires Inv(w) && HandoffStep(w, StartWatchdog(threadStarts), w')
    ensures Inv(w')
  {
    if threadStarts {
      DownloadFrame(w, w');
      assert w'.log == w.log;
    } else {
      InstallMoves(w, Failing(w.install.operation));
    }
  }

  lemma InstallFailsKeeps(w: World, w': World)
    requires Inv(w) && HandoffStep(w, InstallFails, w')
    ensures Inv(w')
  {
    var s' := FailInstall(w.shared, w.install.operation);
    if w.shared.handoffId == Some(w.install.operation) {
      EndKeeps(w, s');
    }
    InstallMoves(Update(w, s'), Cancelling(w.install.operation));
  }

  /** The broker's own directory is a new one, so it displaces nothing. */
  lemma PlaceKeeps(w: World, directory: nat, stage: Stage)
    requires Inv(w) && directory !in w.stages && stage.artifacts == {}
    ensures Inv(w.(disk := w.disk[directory := stage], stages := w.stages + {directory}))
  {
    var w1 := w.(disk := w.disk[directory := stage], stages := w.stages + {directory});
    assert forall s | s in w.stages && HasInstaller(w.disk, s) :: HasInstaller(w1.disk, s);
    HandoffFrame(w, w1);
  }

  lemma DrawKeeps(w: World, directory: nat)
    requires Inv(w)
    ensures Inv(w.(stages := w.stages + {directory}))
  {
    HandoffFrame(w, w.(stages := w.stages + {directory}));
  }

  lemma SpawnedKeeps(w: World, nonce: nat, w': World)
    requires Inv(w) && w.install.Starting? && nonce !in w.owners
    requires w' == w.(shared := w.shared.(runtime := Spawned(w.shared.runtime, nonce, w.install.installer)),
                      install := Awaiting(w.install.operation),
                      owners := w.owners[nonce := w.install.operation])
    ensures Inv(w')
  {
    DownloadFrame(w, w');
    assert w'.log == w.log;
    assert w'.shared.runtime.brokers.Keys == w.shared.runtime.brokers.Keys + {nonce};
  }

  /** `start` never finds a helper of an earlier attempt still current: admission forgot it. */
  lemma NoEarlierHelper(w: World)
    requires Inv(w) && w.install.Starting?
    ensures !w.shared.runtime.process.Running?
  {
  }

  lemma SpawnKeeps(w: World, created: Option<nat>, directory: nat, modified: int, w': World)
    requires Inv(w) && HandoffStep(w, Spawn(created, directory, modified), w')
    ensures Inv(w')
  {
    NoEarlierHelper(w);
    if created.Some? {
      SpawnSucceeds(w, created, directory, modified, w');
    } else {
      SpawnFails(w, created, directory, modified, w');
    }
  }

  lemma SpawnSucceeds(w: World, created: Option<nat>, directory: nat, modified: int, w': World)
    requires Inv(w) && HandoffStep(w, Spawn(created, directory, modified), w')
    requires created.Some? && !w.shared.runtime.process.Running?
    ensures Inv(w')
  {
    PlaceKeeps(w, directory, Stage(modified, {}));
    var placed := w.(disk := w.disk[directory := Stage(modified, {})], stages := w.stages + {directory});
    SpawnedKeeps(placed, created.value, w');
  }

  lemma SpawnFails(w: World, created: Option<nat>, directory: nat, modified: int, w': World)
    requires Inv(w) && HandoffStep(w, Spawn(created, directory, modified), w')
    requires created.None? && !w.shared.runtime.process.Running?
    ensures Inv(w')
  {
    if w'.disk == w.disk {
      DrawKeeps(w, directory);
      InstallMoves(w.(stages := w.stages + {directory}), Failing(w.install.operation));
    } else {
      PlaceKeeps(w, directory, Stage(modified, {}));
      InstallMoves(w.(disk := w.disk[directory := Stage(modified, {})], stages := w.stages + {directory}),
                   Failing(w.install.operation));
    }
  }

  /** Changing what is known of one broker, but not its installer or commit file. */
  lemma BrokerNoteKeeps(w: World, r': Runtime)
    requires Inv(w)
    requires r'.nonce == w.shared.runtime.nonce
    requires r'.process == w.shared.runtime.process || (r'.process.Exited? && w.shared.runtime.process.Running?)
    requires r'.brokers.Keys == w.shared.runtime.brokers.Keys
    requires forall n | n in r'.brokers :: r'.brokers[n].installer == w.shared.runtime.brokers[n].installer
                                        && r'.brokers[n].go == w.shared.runtime.brokers[n].go
    ensures Inv(w.(shared := w.shared.(runtime := r')))
  {
    var w' := w.(shared := w.shared.(runtime := r'));
    DownloadFrame(w, w');
    assert w'.log == w.log;
  }

  lemma CancelOutsideKeeps(w: World, writes: bool, w': World)
    requires Inv(w) && HandoffStep(w, CancelOutside(writes), w')
    ensures Inv(w')
  {
    var r' := CancelWritten(w.shared.runtime, writes);
    assert r'.brokers.Keys == w.shared.runtime.brokers.Keys;
    BrokerNoteKeeps(w, r');
    var v := w.(shared := w.shared.(runtime := r'));
    FailedIsOver(v);
    DownloadFrame(v, w');
    assert w'.log == v.log;
  }

  lemma FailedIsOver(w: World)
    requires Inv(w) && w.install.Cancelling?
    ensures w.shared.handoffId.None?
  {
  }
}

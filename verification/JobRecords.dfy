// What the record of a job says, and how long it is kept, told from the steps of the queue alone
// (backend/app/task_queue.py:111-201).
module JobRecords {
  import opened Common
  import opened TaskQueues

  // ----- the steps -----

  /** A job is accepted exactly when the queue is open and holds fewer than 500; a refusal of a closing queue
      changes nothing. */
  lemma AcceptedIff(w: World, id: nat, now: real, w': World)
    requires Next(w, Submit(id, now), w')
    ensures w'.accepted == (if !w.q.closing && |w.q.queue| < 500 then w.accepted + [id] else w.accepted)
    ensures !w.q.closing && |w.q.queue| < 500 ==>
              && w'.q.queue == w.q.queue + [id]
              && id in w'.q.requests && w'.q.requests[id] == Request(Pending, now, None, None)
    ensures w.q.closing ==> w' == w
    ensures w'.worker == w.worker && w'.started == w.started && w'.finished == w.finished
  {
  }

  /** A record goes exactly when its job was completed more than an hour ago and somebody looks; only a look
      at all records, or a submission to an open queue, is such an occasion. */
  lemma EvictedIff(w: World, a: Step, w': World, id: nat)
    requires Inv(w) && Next(w, a, w') && id in w.q.requests
    ensures id !in w'.q.requests
       <==> && (a.Snapshots? || (a.Submit? && !w.q.closing))
            && w.q.requests[id].completed.Some? && a.now - w.q.requests[id].completed.value > 3600.0
  {
  }

  /** A free worker starts the oldest waiting job, waits without one, and exits only when the queue is closing. */
  lemma PickStartsOldest(w: World, now: real, w': World)
    requires Inv(w) && Next(w, Pick(now), w')
    ensures w.q.queue != [] ==> w'.worker == Busy(w.q.queue[0]) && w'.q.queue == w.q.queue[1..]
    ensures w.q.queue == [] ==> w' == w.(worker := if w.q.closing then Exited else w.worker)
  {
    PickNeverSkips(w, now);
  }

  // ----- what happened to a job -----

  /** The job was accepted at this time. */
  ghost predicate AcceptedAt(states: seq<World>, steps: seq<Step>, j: nat, id: nat, at: real) {
    && j < |steps| && j + 1 < |states| && steps[j] == Submit(id, at)
    && id !in states[j].accepted && id in states[j + 1].accepted
  }

  /** The worker took the job at this time. */
  ghost predicate StartedAt(states: seq<World>, steps: seq<Step>, j: nat, id: nat, at: real) {
    && j < |steps| && j + 1 < |states| && steps[j] == Pick(at)
    && states[j].worker.Ready? && states[j + 1].worker == Busy(id)
  }

  /** The job returned, or raised, at this time. */
  ghost predicate FinishedAt(states: seq<World>, steps: seq<Step>, j: nat, id: nat, ok: bool, at: real) {
    && j < |steps| && j + 1 < |states| && steps[j] == Finish(ok, at) && states[j].worker == Busy(id)
  }

  /** The record of a job, if there still is one. */
  function RecordOf(w: World, id: nat): Option<Request> {
    if id in w.q.requests then Some(w.q.requests[id]) else None
  }

  /** A record changes only when its job is accepted, starts or finishes, and never comes back. */
  lemma RecordStays(w: World, a: Step, w': World, id: nat)
    requires Inv(w) && Next(w, a, w') && id in w.accepted
    requires !(a.Pick? && w'.worker == Busy(id)) && !(a.Finish? && w.worker == Busy(id))
    ensures RecordOf(w', id).None? || RecordOf(w', id) == RecordOf(w, id)
  {
    if a.Pick? {
      PickStartsOldest(w, a.now, w');
    }
  }

  lemma StartRecords(w: World, now: real, w': World, id: nat)
    requires Inv(w) && Next(w, Pick(now), w') && w'.worker == Busy(id)
    ensures RecordOf(w, id).Some? && id in w.accepted
    ensures RecordOf(w', id) == Some(RecordOf(w, id).value.(status := Running, started := Some(now)))
    ensures w'.q.currentStarted == Some(now) && w'.q.lastCompleted == w.q.lastCompleted
  {
    PickStartsOldest(w, now, w');
    if w.q.queue != [] {
      assert w.q.queue[0] in w.q.queue;
    }
  }

  lemma FinishRecords(w: World, ok: bool, now: real, w': World, id: nat)
    requires Inv(w) && Next(w, Finish(ok, now), w') && w.worker == Busy(id)
    ensures RecordOf(w, id).Some?
    ensures RecordOf(w', id)
         == Some(RecordOf(w, id).value.(status := if ok then Succeeded else Failed, completed := Some(now)))
    ensures w'.q.currentStarted.None? && w'.q.lastCompleted == Some(now) && w'.worker.Ready?
  {
  }

  // ----- the record of a job over a whole run -----

  /** From its acceptance on a record has the time of the acceptance. */
  lemma {:induction false} CreatedThen(states: seq<World>, steps: seq<Step>, j: nat, k: nat, id: nat, at: real)
    requires IsRun(states, steps) && j < k < |states| && AcceptedAt(states, steps, j, id, at)
    ensures id in states[k].accepted && (RecordOf(states[k], id).Some? ==> RecordOf(states[k], id).value.created == at)
  {
    Always(states, steps, k - 1);
    if k == j + 1 {
      AcceptedIff(states[j], id, at, states[k]);
    } else {
      CreatedThen(states, steps, j, k - 1, id, at);
      OneStep(states, steps, k - 1, id);
    }
  }

  /** From its start on, it has the time of the start. */
  lemma {:induction false} StartedThen(states: seq<World>, steps: seq<Step>, j: nat, k: nat, id: nat, at: real)
    requires IsRun(states, steps) && j < k < |states| && StartedAt(states, steps, j, id, at)
    ensures id in states[k].started
    ensures RecordOf(states[k], id).Some? ==> RecordOf(states[k], id).value.started == Some(at)
  {
    Always(states, steps, k - 1);
    if k == j + 1 {
      StartRecords(states[j], at, states[k], id);
    } else {
      StartedThen(states, steps, j, k - 1, id, at);
      OneStep(states, steps, k - 1, id);
    }
  }

  /** And from its end on, the time and the outcome. */
  lemma {:induction false} FinishedThen(
    states: seq<World>, steps: seq<Step>, j: nat, k: nat, id: nat, ok: bool, at: real)
    requires IsRun(states, steps) && j < k < |states| && FinishedAt(states, steps, j, id, ok, at)
    ensures id in states[k].finished
    ensures RecordOf(states[k], id).Some? ==>
              && RecordOf(states[k], id).value.completed == Some(at)
              && RecordOf(states[k], id).value.status == if ok then Succeeded else Failed
  {
    Always(states, steps, k - 1);
    if k == j + 1 {
      FinishRecords(states[j], ok, at, states[k], id);
    } else {
      FinishedThen(states, steps, j, k - 1, id, ok, at);
      OneStep(states, steps, k - 1, id);
    }
  }

  lemma SetTogether(w: World, id: nat)
    requires Inv(w) && id in w.started
    ensures id !in w.q.queue && id in w.accepted
    ensures id in w.finished ==> w.worker != Busy(id)
  {
    assert w.accepted == w.started + w.q.queue;
    DistinctParts(w.started, w.q.queue);
    DistinctParts(w.finished, Current(w.worker));
  }

  /** One step later the record of an accepted job is gone, or keeps the times it had: a job starts only if it
      has not, and finishes only if it has not. */
  lemma OneStep(states: seq<World>, steps: seq<Step>, k: nat, id: nat)
    requires IsRun(states, steps) && k + 1 < |states| && id in states[k].accepted
    ensures var w, w' := states[k], states[k + 1];
            && id in w'.accepted && (id in w.started ==> id in w'.started) && (id in w.finished ==> id in w'.finished)
            && (RecordOf(w', id).Some? ==>
                  && RecordOf(w, id).Some? && RecordOf(w', id).value.created == RecordOf(w, id).value.created
                  && (id in w.started ==> RecordOf(w', id).value.started == RecordOf(w, id).value.started)
                  && (id in w.finished ==> RecordOf(w', id) == RecordOf(w, id)))
  {
    var w, a, w' := states[k], steps[k], states[k + 1];
    Always(states, steps, k);
    if id in w.started {
      SetTogether(w, id);
    }
    if a.Pick? && w'.worker == Busy(id) {
      PickStartsOldest(w, a.now, w');
      StartRecords(w, a.now, w', id);
    } else if a.Finish? && w.worker == Busy(id) {
      FinishRecords(w, a.ok, a.now, w', id);
    } else {
      RecordStays(w, a, w', id);
    }
  }

  // ----- and every accepted, started or finished job was -----

  lemma {:induction false} WasAccepted(states: seq<World>, steps: seq<Step>, k: nat, id: nat) returns (j: nat, at: real)
    requires IsRun(states, steps) && k < |states| && id in states[k].accepted
    ensures j < k && AcceptedAt(states, steps, j, id, at)
  {
    if id in states[k - 1].accepted {
      j, at := WasAccepted(states, steps, k - 1, id);
    } else {
      j, at := k - 1, steps[k - 1].now;
    }
  }

  lemma {:induction false} WasStarted(states: seq<World>, steps: seq<Step>, k: nat, id: nat) returns (j: nat, at: real)
    requires IsRun(states, steps) && k < |states| && id in states[k].started
    ensures j < k && StartedAt(states, steps, j, id, at)
  {
    if id in states[k - 1].started {
      j, at := WasStarted(states, steps, k - 1, id);
    } else {
      j, at := k - 1, steps[k - 1].now;
    }
  }

  lemma {:induction false} WasFinished(states: seq<World>, steps: seq<Step>, k: nat, id: nat)
    returns (j: nat, ok: bool, at: real)
    requires IsRun(states, steps) && k < |states| && id in states[k].finished
    ensures j < k && FinishedAt(states, steps, j, id, ok, at)
  {
    if id in states[k - 1].finished {
      j, ok, at := WasFinished(states, steps, k - 1, id);
    } else {
      j, ok, at := k - 1, steps[k - 1].ok, steps[k - 1].now;
    }
  }

  /** In every reachable state a record says what happened to its job: when it was accepted, when it started,
      when it ended, and that it succeeded exactly when it returned a success. */
  lemma RecordTheorem(states: seq<World>, steps: seq<Step>, k: nat, id: nat)
    requires IsRun(states, steps) && k < |states| && id in states[k].q.requests
    ensures var w, r := states[k], states[k].q.requests[id];
            && (exists j: nat | j < k :: AcceptedAt(states, steps, j, id, r.created))
            && (id !in w.started ==> r.status.Pending? && r.completed.None?)
            && (id in w.started ==>
                  r.started.Some? && exists j: nat | j < k :: StartedAt(states, steps, j, id, r.started.value))
            && (id in w.started && id !in w.finished ==> r.status.Running? && r.completed.None?)
            && (id in w.finished ==>
                  && r.completed.Some? && (r.status.Succeeded? || r.status.Failed?)
                  && exists j: nat | j < k ::
                       FinishedAt(states, steps, j, id, r.status.Succeeded?, r.completed.value))
  {
    Always(states, steps, k);
    var w := states[k];
    var j, at := WasAccepted(states, steps, k, id);
    CreatedThen(states, steps, j, k, id, at);
    if id in w.started {
      var i, from := WasStarted(states, steps, k, id);
      StartedThen(states, steps, i, k, id, from);
    }
    if id in w.finished {
      var i, ok, end := WasFinished(states, steps, k, id);
      FinishedThen(states, steps, i, k, id, ok, end);
      assert FinishedAt(states, steps, i, id, w.q.requests[id].status.Succeeded?, w.q.requests[id].completed.value);
    } else {
      assert id in w.started + w.q.queue;
    }
  }
}

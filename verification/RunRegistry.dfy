// The states of experiment runs and the registry that admits one active run per experiment and step
// (backend/app/shared/agent/experiment_runs.py:41-156; backend/app/api/routers/experiments.py:521-537,
// 623-641, 690-717).
module RunRegistry {
  import opened Common

  type RunId = nat
  type VariantId = nat

  datatype Status = Queued | Running | Completed | Failed | Cancelled | Interrupted

  predicate Terminal(s: Status) {
    s.Completed? || s.Failed? || s.Cancelled?
  }

  predicate Active(s: Status) {
    !Terminal(s) && !s.Interrupted?
  }

  /** A run is in the way of another exactly while it is queued or running. */
  lemma ActiveIff(s: Status)
    ensures Active(s) <==> s.Queued? || s.Running?
  {
  }

  // ----- one run -----

  function Outcome(variants: map<VariantId, Status>): Status {
    if exists v | v in variants :: variants[v].Cancelled? then Cancelled
    else if exists v | v in variants :: variants[v].Failed? then Failed
    else Completed
  }

  /** What `finally` leaves: a variant that never reached an end counts as cancelled. */
  function Settled(variants: map<VariantId, Status>): map<VariantId, Status> {
    map v | v in variants :: if Terminal(variants[v]) then variants[v] else Cancelled
  }

  class RunState {
    var status: Status
    var variants: map<VariantId, Status>

    constructor (ids: set<VariantId>)
      ensures status == Running && variants == map v | v in ids :: Queued
    {
      status := Running;
      variants := map v | v in ids :: Queued;
    }

    method Update(id: VariantId, s: Status)
      modifies this
      ensures status == old(status)
      ensures variants == if id in old(variants) then old(variants)[id := s] else old(variants)
    {
      if id !in variants {
        return;
      }
      variants := variants[id := s];
    }

    method Finish()
      modifies this
      ensures variants == old(variants) && status == Outcome(variants)
    {
      var todo, failed := variants.Keys, false;
      while todo != {}
        invariant todo <= variants.Keys && variants == old(variants)
        invariant forall v | v in variants && v !in todo :: !variants[v].Cancelled?
        invariant failed <==> exists v | v in variants && v !in todo :: variants[v].Failed?
        decreases todo
      {
        var v :| v in todo;
        if variants[v].Cancelled? {
          status := Cancelled;
          return;
        }
        failed := failed || variants[v].Failed?;
        todo := todo - {v};
      }
      status := if failed then Failed else Completed;
    }

    method FailAll()
      modifies this
      ensures status == old(status)
      ensures variants == map v | v in old(variants) :: Failed
    {
      var todo := variants.Keys;
      while todo != {}
        invariant todo <= variants.Keys == old(variants).Keys && status == old(status)
        invariant forall v | v in variants && v !in todo :: variants[v].Failed?
        decreases todo
      {
        var v :| v in todo;
        Update(v, Failed);
        todo := todo - {v};
      }
    }

    /** The `finally` block of the run's thread. */
    method Settle()
      modifies this
      ensures variants == Settled(old(variants)) && status == Outcome(variants)
      ensures variants.Keys == old(variants).Keys
      ensures forall v | v in variants ::
                variants[v] == if Terminal(old(variants)[v]) then old(variants)[v] else Cancelled
    {
      var todo := variants.Keys;
      while todo != {}
        invariant todo <= variants.Keys == old(variants).Keys
        invariant forall v | v in todo :: variants[v] == old(variants)[v]
        invariant forall v | v in variants && v !in todo :: variants[v] == Settled(old(variants))[v]
        decreases todo
      {
        var v :| v in todo;
        if !Terminal(variants[v]) {
          Update(v, Cancelled);
        }
        todo := todo - {v};
      }
      Finish();
    }
  }

  /** A run ends completed exactly when every variant completed, failed exactly when some variant
      failed and none was cancelled or left over; it is never active again. */
  lemma OutcomeTheorem(variants: map<VariantId, Status>)
    ensures var s := Outcome(Settled(variants));
            && !Active(s)
            && (s == Completed <==> forall v | v in variants :: variants[v] == Completed)
            && (s == Cancelled <==> exists v | v in variants :: variants[v] == Cancelled || !Terminal(variants[v]))
            && (s == Failed <==> (forall v | v in variants :: variants[v] == Completed || variants[v] == Failed)
                                 && exists v | v in variants :: variants[v] == Failed)
  {
    var settled := Settled(variants);
    assert forall v :: v in settled <==> v in variants;
    if v :| v in variants && (variants[v] == Cancelled || !Terminal(variants[v])) {
      assert settled[v].Cancelled?;
    } else if v :| v in variants && variants[v] == Failed {
      assert settled[v].Failed?;
    }
  }

  // ----- the registry -----

  datatype Run = Run(experiment: nat, step: nat, status: Status)

  class Registry {
    var runs: map<RunId, Run>

    constructor ()
      ensures runs == map[]
    {
      runs := map[];
    }

    /** The new run, or the id of the run in its way. */
    method Start(newId: RunId, experiment: nat, step: nat) returns (conflict: Option<RunId>)
      requires newId !in runs
      modifies this
      ensures conflict.Some? ==> runs == old(runs) && conflict.value in runs
                                 && Blocks(runs[conflict.value], experiment, step)
      ensures conflict.None? ==> runs == old(runs)[newId := Run(experiment, step, Running)]
                                 && forall id | id in old(runs) :: !Blocks(old(runs)[id], experiment, step)
    {
      var todo := runs.Keys;
      while todo != {}
        invariant todo <= runs.Keys && runs == old(runs)
        invariant forall id | id in runs && id !in todo :: !Blocks(runs[id], experiment, step)
        decreases todo
      {
        var id :| id in todo;
        if Blocks(runs[id], experiment, step) {
          return Some(id);
        }
        todo := todo - {id};
      }
      runs := runs[newId := Run(experiment, step, Running)];
      conflict := None;
    }

    method ActiveFor(experiment: nat) returns (id: Option<RunId>)
      ensures id.Some? ==> id.value in runs && runs[id.value].experiment == experiment && Active(runs[id.value].status)
      ensures id.None? ==> forall r | r in runs && runs[r].experiment == experiment :: !Active(runs[r].status)
    {
      var todo := runs.Keys;
      while todo != {}
        invariant todo <= runs.Keys
        invariant forall r | r in runs && r !in todo :: !(runs[r].experiment == experiment && Active(runs[r].status))
        decreases todo
      {
        var r :| r in todo;
        if runs[r].experiment == experiment && Active(runs[r].status) {
          return Some(r);
        }
        todo := todo - {r};
      }
      id := None;
    }

    method Forget(id: RunId)
      modifies this
      ensures runs == old(runs) - {id}
    {
      runs := runs - {id};
    }
  }

  predicate Blocks(r: Run, experiment: nat, step: nat) {
    r.experiment == experiment && r.step == step && Active(r.status)
  }

  // ----- all threads -----

  /** `all` holds every run ever started, `registered` the ids the registry knows, and `seen` the ids
      that a polling request has found inactive and may be about to forget. */
  datatype World = World(all: map<RunId, Run>, registered: set<RunId>, seen: set<RunId>)

  datatype Action =
    | Begin(id: RunId, experiment: nat, step: nat)
    | End(id: RunId, status: Status)
    | Poll(id: RunId)
    | Drop(id: RunId)

  ghost predicate Conflicts(w: World, experiment: nat, step: nat) {
    exists id | id in w.registered && id in w.all :: Blocks(w.all[id], experiment, step)
  }

  ghost predicate Step(w: World, a: Action, w': World) {
    match a
    case Begin(id, experiment, step) =>
      && id !in w.all
      && if Conflicts(w, experiment, step)
         then w' == w
         else w' == World(w.all[id := Run(experiment, step, Running)], w.registered + {id}, w.seen)
    case End(id, status) =>
      id in w.all && Terminal(status) && w' == w.(all := w.all[id := w.all[id].(status := status)])
    case Poll(id) =>
      id in w.registered && id in w.all && !Active(w.all[id].status) && w' == w.(seen := w.seen + {id})
    case Drop(id) =>
      id in w.seen && w' == w.(registered := w.registered - {id})
  }

  ghost predicate IsRun(ws: seq<World>, actions: seq<Action>) {
    && |ws| == |actions| + 1 && ws[0] == World(map[], {}, {})
    && forall i | 0 <= i < |actions| :: Step(ws[i], actions[i], ws[i + 1])
  }

  ghost predicate Inv(w: World) {
    && w.registered <= w.all.Keys && w.seen <= w.all.Keys
    && (forall id | id in w.all && Active(w.all[id].status) :: id in w.registered)
    && (forall id | id in w.seen :: !Active(w.all[id].status))
    && AtMostOne(w)
  }

  ghost predicate AtMostOne(w: World) {
    forall i, j | && i in w.all && j in w.all && Active(w.all[i].status)
                  && Blocks(w.all[j], w.all[i].experiment, w.all[i].step) ::
      i == j
  }

  lemma StepKeeps(w: World, a: Action, w': World)
    requires Inv(w) && Step(w, a, w')
    ensures Inv(w')
    ensures forall id | id in w.all :: id in w'.all && (Active(w'.all[id].status) ==> Active(w.all[id].status))
  {
  }

  /** In every state of every run: at most one active run per experiment and step, and a start is
      refused exactly when there is one, whether or not the registry still knows it. */
  lemma {:induction false} OneActiveRunTheorem(ws: seq<World>, actions: seq<Action>, i: nat)
    requires IsRun(ws, actions) && i <= |actions|
    ensures Inv(ws[i])
    ensures forall e, s :: Conflicts(ws[i], e, s) <==> exists id | id in ws[i].all :: Blocks(ws[i].all[id], e, s)
  {
    if i > 0 {
      OneActiveRunTheorem(ws, actions, i - 1);
      StepKeeps(ws[i - 1], actions[i - 1], ws[i]);
    }
  }

  /** A run that has ended never becomes active again. */
  lemma {:induction false} EndedStaysEnded(ws: seq<World>, actions: seq<Action>, i: nat, j: nat, id: RunId)
    requires IsRun(ws, actions) && i <= j <= |actions| && id in ws[i].all && !Active(ws[i].all[id].status)
    ensures id in ws[j].all && !Active(ws[j].all[id].status)
  {
    if i < j {
      EndedStaysEnded(ws, actions, i, j - 1, id);
      OneActiveRunTheorem(ws, actions, j - 1);
      StepKeeps(ws[j - 1], actions[j - 1], ws[j]);
    }
  }

  /** `forget` itself does not look at the run: a start of the same step right after it makes a second
      active run exactly when the forgotten run was active, which is what the polling endpoint tests. */
  lemma ForgetIsSafeIff(w: World, id: RunId, next: RunId)
    requires Inv(w) && id in w.registered && next !in w.all
    ensures var r := w.all[id];
            var forgotten := w.(registered := w.registered - {id});
            var all := forgotten.all[next := Run(r.experiment, r.step, Running)];
            var w' := World(all, forgotten.registered + {next}, w.seen);
            && (Active(r.status) ==> !Conflicts(forgotten, r.experiment, r.step))
            && (!Conflicts(forgotten, r.experiment, r.step) ==>
                  Step(forgotten, Begin(next, r.experiment, r.step), w') && (AtMostOne(w') <==> !Active(r.status)))
  {
    var r := w.all[id];
    var w' := World(w.all[next := Run(r.experiment, r.step, Running)], w.registered - {id} + {next}, w.seen);
    assert w'.all[id] == r && id != next && Blocks(w'.all[next], r.experiment, r.step);
  }
}

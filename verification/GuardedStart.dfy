// The guard of a step, its registration and what its run records, with several requests at once
// (backend/app/api/routers/experiments.py:517-585; backend/app/shared/agent/experiments.py:400-423).
module GuardedStart {
  import opened Common
  import opened Progress

  type RequestId = nat

  /** A request for the step: admitted by the guard on what it loaded, registered as the step's run, over. */
  datatype Phase = Admitted(variants: seq<VariantId>) | Refused | Active(variants: seq<VariantId>) | Ended

  /** The stored progress and the requests for one step so far. */
  datatype World = World(row: Content, requests: map<RequestId, Phase>)

  datatype Action =
    | Load(id: RequestId, variants: seq<VariantId>, force: bool)
    | Start(id: RequestId)
    | Record(id: RequestId, variant: VariantId, before: int)
    | End(id: RequestId)

  /** The registry knows a run of this step that has not ended. */
  ghost predicate Busy(w: World) {
    exists r | r in w.requests :: w.requests[r].Active?
  }

  ghost predicate Step(step: nat, w: World, a: Action, w': World) {
    match a
    case Load(r, variants, force) =>
      && r !in w.requests
      && var g := Guard(w.row, step, variants, force);
         w' == w.(requests := w.requests[r := if g.Run? then Admitted(g.variants) else Refused])
    case Start(r) =>
      && r in w.requests && w.requests[r].Admitted?
      && if Busy(w) then w' == w.(requests := w.requests[r := Refused])
         else w' == w.(requests := w.requests[r := Active(w.requests[r].variants)])
    case Record(r, variant, before) =>
      && r in w.requests && w.requests[r].Active? && variant in w.requests[r].variants
      && w' == w.(row := Recorded(w.row, Completion(step, variant, before)))
    case End(r) =>
      && r in w.requests && w.requests[r].Active?
      && w' == w.(requests := w.requests[r := Ended])
  }

  ghost predicate StepAt(step: nat, actions: seq<Action>, ws: seq<World>, i: nat)
    requires i < |actions| && |ws| == |actions| + 1
  {
    Step(step, ws[i], actions[i], ws[i + 1])
  }

  ghost predicate IsRun(step: nat, c: Content, actions: seq<Action>, ws: seq<World>) {
    && |ws| == |actions| + 1 && ws[0] == World(c, map[])
    && forall i: nat | i < |actions| :: StepAt(step, actions, ws, i)
  }

  predicate Records(actions: seq<Action>, m: nat, variant: VariantId) {
    m < |actions| && actions[m].Record? && actions[m].variant == variant
  }

  /** A run recorded the variant between the two positions. */
  ghost predicate RecordedBetween(actions: seq<Action>, l: nat, k: nat, variant: VariantId) {
    exists m: nat | l < m < k :: Records(actions, m, variant)
  }

  /** A variant has done the step exactly when it had before, or a run recorded it since. */
  lemma {:induction false} DoneSince(
    step: nat, c: Content, actions: seq<Action>, ws: seq<World>, l: nat, k: nat, variant: VariantId)
    requires IsRun(step, c, actions, ws) && l < k <= |actions| && actions[l].Load?
    ensures variant in Done(ws[k].row, step)
       <==> variant in Done(ws[l].row, step) || RecordedBetween(actions, l, k, variant)
  {
    assert StepAt(step, actions, ws, k - 1);
    if l < k - 1 {
      DoneSince(step, c, actions, ws, l, k - 1, variant);
      BetweenNext(actions, l, k - 1, variant);
      if actions[k - 1].Record? {
        RecordedEffect(ws[k - 1].row, Completion(step, actions[k - 1].variant, actions[k - 1].before), step, variant);
      }
    }
  }

  lemma BetweenNext(actions: seq<Action>, l: nat, k: nat, variant: VariantId)
    requires l < k
    ensures RecordedBetween(actions, l, k + 1, variant)
       <==> RecordedBetween(actions, l, k, variant) || Records(actions, k, variant)
  {
    if RecordedBetween(actions, l, k, variant) {
      var m: nat :| l < m < k && Records(actions, m, variant);
      assert l < m < k + 1;
    }
  }

  /** What the guard admitted stays the request's until it starts. */
  lemma {:induction false} AdmittedSince(step: nat, c: Content, actions: seq<Action>, ws: seq<World>, l: nat, k: nat)
    requires IsRun(step, c, actions, ws) && l < k <= |actions| && actions[l].Load?
    requires actions[l].id in ws[k].requests && ws[k].requests[actions[l].id].Admitted?
    ensures Guard(ws[l].row, step, actions[l].variants, actions[l].force)
         == Run(ws[k].requests[actions[l].id].variants)
  {
    assert StepAt(step, actions, ws, k - 1);
    if l < k - 1 {
      LoadedStays(step, c, actions, ws, l, k - 1);
      AdmittedSince(step, c, actions, ws, l, k - 1);
    }
  }

  lemma {:induction false} LoadedStays(step: nat, c: Content, actions: seq<Action>, ws: seq<World>, l: nat, k: nat)
    requires IsRun(step, c, actions, ws) && l < k <= |actions| && actions[l].Load?
    ensures actions[l].id in ws[k].requests
  {
    assert StepAt(step, actions, ws, k - 1);
    if l < k - 1 {
      LoadedStays(step, c, actions, ws, l, k - 1);
    }
  }

  /** The request that loaded at `l` starts at `k`, and its run includes the variant. */
  ghost predicate Starts(actions: seq<Action>, ws: seq<World>, l: nat, k: nat, variant: VariantId) {
    && l < k < |actions| < |ws| && actions[l].Load? && actions[k] == Start(actions[l].id)
    && actions[k].id in ws[k + 1].requests && ws[k + 1].requests[actions[k].id].Active?
    && variant in ws[k + 1].requests[actions[k].id].variants
  }

  /** In every interleaving of requests, runs and recordings: a run that was not forced includes a variant
      that has done the step exactly when another run recorded it after the request had loaded. */
  lemma RerunIff(
    step: nat, c: Content, actions: seq<Action>, ws: seq<World>, l: nat, k: nat, variant: VariantId)
    requires IsRun(step, c, actions, ws) && Starts(actions, ws, l, k, variant) && !actions[l].force
    ensures variant in Done(ws[k].row, step) <==> RecordedBetween(actions, l, k, variant)
  {
    assert StepAt(step, actions, ws, k);
    AdmittedSince(step, c, actions, ws, l, k);
    if actions[l].variants != [] {
      GuardTheorem(ws[l].row, step, actions[l].variants, false);
    }
    DoneSince(step, c, actions, ws, l, k, variant);
  }

  ghost predicate Redone(step: nat, actions: seq<Action>, ws: seq<World>, l: nat, k: nat, variant: VariantId) {
    Starts(actions, ws, l, k, variant) && !actions[l].force && variant in Done(ws[k].row, step)
  }

  ghost predicate Outdated(actions: seq<Action>, ws: seq<World>, l: nat, k: nat, variant: VariantId) {
    Starts(actions, ws, l, k, variant) && !actions[l].force && RecordedBetween(actions, l, k, variant)
  }

  /** So a step is never done again without force exactly when no request starts on a document that it
      loaded before one of its variants was recorded. */
  lemma NeverRedoneIff(step: nat, c: Content, actions: seq<Action>, ws: seq<World>)
    requires IsRun(step, c, actions, ws)
    ensures (forall l: nat, k: nat, variant :: !Redone(step, actions, ws, l, k, variant))
       <==> forall l: nat, k: nat, variant :: !Outdated(actions, ws, l, k, variant)
  {
    forall l: nat, k: nat, variant
      ensures Redone(step, actions, ws, l, k, variant) <==> Outdated(actions, ws, l, k, variant)
    {
      if Starts(actions, ws, l, k, variant) && !actions[l].force {
        RerunIff(step, c, actions, ws, l, k, variant);
      }
    }
  }

  lemma {:induction false} ActiveOrEnded(
    step: nat, c: Content, actions: seq<Action>, ws: seq<World>, m: nat, k: nat, r: RequestId)
    requires IsRun(step, c, actions, ws) && m <= k <= |actions| && r in ws[m].requests && ws[m].requests[r].Active?
    ensures r in ws[k].requests && (ws[k].requests[r].Active? || ws[k].requests[r].Ended?)
  {
    if m < k {
      ActiveOrEnded(step, c, actions, ws, m, k - 1, r);
      assert StepAt(step, actions, ws, k - 1);
    }
  }

  /** The registry is no help against that: the run that recorded in between has ended by then. */
  lemma RecorderHasEnded(
    step: nat, c: Content, actions: seq<Action>, ws: seq<World>, l: nat, m: nat, k: nat, variant: VariantId)
    requires IsRun(step, c, actions, ws) && Starts(actions, ws, l, k, variant)
    requires l < m < k && Records(actions, m, variant)
    ensures actions[m].id in ws[k].requests && ws[k].requests[actions[m].id].Ended? && actions[m].id != actions[l].id
  {
    assert StepAt(step, actions, ws, m) && StepAt(step, actions, ws, k);
    ActiveOrEnded(step, c, actions, ws, m, k, actions[m].id);
    assert !Busy(ws[k]);
  }

  /** The failing order, played out. */
  lemma StaleRequestRedoes(c: Content, variant: VariantId, before: int, ws: seq<World>)
    requires Done(c, 0) == {}
    requires IsRun(0, c, [Load(1, [variant], false), Load(2, [variant], false), Start(1), Record(1, variant, before),
                          End(1), Start(2)], ws)
    ensures variant in Done(ws[5].row, 0)
    ensures 2 in ws[6].requests && ws[6].requests[2] == Active([variant])
  {
    var actions := [Load(1, [variant], false), Load(2, [variant], false), Start(1), Record(1, variant, before),
                    End(1), Start(2)];
    assert StepAt(0, actions, ws, 0) && StepAt(0, actions, ws, 1) && StepAt(0, actions, ws, 2);
    assert StepAt(0, actions, ws, 3) && StepAt(0, actions, ws, 4) && StepAt(0, actions, ws, 5);
    assert [variant][1..] == [] && Pending(c, 0, []) == [];
    assert Pending(c, 0, [variant]) == [variant];
    assert Guard(c, 0, [variant], false) == Run([variant]);
    RecordedEffect(c, Completion(0, variant, before), 0, variant);
  }
}

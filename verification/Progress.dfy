// Step progress of an experiment: the guard before a run, the records of variants that finish in
// parallel, and the dialogue a new variant starts from
// (backend/app/shared/agent/experiments.py:299-318, 395-460).
module Progress {
  import opened Common
  import opened Replay

  type VariantId = nat

  datatype StepRecord = StepRecord(variants: seq<VariantId>, before: map<VariantId, int>)

  /** The row of one experiment, its name and its content document; only `runs` is progress. */
  datatype Content = Content(
    name: string, steps: seq<string>, annotations: seq<string>, notes: string, prefix: string,
    runs: map<nat, StepRecord>)

  function RecordOf(c: Content, step: nat): StepRecord {
    if step in c.runs then c.runs[step] else StepRecord([], map[])
  }

  function Done(c: Content, step: nat): set<VariantId> {
    Elements(RecordOf(c, step).variants)
  }

  function Checkpoint(c: Content, step: nat, id: VariantId): Option<int> {
    var before := RecordOf(c, step).before;
    if id in before then Some(before[id]) else None
  }

  // ----- recording -----

  datatype Completion = Completion(step: nat, id: VariantId, before: int)

  function Recorded(c: Content, d: Completion): Content {
    var r := RecordOf(c, d.step);
    var variants := if d.id in r.variants then r.variants else r.variants + [d.id];
    var before := if d.id in r.before then r.before else r.before[d.id := d.before];
    c.(runs := c.runs[d.step := StepRecord(variants, before)])
  }

  /** The completions of one run, all recorded through the object it loaded, in the order in which their
      threads got the lock. */
  function RecordedAll(c: Content, ds: seq<Completion>): Content {
    if ds == [] then c else Recorded(RecordedAll(c, ds[..|ds| - 1]), ds[|ds| - 1])
  }

  predicate Finishes(d: Completion, step: nat, id: VariantId) {
    d.step == step && d.id == id
  }

  lemma RecordedEffect(c: Content, d: Completion, step: nat, id: VariantId)
    ensures id in Done(Recorded(c, d), step) <==> id in Done(c, step) || Finishes(d, step, id)
    ensures Checkpoint(Recorded(c, d), step, id)
         == if Checkpoint(c, step, id).None? && Finishes(d, step, id) then Some(d.before) else Checkpoint(c, step, id)
    ensures Recorded(c, d).(runs := c.runs) == c
  {
  }

  lemma DoneAfter(c: Content, d: Completion, step: nat)
    ensures Done(Recorded(c, d), step) == Done(c, step) + if step == d.step then {d.id} else {}
  {
    forall id
      ensures id in Done(Recorded(c, d), step) <==> id in Done(c, step) || Finishes(d, step, id)
    {
      RecordedEffect(c, d, step, id);
    }
  }

  /** In that object, what is done afterwards is what was done before or has completed; a checkpoint, once
      there, stays. */
  lemma {:induction false} NothingIsLost(c: Content, ds: seq<Completion>, step: nat, id: VariantId)
    ensures id in Done(RecordedAll(c, ds), step)
       <==> id in Done(c, step) || exists i | 0 <= i < |ds| :: Finishes(ds[i], step, id)
    ensures Checkpoint(c, step, id).Some? ==> Checkpoint(RecordedAll(c, ds), step, id) == Checkpoint(c, step, id)
    ensures RecordedAll(c, ds).(runs := c.runs) == c
  {
    if ds != [] {
      var last := |ds| - 1;
      NothingIsLost(c, ds[..last], step, id);
      RecordedEffect(RecordedAll(c, ds[..last]), ds[last], step, id);
      assert forall i | 0 <= i < last :: ds[..last][i] == ds[i];
    }
  }

  /** A first completion leaves its own checkpoint, whenever it came. */
  lemma {:induction false} FirstCheckpointIsKept(c: Content, ds: seq<Completion>, k: nat)
    requires k < |ds| && Checkpoint(c, ds[k].step, ds[k].id).None?
    requires forall i | 0 <= i < k :: !Finishes(ds[i], ds[k].step, ds[k].id)
    ensures Checkpoint(RecordedAll(c, ds), ds[k].step, ds[k].id) == Some(ds[k].before)
  {
    var last := |ds| - 1;
    var step, id := ds[k].step, ds[k].id;
    RecordedEffect(RecordedAll(c, ds[..last]), ds[last], step, id);
    if k < last {
      FirstCheckpointIsKept(c, ds[..last], k);
    } else {
      NeverRecorded(c, ds[..last], step, id);
    }
  }

  lemma {:induction false} NeverRecorded(c: Content, ds: seq<Completion>, step: nat, id: VariantId)
    requires forall i | 0 <= i < |ds| :: !Finishes(ds[i], step, id)
    ensures Checkpoint(RecordedAll(c, ds), step, id) == Checkpoint(c, step, id)
  {
    if ds != [] {
      var last := |ds| - 1;
      NeverRecorded(c, ds[..last], step, id);
      RecordedEffect(RecordedAll(c, ds[..last]), ds[last], step, id);
      assert !Finishes(ds[last], step, id);
    }
  }

  /** No variant completes the same step twice within one batch. */
  ghost predicate OncePerStep(ds: seq<Completion>) {
    forall i, j | 0 <= i < j < |ds| :: !Finishes(ds[i], ds[j].step, ds[j].id)
  }

  /** The parallel completions of one run give the same progress in every order. */
  lemma OrderTheorem(c: Content, ds: seq<Completion>, es: seq<Completion>, step: nat)
    requires multiset(ds) == multiset(es) && OncePerStep(ds) && OncePerStep(es)
    ensures Done(RecordedAll(c, ds), step) == Done(RecordedAll(c, es), step)
    ensures RecordOf(RecordedAll(c, ds), step).before == RecordOf(RecordedAll(c, es), step).before
    ensures RecordedAll(c, ds).(runs := c.runs) == c == RecordedAll(c, es).(runs := c.runs)
  {
    forall id
      ensures id in Done(RecordedAll(c, ds), step) <==> id in Done(RecordedAll(c, es), step)
      ensures Checkpoint(RecordedAll(c, ds), step, id) == Checkpoint(RecordedAll(c, es), step, id)
    {
      SameForOne(c, ds, es, step, id);
      SameForOne(c, es, ds, step, id);
    }
    var a, b := RecordOf(RecordedAll(c, ds), step).before, RecordOf(RecordedAll(c, es), step).before;
    forall id
      ensures id in a <==> id in b
      ensures id in a && id in b ==> a[id] == b[id]
    {
      assert Checkpoint(RecordedAll(c, ds), step, id) == Checkpoint(RecordedAll(c, es), step, id);
    }
    NothingIsLost(c, ds, step, 0);
    NothingIsLost(c, es, step, 0);
  }

  lemma SameForOne(c: Content, ds: seq<Completion>, es: seq<Completion>, step: nat, id: VariantId)
    requires multiset(ds) == multiset(es) && OncePerStep(ds) && OncePerStep(es)
    ensures id in Done(RecordedAll(c, ds), step) ==> id in Done(RecordedAll(c, es), step)
    ensures Checkpoint(RecordedAll(c, ds), step, id) == Checkpoint(RecordedAll(c, es), step, id)
  {
    NothingIsLost(c, ds, step, id);
    NothingIsLost(c, es, step, id);
    if i :| 0 <= i < |ds| && Finishes(ds[i], step, id) {
      assert ds[i] in multiset(es);
      var j :| 0 <= j < |es| && es[j] == ds[i];
      assert Finishes(es[j], step, id);
      if Checkpoint(c, step, id).None? {
        FirstCheckpointIsKept(c, ds, i);
        FirstCheckpointIsKept(c, es, j);
      }
    } else {
      forall j | 0 <= j < |es|
        ensures !Finishes(es[j], step, id)
      {
        assert es[j] in multiset(ds);
        var i :| 0 <= i < |ds| && ds[i] == es[j];
      }
      NeverRecorded(c, ds, step, id);
      NeverRecorded(c, es, step, id);
    }
  }

  // ----- the guard -----

  datatype Verdict = Run(variants: seq<VariantId>) | AlreadyRan | PreviousNotRun

  function Pending(c: Content, step: nat, variants: seq<VariantId>): seq<VariantId> {
    if variants == [] then []
    else if variants[0] in Done(c, step) then Pending(c, step, variants[1..])
    else [variants[0]] + Pending(c, step, variants[1..])
  }

  function Guard(c: Content, step: nat, variants: seq<VariantId>, force: bool): Verdict {
    if variants == [] then Run([])
    else if Pending(c, step, variants) == [] then if force then Run(variants) else AlreadyRan
    else if step > 0 && RecordOf(c, step - 1).variants == [] then PreviousNotRun
    else Run(Pending(c, step, variants))
  }

  lemma {:induction false} PendingAreTheUnfinished(c: Content, step: nat, variants: seq<VariantId>)
    ensures forall id :: id in Pending(c, step, variants) <==> id in variants && id !in Done(c, step)
    ensures Distinct(variants) ==> Distinct(Pending(c, step, variants))
  {
    if variants != [] {
      PendingAreTheUnfinished(c, step, variants[1..]);
      assert variants == [variants[0]] + variants[1..];
      if Distinct(variants) {
        var rest := Pending(c, step, variants[1..]);
        assert forall i, j | 0 <= i < j < |variants[1..]| :: variants[1..][i] != variants[1..][j];
        assert variants[0] !in variants[1..];
        assert variants[0] !in rest;
      }
    }
  }

  /** Without force a run never includes a variant that has done the step; it is refused exactly when
      all have, or when nobody has done the step before it. */
  lemma GuardTheorem(c: Content, step: nat, variants: seq<VariantId>, force: bool)
    requires variants != []
    ensures var all := forall id | id in variants :: id in Done(c, step);
            var g := Guard(c, step, variants, force);
            && (g == AlreadyRan <==> all && !force)
            && (g == PreviousNotRun <==> !all && step > 0 && Done(c, step - 1) == {})
            && (g.Run? && !all ==> forall id :: id in g.variants <==> id in variants && id !in Done(c, step))
            && (g.Run? && all ==> g.variants == variants)
  {
    PendingAreTheUnfinished(c, step, variants);
    var pending := Pending(c, step, variants);
    if pending != [] {
      assert pending[0] in pending;
    }
    if step > 0 && RecordOf(c, step - 1).variants != [] {
      assert RecordOf(c, step - 1).variants[0] in Done(c, step - 1);
    }
  }

  /** The guard asks only that some variant did the previous step. So the variants it admits to a step
      have all done the one before exactly when every given variant has done one of the two. */
  lemma GuardIsReadyIff(c: Content, step: nat, variants: seq<VariantId>, force: bool)
    requires Guard(c, step + 1, variants, force).Run? && exists id | id in variants :: id !in Done(c, step + 1)
    ensures (forall id | id in Guard(c, step + 1, variants, force).variants :: id in Done(c, step))
       <==> forall id | id in variants :: id in Done(c, step + 1) || id in Done(c, step)
  {
    GuardTheorem(c, step + 1, variants, force);
  }

  /** Otherwise a variant skips a step, as here with two variants of which one is behind. */
  lemma GuardMaySkip(c: Content, step: nat, ahead: VariantId, behind: VariantId)
    requires ahead != behind && Done(c, step) == {ahead} && Done(c, step + 1) == {}
    ensures Guard(c, step + 1, [ahead, behind], false) == Run([ahead, behind])
    ensures behind !in Done(c, step)
  {
    assert RecordOf(c, step).variants != [];
    assert [ahead, behind][1..] == [behind] && [behind][1..] == [];
    assert Pending(c, step + 1, [behind]) == [behind];
  }

  /** With one variant, whatever is forced: if only the last step is ever repeated, the runs that the
      guard admits are in the order the replay needs. */
  lemma {:induction false} GuardedRunsAreInOrder(
    id: VariantId, js: seq<nat>, force: seq<bool>, cs: seq<Content>, i: nat)
    requires |force| == |js| && |cs| == |js| + 1 && i <= |js| && DoneUpTo(cs[0], id, 0)
    requires forall k | 0 <= k < |js| :: Admitted(id, js, force, cs, k)
    ensures forall k: nat | k < i :: InOrderAt(js, k)
    ensures DoneUpTo(cs[i], id, Reach(js, i))
  {
    if i > 0 {
      GuardedRunsAreInOrder(id, js, force, cs, i - 1);
      assert Admitted(id, js, force, cs, i - 1);
      GuardOfOne(cs[i - 1], id, Reach(js, i - 1), js[i - 1], force[i - 1]);
      assert InOrderAt(js, i - 1);
      var before :| cs[i] == Recorded(cs[i - 1], Completion(js[i - 1], id, before));
      DoneUpToNext(cs[i - 1], id, Reach(js, i - 1), js[i - 1], before);
    }
  }

  /** The first step that no run has reached yet. */
  function Peak(js: seq<nat>, i: nat): nat
    requires i <= |js|
  {
    if i == 0 then 0 else if js[i - 1] < Peak(js, i - 1) then Peak(js, i - 1) else js[i - 1] + 1
  }

  predicate WithinPeak(js: seq<nat>, k: nat)
    requires k < |js|
  {
    js[k] <= Peak(js, k)
  }

  ghost predicate RecordedAt(id: VariantId, js: seq<nat>, cs: seq<Content>, k: nat)
    requires k < |js| && |cs| == |js| + 1
  {
    exists before :: cs[k + 1] == Recorded(cs[k], Completion(js[k], id, before))
  }

  /** Exactly the first `n` steps are done, by this one variant. */
  ghost predicate DoneUpTo(c: Content, id: VariantId, n: nat) {
    forall step: nat :: Done(c, step) == if step < n then {id} else {}
  }

  lemma DoneUpToNext(c: Content, id: VariantId, n: nat, j: nat, before: int)
    requires DoneUpTo(c, id, n) && j <= n
    ensures DoneUpTo(Recorded(c, Completion(j, id, before)), id, if j < n then n else j + 1)
  {
    forall step: nat
      ensures Done(Recorded(c, Completion(j, id, before)), step) == if step < n || step == j then {id} else {}
    {
      DoneAfter(c, Completion(j, id, before), step);
    }
  }

  lemma {:induction false} DoneUpToPeak(id: VariantId, js: seq<nat>, cs: seq<Content>, i: nat)
    requires |cs| == |js| + 1 && i <= |js| && DoneUpTo(cs[0], id, 0)
    requires forall k: nat | k < i :: RecordedAt(id, js, cs, k) && WithinPeak(js, k)
    ensures DoneUpTo(cs[i], id, Peak(js, i))
  {
    if i > 0 {
      DoneUpToPeak(id, js, cs, i - 1);
      assert RecordedAt(id, js, cs, i - 1) && WithinPeak(js, i - 1);
      var before :| cs[i] == Recorded(cs[i - 1], Completion(js[i - 1], id, before));
      DoneUpToNext(cs[i - 1], id, Peak(js, i - 1), js[i - 1], before);
    }
  }

  lemma GuardOfOne(c: Content, id: VariantId, n: nat, j: nat, force: bool)
    requires DoneUpTo(c, id, n)
    ensures Guard(c, j, [id], force) == Run([id]) <==> j == n || (j < n && force)
  {
    GuardTheorem(c, j, [id], force);
    assert [id][1..] == [];
    assert Pending(c, j, [id]) == if j < n then [] else [id];
  }

  /** With one variant, after any admitted runs, the guard admits exactly the next step of the script, and
      with force every step already done. */
  lemma GuardAdmitsIff(id: VariantId, js: seq<nat>, cs: seq<Content>, i: nat, j: nat, force: bool)
    requires |cs| == |js| + 1 && i <= |js| && DoneUpTo(cs[0], id, 0)
    requires forall k: nat | k < i :: RecordedAt(id, js, cs, k) && WithinPeak(js, k)
    ensures Guard(cs[i], j, [id], force) == Run([id]) <==> j == Peak(js, i) || (j < Peak(js, i) && force)
  {
    DoneUpToPeak(id, js, cs, i);
    GuardOfOne(cs[i], id, Peak(js, i), j, force);
  }

  lemma InOrderIsWithinPeak(js: seq<nat>, k: nat)
    requires InOrder(js) && k < |js|
    ensures WithinPeak(js, k)
  {
    assert InOrderAt(js, k);
  }

  /** So no order that the replay accepts is refused: every run of it is admitted, with force when it
      repeats a step. */
  lemma {:induction false} InOrderIsAdmitted(id: VariantId, js: seq<nat>, cs: seq<Content>, i: nat)
    requires |cs| == |js| + 1 && i < |js| && InOrder(js) && DoneUpTo(cs[0], id, 0)
    requires forall k: nat | k < i :: RecordedAt(id, js, cs, k)
    ensures Guard(cs[i], js[i], [id], true) == Run([id])
    ensures Guard(cs[i], js[i], [id], false) == Run([id]) <==> js[i] == Peak(js, i)
  {
    forall k: nat | k <= i
      ensures WithinPeak(js, k)
    {
      InOrderIsWithinPeak(js, k);
    }
    InOrderIsWithinPeak(js, i);
    GuardAdmitsIff(id, js, cs, i, js[i], true);
    GuardAdmitsIff(id, js, cs, i, js[i], false);
  }

  /** Run `k` passed the guard, was recorded, and repeats a step only if it is the last one. */
  ghost predicate Admitted(id: VariantId, js: seq<nat>, force: seq<bool>, cs: seq<Content>, k: nat)
    requires k < |js| == |force| && |cs| == |js| + 1
  {
    && Guard(cs[k], js[k], [id], force[k]) == Run([id])
    && (exists before :: cs[k + 1] == Recorded(cs[k], Completion(js[k], id, before)))
    && (id in Done(cs[k], js[k]) ==> k > 0 && js[k] == js[k - 1])
  }

  // ----- the dialogue a new variant starts from -----

  ghost predicate IsCommonPrefix(vs: seq<seq<Message>>, p: seq<Message>) {
    forall i | 0 <= i < |vs| :: p <= vs[i]
  }

  ghost predicate IsLongestCommonPrefix(vs: seq<seq<Message>>, p: seq<Message>) {
    IsCommonPrefix(vs, p) && forall q | IsCommonPrefix(vs, q) :: |q| <= |p|
  }

  function UserTurns(m: seq<Message>): seq<Message> {
    if m == [] then []
    else UserTurns(m[..|m| - 1]) + if m[|m| - 1].User? then [m[|m| - 1]] else []
  }

  method Shortest(variants: seq<seq<Message>>) returns (shared: seq<Message>)
    requires variants != []
    ensures shared in variants && forall k | 0 <= k < |variants| :: |shared| <= |variants[k]|
  {
    shared := variants[0];
    for i := 1 to |variants|
      invariant shared in variants && forall k | 0 <= k < i :: |shared| <= |variants[k]|
    {
      if |variants[i]| < |shared| {
        shared := variants[i];
      }
    }
  }

  method AllHave(variants: seq<seq<Message>>, index: nat, m: Message) returns (agree: bool)
    requires forall k | 0 <= k < |variants| :: index < |variants[k]|
    ensures agree <==> forall k | 0 <= k < |variants| :: variants[k][index] == m
  {
    for i := 0 to |variants|
      invariant forall k | 0 <= k < i :: variants[k][index] == m
    {
      if variants[i][index] != m {
        return false;
      }
    }
    agree := true;
  }

  /** `_lineage_messages`: the buyer turns of the dialogue all variants share, and none if there are
      no variants. */
  method LineageMessages(variants: seq<seq<Message>>) returns (turns: seq<Message>, ghost common: seq<Message>)
    ensures variants == [] ==> turns == []
    ensures variants != [] ==> IsLongestCommonPrefix(variants, common) && turns == UserTurns(common)
  {
    turns, common := [], [];
    if variants == [] {
      return;
    }
    var shared := Shortest(variants);
    for index := 0 to |shared|
      invariant |common| == index && IsCommonPrefix(variants, common)
      invariant turns == UserTurns(common)
    {
      var agree := AllHave(variants, index, shared[index]);
      if !agree {
        Disagreement(variants, common, shared);
        return;
      }
      PrefixGrows(variants, common, shared[index]);
      UserTurnsGrow(common, shared[index]);
      turns := if shared[index].User? then turns + [shared[index]] else turns;
      common := common + [shared[index]];
    }
    WholeIsLongest(variants, shared, common);
  }

  lemma UserTurnsGrow(m: seq<Message>, x: Message)
    ensures UserTurns(m + [x]) == if x.User? then UserTurns(m) + [x] else UserTurns(m)
  {
    assert (m + [x])[..|m|] == m;
  }

  lemma WholeIsLongest(vs: seq<seq<Message>>, shared: seq<Message>, p: seq<Message>)
    requires shared in vs && IsCommonPrefix(vs, p) && |p| == |shared|
    ensures IsLongestCommonPrefix(vs, p)
  {
    forall q | IsCommonPrefix(vs, q)
      ensures |q| <= |p|
    {
      var i :| 0 <= i < |vs| && vs[i] == shared;
      assert q <= vs[i];
    }
  }

  lemma PrefixGrows(vs: seq<seq<Message>>, p: seq<Message>, m: Message)
    requires IsCommonPrefix(vs, p) && forall i | 0 <= i < |vs| :: |p| < |vs[i]| && vs[i][|p|] == m
    ensures IsCommonPrefix(vs, p + [m])
  {
  }

  lemma Disagreement(vs: seq<seq<Message>>, p: seq<Message>, shared: seq<Message>)
    requires IsCommonPrefix(vs, p) && shared in vs && |p| < |shared|
    requires exists i | 0 <= i < |vs| :: |p| < |vs[i]| && vs[i][|p|] != shared[|p|]
    ensures IsLongestCommonPrefix(vs, p)
  {
    forall q | IsCommonPrefix(vs, q)
      ensures |q| <= |p|
    {
      var i :| 0 <= i < |vs| && |p| < |vs[i]| && vs[i][|p|] != shared[|p|];
      var k :| 0 <= k < |vs| && vs[k] == shared;
      assert q <= vs[i] && q <= vs[k];
    }
  }
}

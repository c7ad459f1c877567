// When a retry appends a buyer message that is still in the transcript
// (backend/app/shared/agent/experiments.py:400-431; backend/app/api/routers/experiments.py:649-686).
module ReplayDuplicates {
  import opened Common
  import opened Replay
  import opened Progress

  // ----- the turns that a transcript consists of -----

  ghost predicate IsAt(js: seq<nat>, vs: seq<Variant>, i: nat) {
    i < |js| < |vs|
  }

  /** How much of the transcript run `i` kept: the position of its own turn. */
  function Kept(js: seq<nat>, vs: seq<Variant>, i: nat): nat
    requires IsAt(js, vs, i)
  {
    |Base(vs[i], js[i])|
  }

  /** Run `m` left the first message of run `i`'s turn where it was. */
  ghost predicate Leaves(js: seq<nat>, vs: seq<Variant>, i: nat, m: nat)
    requires IsAt(js, vs, i) && IsAt(js, vs, m)
  {
    Kept(js, vs, m) > Kept(js, vs, i)
  }

  /** The turn of run `i` still stands after the first `n` runs. */
  ghost predicate Stands(js: seq<nat>, vs: seq<Variant>, i: nat, n: nat) {
    i < n <= |js| < |vs| && forall m: nat | i < m < n :: Leaves(js, vs, i, m)
  }

  lemma StandsNext(js: seq<nat>, vs: seq<Variant>, i: nat, n: nat)
    requires n < |js| < |vs|
    ensures Stands(js, vs, i, n + 1) <==> i == n || (Stands(js, vs, i, n) && Leaves(js, vs, i, n))
  {
    if Stands(js, vs, i, n + 1) && i < n {
      assert Leaves(js, vs, i, n);
    }
  }

  /** A message that begins a turn of this step. */
  predicate Begins(m: Message, step: ScriptStep) {
    if step.mode.Buyer? then m == User(step.text) else m.Reply?
  }

  // ----- checkpoints -----

  /** What the stored checkpoints are: never before the seed, or at most one message into it. */
  ghost predicate Bounded(v: Variant, seed: seq<Message>, script: seq<ScriptStep>) {
    && |seed| <= |v.messages|
    && forall j | j in v.before :: j < |script| && |seed| + Size(script[j]) - 2 <= v.before[j]
  }

  lemma RunKeepsBounds(v: Variant, seed: seq<Message>, script: seq<ScriptStep>, j: nat, answer: string)
    requires Bounded(v, seed, script) && j < |script|
    ensures Bounded(Ran(v, j, script[j], answer), seed, script)
    ensures script[j].mode.Buyer? ==> |seed| <= |Base(v, j)|
  {
  }

  lemma {:induction false} AlwaysBounded(
    seed: seq<Message>, script: seq<ScriptStep>, js: seq<nat>, vs: seq<Variant>, n: nat)
    requires IsHistory(seed, script, js, vs) && n <= |js|
    ensures Bounded(vs[n], seed, script)
  {
    if n > 0 {
      AlwaysBounded(seed, script, js, vs, n - 1);
      assert RunAt(script, js, vs, n - 1);
      var answer :| vs[n] == Ran(vs[n - 1], js[n - 1], script[js[n - 1]], answer);
      RunKeepsBounds(vs[n - 1], seed, script, js[n - 1], answer);
    }
  }

  /** A checkpoint is where its step was first applied, and never changes. */
  lemma {:induction false} CheckpointOf(
    seed: seq<Message>, script: seq<ScriptStep>, js: seq<nat>, vs: seq<Variant>, i: nat, n: nat)
    requires IsHistory(seed, script, js, vs) && i < n <= |js|
    ensures js[i] in vs[n].before
    ensures vs[n].before[js[i]]
         == if js[i] in vs[i].before then vs[i].before[js[i]] else Kept(js, vs, i) + Size(script[js[i]]) - 2
  {
    assert RunAt(script, js, vs, n - 1);
    if i < n - 1 {
      CheckpointOf(seed, script, js, vs, i, n - 1);
    }
  }

  // ----- what stands where -----

  lemma BaseIsPrefix(v: Variant, j: nat)
    ensures Base(v, j) <= v.messages
  {
  }

  /** The first message of each standing turn is at its place. */
  lemma {:induction false} TurnStands(
    seed: seq<Message>, script: seq<ScriptStep>, js: seq<nat>, vs: seq<Variant>, i: nat, n: nat)
    requires IsHistory(seed, script, js, vs) && Stands(js, vs, i, n)
    ensures Kept(js, vs, i) < |vs[n].messages|
    ensures Begins(vs[n].messages[Kept(js, vs, i)], script[js[i]])
  {
    assert RunAt(script, js, vs, n - 1);
    if i < n - 1 {
      StandsNext(js, vs, i, n - 1);
      TurnStands(seed, script, js, vs, i, n - 1);
      BaseIsPrefix(vs[n - 1], js[n - 1]);
    }
  }

  /** And every buyer message after the seed begins a standing turn. */
  lemma {:induction false} StandingRun(
    seed: seq<Message>, script: seq<ScriptStep>, js: seq<nat>, vs: seq<Variant>, n: nat, p: nat) returns (i: nat)
    requires IsHistory(seed, script, js, vs) && n <= |js|
    requires |seed| <= p < |vs[n].messages| && vs[n].messages[p].User?
    ensures Stands(js, vs, i, n) && Kept(js, vs, i) == p && script[js[i]].mode.Buyer?
  {
    assert RunAt(script, js, vs, n - 1);
    if p < Kept(js, vs, n - 1) {
      BaseIsPrefix(vs[n - 1], js[n - 1]);
      i := StandingRun(seed, script, js, vs, n - 1, p);
      StandsNext(js, vs, i, n - 1);
    } else {
      i := n - 1;
    }
  }

  // ----- a second turn of one step -----

  /** The guard of the cut fails: run `i` finds its checkpoint beyond the transcript and cuts nothing. */
  predicate CutsNothing(js: seq<nat>, vs: seq<Variant>, i: nat)
    requires i < |js| < |vs|
  {
    js[i] in vs[i].before && vs[i].before[js[i]] > |vs[i].messages|
  }

  /** The checkpoint is negative, as that of a step without a buyer turn on an empty transcript: run `k` cuts
      the last message only, and the turn of run `i` is not that. */
  predicate CutsLastOnly(js: seq<nat>, vs: seq<Variant>, i: nat, k: nat)
    requires i < |js| < |vs| && k < |js|
  {
    js[k] in vs[k].before && vs[k].before[js[k]] < 0 && Kept(js, vs, i) + 1 < |vs[k].messages|
  }

  /** A later run of the same step leaves the turn that stands exactly in those two cases. */
  lemma LeavesOwnIff(seed: seq<Message>, script: seq<ScriptStep>, js: seq<nat>, vs: seq<Variant>, i: nat, k: nat)
    requires IsHistory(seed, script, js, vs) && i < k < |js| && js[i] == js[k] && Stands(js, vs, i, k)
    ensures Leaves(js, vs, i, k) <==> CutsNothing(js, vs, i) || CutsLastOnly(js, vs, i, k)
  {
    CheckpointOf(seed, script, js, vs, i, k);
    TurnStands(seed, script, js, vs, i, k);
    AlwaysBounded(seed, script, js, vs, k);
  }

  /** Two turns of one step stand after the first `n` runs. */
  ghost predicate Doubled(js: seq<nat>, vs: seq<Variant>, n: nat) {
    exists i: nat, k: nat | i < k < n <= |js| && js[i] == js[k] :: Stands(js, vs, i, n) && Stands(js, vs, k, n)
  }

  /** Run `k` repeats the step of run `i`, whose turn stands, and does not cut it away. */
  ghost predicate Repeats(js: seq<nat>, vs: seq<Variant>, i: nat, k: nat)
    requires i < k < |js| < |vs|
  {
    js[i] == js[k] && Stands(js, vs, i, k) && (CutsNothing(js, vs, i) || CutsLastOnly(js, vs, i, k))
  }

  /** For any script and any runs: no step ever has two turns in the transcript exactly when no run repeats
      a step in that way. */
  lemma DoubledIff(seed: seq<Message>, script: seq<ScriptStep>, js: seq<nat>, vs: seq<Variant>)
    requires IsHistory(seed, script, js, vs)
    ensures (forall n: nat | n <= |js| :: !Doubled(js, vs, n))
       <==> forall i: nat, k: nat | i < k < |js| :: !Repeats(js, vs, i, k)
  {
    forall i: nat, k: nat | i < k < |js| && Repeats(js, vs, i, k)
      ensures Doubled(js, vs, k + 1)
    {
      LeavesOwnIff(seed, script, js, vs, i, k);
      StandsNext(js, vs, i, k);
      StandsNext(js, vs, k, k);
    }
    forall n: nat | n <= |js| && Doubled(js, vs, n)
      ensures exists i: nat, k: nat | i < k < |js| :: Repeats(js, vs, i, k)
    {
      var i: nat, k: nat :| i < k < n && js[i] == js[k] && Stands(js, vs, i, n) && Stands(js, vs, k, n);
      assert Stands(js, vs, i, k) && Leaves(js, vs, i, k);
      LeavesOwnIff(seed, script, js, vs, i, k);
      assert Repeats(js, vs, i, k);
    }
  }

  // ----- the promise, about buyer messages -----

  /** No buyer message occurs twice after the seed. */
  ghost predicate NoDuplicate(m: seq<Message>, seed: nat) {
    forall p, q | seed <= p < q < |m| && m[p].User? :: m[p] != m[q]
  }

  /** A run between `i` and `k` cut the transcript back to where it was before run `i`. */
  ghost predicate CutBack(js: seq<nat>, vs: seq<Variant>, i: nat, k: nat)
    requires i < k < |js| < |vs|
  {
    exists m: nat | i < m < k :: Kept(js, vs, m) <= |vs[i].messages|
  }

  /** Runs `i` and `k` apply the same buyer step, the first of them finds its checkpoint beyond the transcript,
      and its turn is not cut away before the second. */
  ghost predicate Duplicates(script: seq<ScriptStep>, js: seq<nat>, vs: seq<Variant>, i: nat, k: nat)
    requires i < k < |js| < |vs| && InScript(script, js)
  {
    js[i] == js[k] && script[js[i]].mode.Buyer? && CutsNothing(js, vs, i) && !CutBack(js, vs, i, k)
  }

  lemma DuplicatesRepeat(
    seed: seq<Message>, script: seq<ScriptStep>, js: seq<nat>, vs: seq<Variant>, i: nat, k: nat)
    requires IsHistory(seed, script, js, vs) && i < k < |js| && script[js[i]].mode.Buyer?
    ensures Repeats(js, vs, i, k) <==> Duplicates(script, js, vs, i, k)
  {
    AlwaysBounded(seed, script, js, vs, k);
    if CutsNothing(js, vs, i) {
      assert Kept(js, vs, i) == |vs[i].messages|;
      if !CutBack(js, vs, i, k) {
        forall m: nat | i < m < k
          ensures Leaves(js, vs, i, m)
        {
        }
      } else {
        var m: nat :| i < m < k && Kept(js, vs, m) <= |vs[i].messages|;
        assert !Leaves(js, vs, i, m);
      }
    }
  }

  /** Two turns of a buyer step are two equal messages after the seed. */
  lemma DoubledShows(seed: seq<Message>, script: seq<ScriptStep>, js: seq<nat>, vs: seq<Variant>, i: nat, k: nat)
    requires IsHistory(seed, script, js, vs) && i < k < |js| && Duplicates(script, js, vs, i, k)
    ensures !NoDuplicate(vs[k + 1].messages, |seed|)
  {
    DuplicatesRepeat(seed, script, js, vs, i, k);
    LeavesOwnIff(seed, script, js, vs, i, k);
    StandsNext(js, vs, i, k);
    StandsNext(js, vs, k, k);
    TurnStands(seed, script, js, vs, i, k + 1);
    TurnStands(seed, script, js, vs, k, k + 1);
    AlwaysBounded(seed, script, js, vs, i);
    RunKeepsBounds(vs[i], seed, script, js[i], "");
  }

  /** And if the buyer texts differ, two equal buyer messages are two turns of one step. */
  lemma ShownIsDoubled(
    seed: seq<Message>, script: seq<ScriptStep>, js: seq<nat>, vs: seq<Variant>, n: nat) returns (i: nat, k: nat)
    requires IsHistory(seed, script, js, vs) && n <= |js| && DistinctBuyers(script)
    requires !NoDuplicate(vs[n].messages, |seed|)
    ensures i < k < n && Duplicates(script, js, vs, i, k)
  {
    var m := vs[n].messages;
    var p, q :| |seed| <= p < q < |m| && m[p].User? && m[p] == m[q];
    i := StandingRun(seed, script, js, vs, n, p);
    k := StandingRun(seed, script, js, vs, n, q);
    TurnStands(seed, script, js, vs, i, n);
    TurnStands(seed, script, js, vs, k, n);
    assert js[i] == js[k];
    assert k < i ==> Leaves(js, vs, k, i);
    assert Stands(js, vs, i, k) && Leaves(js, vs, i, k);
    LeavesOwnIff(seed, script, js, vs, i, k);
    DuplicatesRepeat(seed, script, js, vs, i, k);
  }

  /** For any script whose buyer texts differ, with any steps without a buyer turn among them, and any runs:
      no buyer message ever occurs twice after the seed exactly when each step that was applied with its
      checkpoint beyond the transcript is applied again only after a run that cut the transcript back to
      where it was. */
  lemma NoDuplicateIff(seed: seq<Message>, script: seq<ScriptStep>, js: seq<nat>, vs: seq<Variant>)
    requires IsHistory(seed, script, js, vs) && DistinctBuyers(script)
    ensures (forall n: nat | n <= |js| :: NoDuplicate(vs[n].messages, |seed|))
       <==> forall i: nat, k: nat | i < k < |js| :: !Duplicates(script, js, vs, i, k)
  {
    forall i: nat, k: nat | i < k < |js| && Duplicates(script, js, vs, i, k)
      ensures !NoDuplicate(vs[k + 1].messages, |seed|)
    {
      DoubledShows(seed, script, js, vs, i, k);
    }
    forall n: nat | n <= |js| && !NoDuplicate(vs[n].messages, |seed|)
      ensures exists i: nat, k: nat | i < k < |js| :: Duplicates(script, js, vs, i, k)
    {
      var i, k := ShownIsDoubled(seed, script, js, vs, n);
    }
  }

  /** The condition is one on the order of the runs: the lengths and the checkpoints do not depend on the
      answers, nor on the texts. */
  lemma {:induction false} OrderDecides(
    seed: seq<Message>, script: seq<ScriptStep>, vs: seq<Variant>, seed': seq<Message>, script': seq<ScriptStep>,
    ws: seq<Variant>, js: seq<nat>, n: nat)
    requires IsHistory(seed, script, js, vs) && IsHistory(seed', script', js, ws) && n <= |js|
    requires |seed| == |seed'| && |script| == |script'|
    requires forall j | 0 <= j < |script| :: script[j].mode == script'[j].mode
    ensures |vs[n].messages| == |ws[n].messages| && vs[n].before == ws[n].before
    ensures n < |js| ==> Kept(js, vs, n) == Kept(js, ws, n)
    ensures n < |js| ==> (CutsNothing(js, vs, n) <==> CutsNothing(js, ws, n))
  {
    if n > 0 {
      OrderDecides(seed, script, vs, seed', script', ws, js, n - 1);
      assert RunAt(script, js, vs, n - 1) && RunAt(script', js, ws, n - 1);
    }
  }

  lemma DuplicatesByOrder(
    seed: seq<Message>, script: seq<ScriptStep>, vs: seq<Variant>, seed': seq<Message>, script': seq<ScriptStep>,
    ws: seq<Variant>, js: seq<nat>, i: nat, k: nat)
    requires IsHistory(seed, script, js, vs) && IsHistory(seed', script', js, ws) && i < k < |js|
    requires |seed| == |seed'| && |script| == |script'|
    requires forall j | 0 <= j < |script| :: script[j].mode == script'[j].mode
    ensures Duplicates(script, js, vs, i, k) <==> Duplicates(script', js, ws, i, k)
  {
    forall m: nat | m < |js|
      ensures |vs[m].messages| == |ws[m].messages| && Kept(js, vs, m) == Kept(js, ws, m)
      ensures CutsNothing(js, vs, m) <==> CutsNothing(js, ws, m)
    {
      OrderDecides(seed, script, vs, seed', script', ws, js, m);
    }
  }

  // ----- the failing input -----

  /** A repeat whose checkpoint lies behind a message keeps the message. */
  lemma RepeatKeeps(v: Variant, p: nat, j: nat, step: ScriptStep, answer: string)
    requires p < |v.messages| && j in v.before && p < v.before[j] && step.mode.Buyer?
    ensures var w := Ran(v, j, step, answer).messages;
            p < |w| - 2 && w[p] == v.messages[p] && w[|w| - 2] == User(step.text)
  {
  }

  /** Forcing an earlier buyer step, then a later one, then that one again: it is in the transcript twice. */
  lemma ForcingTwiceDuplicates(
    v: Variant, seed: seq<Message>, script: seq<ScriptStep>, k: nat, j: nat, l: nat,
    first: string, again: string, third: string)
    requires k <= |script| && j + 1 < l < k && script[j].mode.Buyer? && script[l].mode.Buyer?
    requires IsReplay(v.messages, seed, script, k) && Sound(v, seed, script, k)
    ensures var w := Ran(Ran(Ran(v, j, script[j], first), l, script[l], again), l, script[l], third).messages;
            var p := Start(seed, script, j) + 2;
            |seed| <= p < |w| - 2 && w[p] == w[|w| - 2] == User(script[l].text)
  {
    var twice := Ran(Ran(v, j, script[j], first), l, script[l], again);
    var p := Start(seed, script, j) + 2;
    ForcingEarlierLosesSteps(v, seed, script, k, j, l, first, again);
    CheckpointBehind(v, seed, script, k, j, l);
    assert twice.before == v.before;
    RepeatKeeps(twice, p, l, script[l], third);
  }

  lemma CheckpointBehind(v: Variant, seed: seq<Message>, script: seq<ScriptStep>, k: nat, j: nat, l: nat)
    requires k <= |script| && j + 1 < l < k && script[j].mode.Buyer? && script[l].mode.Buyer?
    requires Sound(v, seed, script, k)
    ensures l in v.before && v.before[l] > Start(seed, script, j) + 2
    ensures j in v.before && |seed| <= Start(seed, script, j)
  {
    StartGrows(seed, script, 0, j);
    StartGrows(seed, script, j + 1, l);
    assert IsCheckpoint(v.before, seed, script, l);
  }

  const ORDER: seq<nat> := [0, 1, 2, 0, 2, 2]

  /** Every run of this order is admitted by the guard, the last three with force. */
  lemma OrderIsAdmitted(id: VariantId, cs: seq<Content>, k: nat)
    requires |cs| == 7 && k < 6 && DoneUpTo(cs[0], id, 0) && forall m: nat | m < 6 :: RecordedAt(id, ORDER, cs, m)
    ensures Guard(cs[k], ORDER[k], [id], k >= 3) == Run([id])
  {
    assert Peak(ORDER, 0) == 0 && Peak(ORDER, 1) == 1 && Peak(ORDER, 2) == 2 && Peak(ORDER, 3) == 3;
    assert Peak(ORDER, 4) == 3 && Peak(ORDER, 5) == 3;
    GuardAdmitsIff(id, ORDER, cs, k, ORDER[k], k >= 3);
  }

  lemma FirstThree(seed: seq<Message>, script: seq<ScriptStep>, vs: seq<Variant>)
    requires |script| == 3 && (forall step | step in script :: step.mode.Buyer?) && IsHistory(seed, script, ORDER, vs)
    ensures Replays(vs[3], seed, script, 3)
  {
    assert RunFits(seed, script, ORDER, 0) && RunFits(seed, script, ORDER, 1) && RunFits(seed, script, ORDER, 2);
    FittingRunsReplay(seed, script, ORDER, vs, 3);
  }

  /** And the last one appends the message of step 2 a second time. */
  lemma AdmittedDuplicate(seed: seq<Message>, script: seq<ScriptStep>, vs: seq<Variant>)
    requires |script| == 3 && (forall step | step in script :: step.mode.Buyer?) && IsHistory(seed, script, ORDER, vs)
    ensures var w := vs[6].messages;
            |seed| + 2 < |w| - 2 && w[|seed| + 2] == w[|w| - 2] == User(script[2].text)
  {
    FirstThree(seed, script, vs);
    assert RunAt(script, ORDER, vs, 3) && RunAt(script, ORDER, vs, 4) && RunAt(script, ORDER, vs, 5);
    var first :| vs[4] == Ran(vs[3], 0, script[0], first);
    var again :| vs[5] == Ran(vs[4], 2, script[2], again);
    var third :| vs[6] == Ran(vs[5], 2, script[2], third);
    assert Start(seed, script, 0) == |seed|;
    ForcingTwiceDuplicates(vs[3], seed, script, 3, 0, 2, first, again, third);
  }
}

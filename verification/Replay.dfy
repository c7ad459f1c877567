// Replaying the scripted steps of an experiment into one variant's transcript
// (backend/app/api/routers/experiments.py:644-687; backend/app/shared/agent/experiments.py:425-460).
module Replay {
  import opened Common

  datatype Message = User(text: string) | Reply(answer: string)
  datatype Mode = Buyer | Agent
  datatype ScriptStep = ScriptStep(mode: Mode, text: string)

  /** One variant: its transcript and, per step, the turn count recorded as the step's checkpoint. */
  datatype Variant = Variant(messages: seq<Message>, before: map<nat, int>)

  /** A slice `s[:n]` whose bound may be negative. */
  function Upto<T>(s: seq<T>, n: int): seq<T>
    requires n <= |s|
  {
    if n >= 0 then s[..n] else if |s| + n >= 0 then s[..|s| + n] else []
  }

  /** What is left of the transcript when step `index` is applied: a retry goes back to its checkpoint. */
  function Base(v: Variant, index: nat): seq<Message> {
    if index in v.before && v.before[index] <= |v.messages| then Upto(v.messages, v.before[index]) else v.messages
  }

  /** What a step adds. */
  function Turn(step: ScriptStep, answer: string): seq<Message> {
    if step.mode.Buyer? then [User(step.text), Reply(answer)] else [Reply(answer)]
  }

  function Ran(v: Variant, index: nat, step: ScriptStep, answer: string): Variant {
    var messages := Base(v, index) + Turn(step, answer);
    Variant(messages, if index in v.before then v.before else v.before[index := |messages| - 2])
  }

  class VariantStore {
    var messages: seq<Message>
    var before: map<nat, int>

    function View(): Variant
      reads this
    {
      Variant(messages, before)
    }

    constructor (seed: seq<Message>)
      ensures View() == Variant(seed, map[])
    {
      messages, before := seed, map[];
    }

    /** `_run_variant`; the turn fails or is cancelled when there is no answer. */
    method Run(index: nat, step: ScriptStep, answer: Option<string>)
      modifies this
      ensures View() == if answer.Some? then Ran(old(View()), index, step, answer.value) else old(View())
    {
      var turns := messages;
      var checkpoint := if index in before then Some(before[index]) else None;
      if checkpoint.Some? && checkpoint.value <= |turns| {
        turns := Upto(turns, checkpoint.value);
      }
      ghost var base := turns;
      if step.mode.Buyer? {
        turns := turns + [User(step.text)];
      }
      if answer.None? {
        return;
      }
      turns := turns + [Reply(answer.value)];
      assert turns == base + Turn(step, answer.value);
      messages := turns;
      if checkpoint.None? {
        before := before[index := |turns| - 2];
      }
    }
  }

  // ----- where the steps of a script belong -----

  function Size(step: ScriptStep): nat {
    if step.mode.Buyer? then 2 else 1
  }

  /** The number of turns before step `k`. */
  function Start(seed: seq<Message>, script: seq<ScriptStep>, k: nat): nat
    requires k <= |script|
  {
    if k == 0 then |seed| else Start(seed, script, k - 1) + Size(script[k - 1])
  }

  lemma {:induction false} StartGrows(seed: seq<Message>, script: seq<ScriptStep>, j: nat, k: nat)
    requires j <= k <= |script|
    ensures |seed| + j <= Start(seed, script, j)
    ensures Start(seed, script, j) + (k - j) <= Start(seed, script, k)
    decreases j + k
  {
    if j < k {
      StartGrows(seed, script, j, k - 1);
    } else if j > 0 {
      StartGrows(seed, script, j - 1, j - 1);
    }
  }

  predicate IsTurn(m: seq<Message>, p: nat, step: ScriptStep) {
    && p + Size(step) <= |m|
    && if step.mode.Buyer? then m[p] == User(step.text) && m[p + 1].Reply? else m[p].Reply?
  }

  predicate TurnAt(m: seq<Message>, seed: seq<Message>, script: seq<ScriptStep>, i: nat)
    requires i < |script|
  {
    IsTurn(m, Start(seed, script, i), script[i])
  }

  /** The seed, then the turns of the first `k` steps in order, each with one answer. */
  ghost predicate IsReplay(m: seq<Message>, seed: seq<Message>, script: seq<ScriptStep>, k: nat)
    requires k <= |script|
  {
    && |m| == Start(seed, script, k) && seed <= m
    && forall i: nat | i < k :: TurnAt(m, seed, script, i)
  }

  /** Every checkpoint is what the step recorded when it was first applied in its place: for a buyer
      step that is where its turns start, for another step it is one turn earlier. */
  ghost predicate Sound(v: Variant, seed: seq<Message>, script: seq<ScriptStep>, k: nat) {
    && (forall j | j in v.before :: IsCheckpoint(v.before, seed, script, j))
    && (forall j: nat | j < k :: j in v.before)
  }

  predicate IsCheckpoint(before: map<nat, int>, seed: seq<Message>, script: seq<ScriptStep>, j: nat)
    requires j in before
  {
    j < |script| && before[j] == Start(seed, script, j) + Size(script[j]) - 2
  }

  // ----- one run -----

  /** Whether step `j` can be applied to a transcript of `k` steps without disturbing it. */
  predicate Fits(v: Variant, seed: seq<Message>, script: seq<ScriptStep>, k: nat, j: nat)
    requires j < |script|
  {
    j <= k && (script[j].mode.Agent? && j in v.before ==> seed == [] && j == 0 && k <= 1)
  }

  lemma PrefixTurns(m: seq<Message>, seed: seq<Message>, script: seq<ScriptStep>, k: nat, j: nat, turn: seq<Message>)
    requires j <= k <= |script| && j < |script| && IsReplay(m, seed, script, k)
    requires |turn| == Size(script[j]) && IsTurn(turn, 0, script[j])
    ensures Start(seed, script, j) <= |m| && IsReplay(m[..Start(seed, script, j)] + turn, seed, script, j + 1)
  {
    StartGrows(seed, script, j, k);
    StartGrows(seed, script, 0, j);
    var p := Start(seed, script, j);
    var w := m[..p] + turn;
    forall i: nat | i <= j
      ensures TurnAt(w, seed, script, i)
    {
      if i < j {
        StartGrows(seed, script, i + 1, j);
        assert TurnAt(m, seed, script, i);
      }
    }
  }

  lemma BaseInPlace(v: Variant, seed: seq<Message>, script: seq<ScriptStep>, k: nat, j: nat)
    requires k <= |script| && j < |script| && Fits(v, seed, script, k, j)
    requires IsReplay(v.messages, seed, script, k) && Sound(v, seed, script, k)
    ensures Start(seed, script, j) <= |v.messages| && Base(v, j) == v.messages[..Start(seed, script, j)]
  {
    StartGrows(seed, script, j, k);
    if j in v.before {
      assert IsCheckpoint(v.before, seed, script, j);
    } else {
      assert j == k;
    }
  }

  lemma ReplayKeeps(v: Variant, seed: seq<Message>, script: seq<ScriptStep>, k: nat, j: nat, answer: string)
    requires k <= |script| && j < |script| && Fits(v, seed, script, k, j)
    requires IsReplay(v.messages, seed, script, k) && Sound(v, seed, script, k)
    ensures var w := Ran(v, j, script[j], answer);
            IsReplay(w.messages, seed, script, j + 1) && Sound(w, seed, script, j + 1)
  {
    BaseInPlace(v, seed, script, k, j);
    PrefixTurns(v.messages, seed, script, k, j, Turn(script[j], answer));
    var w := Ran(v, j, script[j], answer);
    forall i | i in w.before
      ensures IsCheckpoint(w.before, seed, script, i)
    {
      assert i in v.before ==> IsCheckpoint(v.before, seed, script, i);
    }
  }

  /** A step applied where it does not fit leaves a transcript of another length. */
  lemma ReplayBreaks(v: Variant, seed: seq<Message>, script: seq<ScriptStep>, k: nat, j: nat, answer: string)
    requires k <= |script| && j < |script| && !Fits(v, seed, script, k, j)
    requires IsReplay(v.messages, seed, script, k) && Sound(v, seed, script, k)
    ensures !IsReplay(Ran(v, j, script[j], answer).messages, seed, script, j + 1)
  {
    if j in v.before {
      assert IsCheckpoint(v.before, seed, script, j);
    }
    if j > k {
      StartGrows(seed, script, k, j);
      assert |Base(v, j)| == Start(seed, script, k);
    } else {
      StartGrows(seed, script, j, k);
      StartGrows(seed, script, 0, j);
      RetryDropsOneMore(v, seed, script, k, j);
    }
  }

  lemma RetryDropsOneMore(v: Variant, seed: seq<Message>, script: seq<ScriptStep>, k: nat, j: nat)
    requires j <= k <= |script| && j < |script| && script[j].mode.Agent?
    requires j in v.before && !Fits(v, seed, script, k, j)
    requires IsReplay(v.messages, seed, script, k) && IsCheckpoint(v.before, seed, script, j)
    ensures |Base(v, j)| != Start(seed, script, j)
  {
    StartGrows(seed, script, j, k);
    StartGrows(seed, script, 0, j);
    StartGrows(seed, script, 0, k);
  }

  // ----- any number of runs -----

  ghost predicate InScript(script: seq<ScriptStep>, js: seq<nat>) {
    forall p | 0 <= p < |js| :: js[p] < |script|
  }

  /** Run `i` of the history applies step `js[i]`. */
  ghost predicate RunAt(script: seq<ScriptStep>, js: seq<nat>, vs: seq<Variant>, i: nat)
    requires i < |js| && |vs| == |js| + 1 && InScript(script, js)
  {
    exists answer :: vs[i + 1] == Ran(vs[i], js[i], script[js[i]], answer)
  }

  /** `vs` are the states of a variant, from its seed on, through the runs `js` with whatever answers. */
  ghost predicate IsHistory(seed: seq<Message>, script: seq<ScriptStep>, js: seq<nat>, vs: seq<Variant>) {
    && InScript(script, js) && |vs| == |js| + 1 && vs[0] == Variant(seed, map[])
    && forall i: nat | i < |js| :: RunAt(script, js, vs, i)
  }

  /** How many steps the transcript should hold after the first `i` runs. */
  function Reach(js: seq<nat>, i: nat): nat
    requires i <= |js|
  {
    if i == 0 then 0 else js[i - 1] + 1
  }

  /** Each run applies the first step, a step already in the transcript, or the next one. */
  ghost predicate InOrder(js: seq<nat>) {
    forall i | 0 <= i < |js| :: InOrderAt(js, i)
  }

  predicate InOrderAt(js: seq<nat>, i: nat)
    requires i < |js|
  {
    js[i] <= Reach(js, i)
  }

  /** One of the first `i` runs applied step `j`. */
  ghost predicate RanBefore(js: seq<nat>, i: nat, j: nat)
    requires i <= |js|
  {
    exists p: nat | p < i :: js[p] == j
  }

  /** And a step without a buyer turn is never repeated, unless it alone is the transcript. */
  ghost predicate RunFits(seed: seq<Message>, script: seq<ScriptStep>, js: seq<nat>, i: nat)
    requires i < |js| && InScript(script, js)
  {
    && InOrderAt(js, i)
    && (script[js[i]].mode.Agent? && RanBefore(js, i, js[i]) ==> seed == [] && js[i] == 0 && Reach(js, i) <= 1)
  }

  lemma {:induction false} CheckpointsOfRuns(
    seed: seq<Message>, script: seq<ScriptStep>, js: seq<nat>, vs: seq<Variant>, i: nat, j: nat)
    requires IsHistory(seed, script, js, vs) && i <= |js|
    ensures j in vs[i].before <==> RanBefore(js, i, j)
  {
    if i > 0 {
      CheckpointsOfRuns(seed, script, js, vs, i - 1, j);
      RanBeforeNext(js, i - 1, j);
      assert RunAt(script, js, vs, i - 1);
    }
  }

  lemma RanBeforeNext(js: seq<nat>, i: nat, j: nat)
    requires i < |js|
    ensures RanBefore(js, i + 1, j) <==> RanBefore(js, i, j) || js[i] == j
  {
    if RanBefore(js, i, j) {
      var p: nat :| p < i && js[p] == j;
      assert p < i + 1 && js[p] == j;
    }
  }

  ghost predicate Replays(v: Variant, seed: seq<Message>, script: seq<ScriptStep>, k: nat) {
    k <= |script| && IsReplay(v.messages, seed, script, k) && Sound(v, seed, script, k)
  }

  lemma RunKeeps(v: Variant, seed: seq<Message>, script: seq<ScriptStep>, js: seq<nat>, i: nat, answer: string)
    requires i < |js| && InScript(script, js) && RunFits(seed, script, js, i)
    requires Replays(v, seed, script, Reach(js, i)) && (js[i] in v.before <==> RanBefore(js, i, js[i]))
    ensures Replays(Ran(v, js[i], script[js[i]], answer), seed, script, js[i] + 1)
  {
    ReplayKeeps(v, seed, script, Reach(js, i), js[i], answer);
  }

  lemma {:induction false} FittingRunsReplay(
    seed: seq<Message>, script: seq<ScriptStep>, js: seq<nat>, vs: seq<Variant>, i: nat)
    requires IsHistory(seed, script, js, vs) && i <= |js|
    requires forall p: nat | p < i :: RunFits(seed, script, js, p)
    ensures Replays(vs[i], seed, script, Reach(js, i))
  {
    if i == 0 {
      NothingRun(seed, script);
    } else {
      FittingRunsReplay(seed, script, js, vs, i - 1);
      CheckpointsOfRuns(seed, script, js, vs, i - 1, js[i - 1]);
      assert RunAt(script, js, vs, i - 1);
      var answer :| vs[i] == Ran(vs[i - 1], js[i - 1], script[js[i - 1]], answer);
      RunKeeps(vs[i - 1], seed, script, js, i - 1, answer);
    }
  }

  lemma NothingRun(seed: seq<Message>, script: seq<ScriptStep>)
    ensures Replays(Variant(seed, map[]), seed, script, 0)
  {
  }

  /** After the first `i` runs the transcript is the seed and the turns up to the step just run. */
  ghost predicate ReplaysAt(seed: seq<Message>, script: seq<ScriptStep>, js: seq<nat>, vs: seq<Variant>, i: nat)
    requires i <= |js| < |vs|
  {
    Reach(js, i) <= |script| && IsReplay(vs[i].messages, seed, script, Reach(js, i))
  }

  /** For any script and any number of runs: after every run the transcript is the seed followed by the
      turns up to the step just run, each with one answer, exactly when no run went beyond the step that
      follows the one before it and no step without a buyer turn was repeated, unless on its own. */
  lemma ReplayTheorem(seed: seq<Message>, script: seq<ScriptStep>, js: seq<nat>, vs: seq<Variant>)
    requires IsHistory(seed, script, js, vs)
    ensures (forall i: nat | i < |js| :: RunFits(seed, script, js, i))
       <==> forall i: nat | i <= |js| :: ReplaysAt(seed, script, js, vs, i)
  {
    if forall i: nat | i < |js| :: RunFits(seed, script, js, i) {
      forall i: nat | i <= |js|
        ensures ReplaysAt(seed, script, js, vs, i)
      {
        FittingRunsReplay(seed, script, js, vs, i);
      }
    } else {
      var i := FirstMisfit(seed, script, js);
      FittingRunsReplay(seed, script, js, vs, i);
      CheckpointsOfRuns(seed, script, js, vs, i, js[i]);
      assert RunAt(script, js, vs, i);
      var answer :| vs[i + 1] == Ran(vs[i], js[i], script[js[i]], answer);
      ReplayBreaks(vs[i], seed, script, Reach(js, i), js[i], answer);
      assert !ReplaysAt(seed, script, js, vs, i + 1);
    }
  }

  lemma FirstMisfit(seed: seq<Message>, script: seq<ScriptStep>, js: seq<nat>) returns (i: nat)
    requires InScript(script, js) && exists i: nat | i < |js| :: !RunFits(seed, script, js, i)
    ensures i < |js| && !RunFits(seed, script, js, i) && forall p: nat | p < i :: RunFits(seed, script, js, p)
  {
    i := 0;
    while i < |js| && RunFits(seed, script, js, i)
      invariant i <= |js| && forall p: nat | p < i :: RunFits(seed, script, js, p)
    {
      i := i + 1;
    }
  }

  /** When every step is a buyer step, the order of the runs alone decides. */
  lemma BuyerReplayTheorem(seed: seq<Message>, script: seq<ScriptStep>, js: seq<nat>, vs: seq<Variant>)
    requires IsHistory(seed, script, js, vs) && forall s | s in script :: s.mode.Buyer?
    ensures InOrder(js) <==> forall i: nat | i <= |js| :: ReplaysAt(seed, script, js, vs, i)
  {
    ReplayTheorem(seed, script, js, vs);
    forall i: nat | i < |js|
      ensures RunFits(seed, script, js, i) <==> InOrderAt(js, i)
    {
    }
  }

  // ----- each buyer message once -----

  /** A buyer text occurs once among the replayed turns. */
  ghost predicate OccursOnce(m: seq<Message>, seed: seq<Message>, text: string) {
    exists p | |seed| <= p < |m| ::
      m[p] == User(text) && forall q | |seed| <= q < |m| && m[q] == User(text) :: q == p
  }

  ghost predicate DistinctBuyers(script: seq<ScriptStep>) {
    forall i, j | 0 <= i < j < |script| && script[i].mode.Buyer? && script[j].mode.Buyer? ::
      script[i].text != script[j].text
  }

  /** The step whose turns hold position `p`. */
  lemma {:induction false} StepOf(seed: seq<Message>, script: seq<ScriptStep>, k: nat, p: nat) returns (h: nat)
    requires k <= |script| && |seed| <= p < Start(seed, script, k)
    ensures h < k && Start(seed, script, h) <= p < Start(seed, script, h + 1)
  {
    if p < Start(seed, script, k - 1) {
      h := StepOf(seed, script, k - 1, p);
    } else {
      h := k - 1;
    }
  }

  /** Buyer text `i` stands at its own place only. */
  lemma OnlyAtItsPlace(m: seq<Message>, seed: seq<Message>, script: seq<ScriptStep>, k: nat, i: nat, p: nat)
    requires k <= |script| && i < |script| && script[i].mode.Buyer? && DistinctBuyers(script)
    requires IsReplay(m, seed, script, k) && |seed| <= p < |m| && p != Start(seed, script, i)
    ensures m[p] != User(script[i].text)
  {
    var h := StepOf(seed, script, k, p);
    assert TurnAt(m, seed, script, h);
  }

  /** Under the condition of the theorem each buyer text up to the last step run occurs once. */
  lemma ExactlyOnce(seed: seq<Message>, script: seq<ScriptStep>, js: seq<nat>, vs: seq<Variant>, j: nat)
    requires IsHistory(seed, script, js, vs) && js != [] && DistinctBuyers(script)
    requires forall i: nat | i < |js| :: RunFits(seed, script, js, i)
    requires j <= js[|js| - 1] && script[j].mode.Buyer?
    ensures OccursOnce(vs[|js|].messages, seed, script[j].text)
  {
    FittingRunsReplay(seed, script, js, vs, |js|);
    var m, k := vs[|js|].messages, Reach(js, |js|);
    var p := Start(seed, script, j);
    StartGrows(seed, script, 0, j);
    assert TurnAt(m, seed, script, j);
    forall q | |seed| <= q < |m| && q != p
      ensures m[q] != User(script[j].text)
    {
      OnlyAtItsPlace(m, seed, script, k, j, q);
    }
  }

  // ----- retries -----

  /** Repeating the last buyer step only replaces its answer. */
  lemma RepeatReplacesAnswer(
    v: Variant, seed: seq<Message>, script: seq<ScriptStep>, k: nat, first: string, again: string)
    requires k < |script| && script[k].mode.Buyer? && IsReplay(v.messages, seed, script, k) && Sound(v, seed, script, k)
    ensures Ran(Ran(v, k, script[k], first), k, script[k], again)
         == Ran(v, k, script[k], first).(messages := v.messages + Turn(script[k], again))
  {
    BaseInPlace(v, seed, script, k, k);
    ReplayKeeps(v, seed, script, k, k, first);
    BaseInPlace(Ran(v, k, script[k], first), seed, script, k + 1, k);
    assert v.messages[..Start(seed, script, k)] == v.messages;
  }

  /** Forcing an earlier buyer step `j`, then a later step `l`: the steps between them are gone, because
      the checkpoint of `l` lies beyond the transcript. */
  lemma ForcingEarlierLosesSteps(
    v: Variant, seed: seq<Message>, script: seq<ScriptStep>, k: nat, j: nat, l: nat, first: string, again: string)
    requires k <= |script| && j + 1 < l < k && script[j].mode.Buyer?
    requires IsReplay(v.messages, seed, script, k) && Sound(v, seed, script, k)
    ensures Start(seed, script, j) <= |v.messages|
    ensures Ran(Ran(v, j, script[j], first), l, script[l], again).messages
         == v.messages[..Start(seed, script, j)] + Turn(script[j], first) + Turn(script[l], again)
  {
    BaseInPlace(v, seed, script, k, j);
    ReplayKeeps(v, seed, script, k, j, first);
    var once := Ran(v, j, script[j], first);
    StartGrows(seed, script, j + 1, l);
    assert IsCheckpoint(once.before, seed, script, l);
    assert Base(once, l) == once.messages;
  }

  /** The checkpoint of a step without a buyer turn is one turn too early. */
  lemma AgentCheckpoint(v: Variant, index: nat, step: ScriptStep, first: string)
    requires step.mode.Agent? && index !in v.before
    ensures Ran(v, index, step, first) == Variant(v.messages + [Reply(first)], v.before[index := |v.messages| - 1])
  {
  }

  lemma AgentRetryBase(m: seq<Message>, first: string)
    ensures var once := m + [Reply(first)];
            |Upto(once, |m| - 1)| == if m == [] then 0 else |m| - 1
  {
  }

  /** So repeating it also drops the turn before it: only on an empty transcript does a repeat replace the
      answer and nothing else. */
  lemma AgentRepeatIff(v: Variant, index: nat, step: ScriptStep, first: string, again: string)
    requires step.mode.Agent? && index !in v.before
    ensures Ran(Ran(v, index, step, first), index, step, again).messages == v.messages + [Reply(again)]
       <==> v.messages == []
  {
    var once := Ran(v, index, step, first);
    AgentCheckpoint(v, index, step, first);
    AgentRetryBase(v.messages, first);
    var base := Base(once, index);
    assert base == Upto(v.messages + [Reply(first)], |v.messages| - 1);
    assert Ran(once, index, step, again).messages == base + [Reply(again)];
    if v.messages == [] {
      assert base == [];
    } else {
      assert |base + [Reply(again)]| != |v.messages + [Reply(again)]|;
    }
  }
}

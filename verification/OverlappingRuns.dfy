// Two runs that apply different steps to the same variant at the same time
// (backend/app/api/routers/experiments.py:564-614, 644-687; backend/app/shared/agent/experiments.py:425-460).
module OverlappingRuns {
  import opened Common
  import opened Replay

  /** What one run does to the variant: its step and the answer it gets. */
  datatype Job = Job(index: nat, step: ScriptStep, answer: string)

  /** A run loads the experiment, reads the transcript and computes the new one, saves it, and records. */
  datatype Pc = Idle | Loaded | Computed | Saved | Recorded

  /** One run: its own copy of the variant's checkpoints, the transcript it computed, and, as history,
      whether the other run had recorded when it loaded, and saved when it read. */
  datatype Run = Run(pc: Pc, copy: map<nat, int>, result: seq<Message>, after: bool, read: bool)

  /** Which of the two runs wrote the experiment row last. */
  datatype Writer = Nobody | RunA | RunB

  /** The stored transcript, the stored checkpoints of the variant (a step has one exactly when its completion
      is stored), as history who wrote them last, and the two runs. */
  datatype World = World(messages: seq<Message>, before: map<nat, int>, last: Writer, a: Run, b: Run)

  const IDLE := Run(Idle, map[], [], false, false)

  function Start(v: Variant): World {
    World(v.messages, v.before, Nobody, IDLE, IDLE)
  }

  /** The checkpoints after `record_step_progress` wrote the run's own copy back. */
  function Entry(job: Job, copy: map<nat, int>, result: seq<Message>): map<nat, int> {
    if job.index in copy then copy else copy[job.index := |result| - 2]
  }

  /** The next move of run `me`, the other run being `other`. */
  function Moved(job: Job, me: Run, other: Run, messages: seq<Message>, before: map<nat, int>)
    : (seq<Message>, map<nat, int>, Run)
  {
    match me.pc
    case Idle => (messages, before, me.(pc := Loaded, copy := before, after := other.pc.Recorded?))
    case Loaded =>
      var result := Base(Variant(messages, me.copy), job.index) + Turn(job.step, job.answer);
      (messages, before, me.(pc := Computed, result := result, read := other.pc.Saved? || other.pc.Recorded?))
    case Computed => (me.result, before, me.(pc := Saved))
    case Saved => (messages, Entry(job, me.copy, me.result), me.(pc := Recorded))
    case Recorded => (messages, before, me)
  }

  /** What a run's copy says about the variant. */
  function Held(job: Job, r: Run): map<nat, int> {
    if r.pc.Recorded? then Entry(job, r.copy, r.result) else r.copy
  }

  function MoveA(a: Job, w: World): World {
    var (messages, before, me) := Moved(a, w.a, w.b, w.messages, w.before);
    World(messages, before, if w.a.pc.Saved? then RunA else w.last, me, w.b)
  }

  function MoveB(b: Job, w: World): World {
    var (messages, before, me) := Moved(b, w.b, w.a, w.messages, w.before);
    World(messages, before, if w.b.pc.Saved? then RunB else w.last, w.a, me)
  }

  /** A run records another of its variants: that writes its copy of this one, too. */
  function ElsewhereA(a: Job, w: World): World {
    if w.a.pc.Idle? then w else w.(before := Held(a, w.a), last := RunA)
  }

  function ElsewhereB(b: Job, w: World): World {
    if w.b.pc.Idle? then w else w.(before := Held(b, w.b), last := RunB)
  }

  ghost predicate StepAt(a: Job, b: Job, ws: seq<World>, i: nat)
    requires i + 1 < |ws|
  {
    || ws[i + 1] == MoveA(a, ws[i]) || ws[i + 1] == ElsewhereA(a, ws[i])
    || ws[i + 1] == MoveB(b, ws[i]) || ws[i + 1] == ElsewhereB(b, ws[i])
  }

  /** Any interleaving of the two runs, each of which may have other variants as well. */
  ghost predicate IsRun(v: Variant, a: Job, b: Job, ws: seq<World>) {
    && ws != [] && ws[0] == Start(v)
    && forall i: nat | i + 1 < |ws| :: StepAt(a, b, ws, i)
  }

  /** Both runs have recorded this variant in the last state. */
  ghost predicate Ends(ws: seq<World>) {
    ws != [] && ws[|ws| - 1].a.pc.Recorded? && ws[|ws| - 1].b.pc.Recorded?
  }

  // ----- what every interleaving keeps -----

  /** The transcript a run computes that has seen nothing of the other. */
  function FirstResult(v: Variant, me: Job): seq<Message> {
    Base(v, me.index) + Turn(me.step, me.answer)
  }

  function CopyOf(v: Variant, other: Job, after: bool): map<nat, int> {
    if after then Entry(other, v.before, FirstResult(v, other)) else v.before
  }

  /** The transcript run `me` computes: on top of the other's if it read that. */
  function ResultOf(v: Variant, me: Job, other: Job, read: bool, after: bool): seq<Message> {
    FirstResult(Variant(if read then FirstResult(v, other) else v.messages, CopyOf(v, other, after)), me)
  }

  predicate HasSaved(r: Run) {
    r.pc.Saved? || r.pc.Recorded?
  }

  /** What run `me` holds, given its history. */
  ghost predicate RunInv(v: Variant, me: Job, other: Job, r: Run, o: Run) {
    && (r.pc.Idle? ==> r == IDLE)
    && (!r.pc.Idle? ==> r.copy == CopyOf(v, other, r.after))
    && (HasSaved(r) || r.pc.Computed? ==> r.result == ResultOf(v, me, other, r.read, r.after) && (r.after ==> r.read))
    && (r.pc.Loaded? ==> !r.read)
    && (r.read ==> HasSaved(o)) && (r.after ==> o.pc.Recorded?)
  }

  /** The transcript is that of the run that saved last: one that read the other's is after it. */
  ghost predicate TranscriptInv(v: Variant, w: World) {
    && (!HasSaved(w.a) && !HasSaved(w.b) ==> w.messages == v.messages)
    && (HasSaved(w.a) && (!HasSaved(w.b) || w.a.read) ==> w.messages == w.a.result)
    && (HasSaved(w.b) && (!HasSaved(w.a) || w.b.read) ==> w.messages == w.b.result)
    && (HasSaved(w.a) && HasSaved(w.b) ==> w.messages == w.a.result || w.messages == w.b.result)
  }

  /** And the checkpoints are those held by the run that wrote last. */
  ghost predicate RecordInv(v: Variant, a: Job, b: Job, w: World) {
    match w.last
    case Nobody => w.before == v.before && !w.a.pc.Recorded? && !w.b.pc.Recorded?
    case RunA => w.before == Held(a, w.a) && !w.a.pc.Idle?
    case RunB => w.before == Held(b, w.b) && !w.b.pc.Idle?
  }

  ghost predicate Inv(v: Variant, a: Job, b: Job, w: World) {
    && RunInv(v, a, b, w.a, w.b) && RunInv(v, b, a, w.b, w.a)
    && !(w.a.read && w.b.read) && !(w.a.after && w.b.read) && !(w.b.after && w.a.read)
    && TranscriptInv(v, w) && RecordInv(v, a, b, w)
  }

  function Swapped(w: World): World {
    World(w.messages, w.before, match w.last case Nobody => Nobody case RunA => RunB case RunB => RunA, w.b, w.a)
  }

  lemma SwapKeeps(v: Variant, a: Job, b: Job, w: World)
    ensures Inv(v, a, b, w) <==> Inv(v, b, a, Swapped(w))
  {
  }

  lemma LoadKeeps(v: Variant, a: Job, b: Job, w: World)
    requires Inv(v, a, b, w) && w.a.pc.Idle?
    ensures Inv(v, a, b, MoveA(a, w))
  {
  }

  lemma ComputeKeeps(v: Variant, a: Job, b: Job, w: World)
    requires Inv(v, a, b, w) && w.a.pc.Loaded?
    ensures Inv(v, a, b, MoveA(a, w))
  {
  }

  lemma SaveKeeps(v: Variant, a: Job, b: Job, w: World)
    requires Inv(v, a, b, w) && (w.a.pc.Computed? || w.a.pc.Saved? || w.a.pc.Recorded?)
    ensures Inv(v, a, b, MoveA(a, w))
  {
  }

  lemma MoveKeeps(v: Variant, a: Job, b: Job, w: World)
    requires Inv(v, a, b, w)
    ensures Inv(v, a, b, MoveA(a, w)) && Inv(v, a, b, ElsewhereA(a, w))
  {
    if w.a.pc.Idle? {
      LoadKeeps(v, a, b, w);
    } else if w.a.pc.Loaded? {
      ComputeKeeps(v, a, b, w);
    } else {
      SaveKeeps(v, a, b, w);
    }
  }

  lemma {:induction false} Always(v: Variant, a: Job, b: Job, ws: seq<World>, i: nat)
    requires IsRun(v, a, b, ws) && i < |ws|
    ensures Inv(v, a, b, ws[i])
  {
    if i > 0 {
      Always(v, a, b, ws, i - 1);
      assert StepAt(a, b, ws, i - 1);
      MoveKeeps(v, a, b, ws[i - 1]);
      SwapKeeps(v, a, b, ws[i - 1]);
      MoveKeeps(v, b, a, Swapped(ws[i - 1]));
      SwapKeeps(v, a, b, MoveB(b, ws[i - 1]));
      SwapKeeps(v, a, b, ElsewhereB(b, ws[i - 1]));
      assert Swapped(MoveB(b, ws[i - 1])) == MoveA(b, Swapped(ws[i - 1]));
      assert Swapped(ElsewhereB(b, ws[i - 1])) == ElsewhereA(b, Swapped(ws[i - 1]));
    }
  }

  // ----- what the interleaving was -----

  /** The second run loaded the experiment after the first had recorded. */
  ghost predicate AThenB(ws: seq<World>, n: nat) {
    exists i: nat | i < n && i < |ws| :: ws[i].a.pc.Recorded? && ws[i].b.pc.Idle?
  }

  ghost predicate BThenA(ws: seq<World>, n: nat) {
    exists i: nat | i < n && i < |ws| :: ws[i].b.pc.Recorded? && ws[i].a.pc.Idle?
  }

  /** The second run read the transcript after the first had saved it. */
  ghost predicate BReadsA(ws: seq<World>, n: nat) {
    exists i: nat | i < n && i < |ws| :: HasSaved(ws[i].a) && (ws[i].b.pc.Idle? || ws[i].b.pc.Loaded?)
  }

  ghost predicate AReadsB(ws: seq<World>, n: nat) {
    exists i: nat | i < n && i < |ws| :: HasSaved(ws[i].b) && (ws[i].a.pc.Idle? || ws[i].a.pc.Loaded?)
  }

  lemma ThenNext(ws: seq<World>, n: nat)
    requires n < |ws|
    ensures AThenB(ws, n + 1) <==> AThenB(ws, n) || (ws[n].a.pc.Recorded? && ws[n].b.pc.Idle?)
    ensures BThenA(ws, n + 1) <==> BThenA(ws, n) || (ws[n].b.pc.Recorded? && ws[n].a.pc.Idle?)
  {
    assert AThenB(ws, n) ==> AThenB(ws, n + 1);
    assert BThenA(ws, n) ==> BThenA(ws, n + 1);
  }

  lemma ReadsNext(ws: seq<World>, n: nat)
    requires n < |ws|
    ensures BReadsA(ws, n + 1) <==> BReadsA(ws, n) || (HasSaved(ws[n].a) && (ws[n].b.pc.Idle? || ws[n].b.pc.Loaded?))
    ensures AReadsB(ws, n + 1) <==> AReadsB(ws, n) || (HasSaved(ws[n].b) && (ws[n].a.pc.Idle? || ws[n].a.pc.Loaded?))
  {
    assert BReadsA(ws, n) ==> BReadsA(ws, n + 1);
    assert AReadsB(ws, n) ==> AReadsB(ws, n + 1);
  }

  lemma {:induction false} LoadHistoryIs(v: Variant, a: Job, b: Job, ws: seq<World>, n: nat)
    requires IsRun(v, a, b, ws) && n < |ws|
    ensures ws[n].b.pc.Idle? || (ws[n].b.after <==> AThenB(ws, n))
    ensures ws[n].a.pc.Idle? || (ws[n].a.after <==> BThenA(ws, n))
    ensures ws[n].b.pc.Idle? && AThenB(ws, n) ==> ws[n].a.pc.Recorded?
    ensures ws[n].a.pc.Idle? && BThenA(ws, n) ==> ws[n].b.pc.Recorded?
  {
    if n > 0 {
      LoadHistoryIs(v, a, b, ws, n - 1);
      assert StepAt(a, b, ws, n - 1);
      ThenNext(ws, n - 1);
    }
  }

  lemma {:induction false} ReadHistoryIs(v: Variant, a: Job, b: Job, ws: seq<World>, n: nat)
    requires IsRun(v, a, b, ws) && n < |ws|
    ensures ws[n].b.pc.Idle? || ws[n].b.pc.Loaded? || (ws[n].b.read <==> BReadsA(ws, n))
    ensures ws[n].a.pc.Idle? || ws[n].a.pc.Loaded? || (ws[n].a.read <==> AReadsB(ws, n))
    ensures (ws[n].b.pc.Idle? || ws[n].b.pc.Loaded?) && BReadsA(ws, n) ==> HasSaved(ws[n].a)
    ensures (ws[n].a.pc.Idle? || ws[n].a.pc.Loaded?) && AReadsB(ws, n) ==> HasSaved(ws[n].b)
  {
    if n > 0 {
      ReadHistoryIs(v, a, b, ws, n - 1);
      assert StepAt(a, b, ws, n - 1);
      ReadsNext(ws, n - 1);
    }
  }

  /** The recorded history of the two runs is what happened. */
  lemma HistoryIs(v: Variant, a: Job, b: Job, ws: seq<World>)
    requires IsRun(v, a, b, ws) && Ends(ws)
    ensures var n, w := |ws| - 1, ws[|ws| - 1];
            && (w.b.after <==> AThenB(ws, n)) && (w.a.after <==> BThenA(ws, n))
            && (w.b.read <==> BReadsA(ws, n)) && (w.a.read <==> AReadsB(ws, n))
  {
    LoadHistoryIs(v, a, b, ws, |ws| - 1);
    ReadHistoryIs(v, a, b, ws, |ws| - 1);
  }

  // ----- what survives -----

  /** Different steps, neither of which the variant has done. */
  ghost predicate AreNew(v: Variant, a: Job, b: Job) {
    a.index != b.index && a.index !in v.before && b.index !in v.before
  }

  /** The transcript holds both turns, in either order. */
  ghost predicate BothTurns(v: Variant, a: Job, b: Job, messages: seq<Message>) {
    || messages == v.messages + Turn(a.step, a.answer) + Turn(b.step, b.answer)
    || messages == v.messages + Turn(b.step, b.answer) + Turn(a.step, a.answer)
  }

  lemma ReadingKeepsTurns(v: Variant, a: Job, b: Job, w: World)
    requires AreNew(v, a, b) && Inv(v, a, b, w) && w.a.pc.Recorded? && w.b.pc.Recorded?
    ensures BothTurns(v, a, b, w.messages) <==> w.a.read || w.b.read
  {
    var ta, tb := Turn(a.step, a.answer), Turn(b.step, b.answer);
    assert |ta| > 0 && |tb| > 0;
    if !w.a.read && !w.b.read {
      assert |w.messages| == |v.messages + ta| || |w.messages| == |v.messages + tb|;
      assert |v.messages + ta + tb| == |v.messages| + |ta| + |tb|;
      assert |v.messages + tb + ta| == |v.messages| + |ta| + |tb|;
    }
  }

  /** The run that wrote the row last had loaded it after the other had recorded. */
  ghost predicate LastFollows(ws: seq<World>)
    requires ws != []
  {
    var n := |ws| - 1;
    (ws[n].last.RunB? && AThenB(ws, n)) || (ws[n].last.RunA? && BThenA(ws, n))
  }

  /** For every interleaving of two runs of different new steps on one variant: both completions and
      checkpoints are stored exactly when the run that wrote last had loaded the experiment after the other
      had recorded; both turns are in the transcript exactly when one run read it after the other had saved
      it; so all four survive exactly when the completions do. */
  lemma OverlapTheorem(v: Variant, a: Job, b: Job, ws: seq<World>)
    requires AreNew(v, a, b) && IsRun(v, a, b, ws) && Ends(ws)
    ensures var n, w := |ws| - 1, ws[|ws| - 1];
            && (a.index in w.before && b.index in w.before <==> LastFollows(ws))
            && (BothTurns(v, a, b, w.messages) <==> BReadsA(ws, n) || AReadsB(ws, n))
            && (LastFollows(ws) ==> BothTurns(v, a, b, w.messages))
            && (a.index in w.before || b.index in w.before)
  {
    var n := |ws| - 1;
    Always(v, a, b, ws, n);
    HistoryIs(v, a, b, ws);
    ReadingKeepsTurns(v, a, b, ws[n]);
  }

  // ----- any two different steps, done before or not -----

  /** The stored checkpoint of the step, if it was done before, cuts nothing of `m`. */
  predicate Spares(v: Variant, me: Job, m: seq<Message>) {
    me.index in v.before ==> v.before[me.index] >= |m|
  }

  lemma BaseSparesIff(v: Variant, me: Job, m: seq<Message>, before: map<nat, int>)
    requires m != [] && (me.index in before <==> me.index in v.before)
    requires me.index in before ==> before[me.index] == v.before[me.index]
    ensures Base(Variant(m, before), me.index) <= m
    ensures Base(Variant(m, before), me.index) == m <==> Spares(v, me, m)
  {
  }

  /** A new answer is the last message of the transcript that its run computes, and nowhere else. */
  lemma AnswerIsLast(base: seq<Message>, me: Job)
    requires Reply(me.answer) !in base
    ensures var m := base + Turn(me.step, me.answer);
            m != [] && m[|m| - 1] == Reply(me.answer) && Reply(me.answer) !in m[..|m| - 1]
    ensures forall answer | answer != me.answer ::
              Reply(answer) in base + Turn(me.step, me.answer) <==> Reply(answer) in base
  {
    var m := base + Turn(me.step, me.answer);
    assert forall k | 0 <= k < |m| - 1 :: k < |base| ==> m[k] == base[k];
  }

  /** What the second answer leaves of the first. */
  lemma SecondAnswer(v: Variant, first: Job, second: Job, before: map<nat, int>)
    requires first.answer != second.answer && Reply(first.answer) !in v.messages && Reply(second.answer) !in v.messages
    requires second.index in before <==> second.index in v.before
    requires second.index in before ==> before[second.index] == v.before[second.index]
    ensures var m := FirstResult(v, first);
            var w := FirstResult(Variant(m, before), second);
            Reply(second.answer) in w && (Reply(first.answer) in w <==> Spares(v, second, m))
  {
    var m := FirstResult(v, first);
    AnswerIsLast(Base(v, first.index), first);
    BaseSparesIff(v, second, m, before);
    var base := Base(Variant(m, before), second.index);
    assert base != m ==> base <= m[..|m| - 1];
    AnswerIsLast(base, second);
  }

  lemma OneAnswer(v: Variant, me: Job, other: Job)
    requires me.answer != other.answer && Reply(me.answer) !in v.messages && Reply(other.answer) !in v.messages
    ensures Reply(other.answer) !in FirstResult(v, me)
  {
    AnswerIsLast(Base(v, me.index), me);
  }

  /** Both new answers are in the transcript. */
  predicate BothAnswers(a: Job, b: Job, messages: seq<Message>) {
    Reply(a.answer) in messages && Reply(b.answer) in messages
  }

  lemma AnswersSurviveIff(v: Variant, a: Job, b: Job, w: World)
    requires Inv(v, a, b, w) && w.a.pc.Recorded? && w.b.pc.Recorded? && a.index != b.index
    requires a.answer != b.answer && Reply(a.answer) !in v.messages && Reply(b.answer) !in v.messages
    ensures BothAnswers(a, b, w.messages)
       <==> (w.b.read && Spares(v, b, FirstResult(v, a))) || (w.a.read && Spares(v, a, FirstResult(v, b)))
  {
    if w.b.read {
      SecondAnswer(v, a, b, CopyOf(v, a, w.b.after));
    } else if w.a.read {
      SecondAnswer(v, b, a, CopyOf(v, b, w.a.after));
    } else {
      OneAnswer(v, a, b);
      OneAnswer(v, b, a);
    }
  }

  /** For every interleaving of two runs of different steps, done before or not: a step stays done, with its
      checkpoint; a new completion is stored exactly when its run wrote last or the other loaded after it;
      and both new answers, told apart from what was there, are in the transcript exactly when one run read
      it after the other had saved and its own checkpoint did not cut the other's turn away. */
  lemma OverlapRetryTheorem(v: Variant, a: Job, b: Job, ws: seq<World>)
    requires a.index != b.index && IsRun(v, a, b, ws) && Ends(ws)
    ensures var n, w := |ws| - 1, ws[|ws| - 1];
            && (forall j | j in v.before :: j in w.before && w.before[j] == v.before[j])
            && (a.index in w.before <==> a.index in v.before || w.last.RunA? || AThenB(ws, n))
            && (b.index in w.before <==> b.index in v.before || w.last.RunB? || BThenA(ws, n))
    ensures a.answer != b.answer && Reply(a.answer) !in v.messages && Reply(b.answer) !in v.messages ==>
              var n, w := |ws| - 1, ws[|ws| - 1];
              BothAnswers(a, b, w.messages)
              <==> || (BReadsA(ws, n) && Spares(v, b, FirstResult(v, a)))
                   || (AReadsB(ws, n) && Spares(v, a, FirstResult(v, b)))
  {
    var n := |ws| - 1;
    Always(v, a, b, ws, n);
    HistoryIs(v, a, b, ws);
    if a.answer != b.answer && Reply(a.answer) !in v.messages && Reply(b.answer) !in v.messages {
      AnswersSurviveIff(v, a, b, ws[n]);
    }
  }

  /** A run that loaded after the other had recorded, and wrote last, leaves what the two runs leave one
      after the other, whichever steps they are. */
  lemma FollowingIsSequential(v: Variant, a: Job, b: Job, ws: seq<World>)
    requires IsRun(v, a, b, ws) && Ends(ws) && AThenB(ws, |ws| - 1) && ws[|ws| - 1].last.RunB?
    ensures var w := ws[|ws| - 1];
            Variant(w.messages, w.before) == Ran(Ran(v, a.index, a.step, a.answer), b.index, b.step, b.answer)
  {
    var n := |ws| - 1;
    Always(v, a, b, ws, n);
    HistoryIs(v, a, b, ws);
  }

  /** A run that read the transcript before the other saved records the checkpoint of the other's place: if
      its completion is the one that is stored, a retry goes back one step too far. */
  lemma OverlapCheckpoint(v: Variant, a: Job, b: Job, ws: seq<World>)
    requires AreNew(v, a, b) && IsRun(v, a, b, ws) && Ends(ws) && b.index in ws[|ws| - 1].before
    ensures ws[|ws| - 1].before[b.index]
         == |v.messages| + |Turn(b.step, b.answer)| - 2
            + if BReadsA(ws, |ws| - 1) then |Turn(a.step, a.answer)| else 0
  {
    var n := |ws| - 1;
    Always(v, a, b, ws, n);
    HistoryIs(v, a, b, ws);
  }

  /** Two consecutive buyer steps are both replayed, and both can be retried, exactly when the run of the
      later one loaded the experiment after the run of the earlier one had recorded, and wrote last. */
  lemma OverlapReplaysIff(
    v: Variant, seed: seq<Message>, script: seq<ScriptStep>, k: nat, first: string, second: string, ws: seq<World>)
    requires k + 1 < |script| && script[k].mode.Buyer? && script[k + 1].mode.Buyer?
    requires IsReplay(v.messages, seed, script, k) && Sound(v, seed, script, k)
    requires k !in v.before && k + 1 !in v.before
    requires IsRun(v, Job(k, script[k], first), Job(k + 1, script[k + 1], second), ws) && Ends(ws)
    requires script[k].text != script[k + 1].text
    ensures var w := ws[|ws| - 1];
            IsReplay(w.messages, seed, script, k + 2) && Sound(Variant(w.messages, w.before), seed, script, k + 2)
            <==> AThenB(ws, |ws| - 1) && w.last.RunB?
  {
    var a, b := Job(k, script[k], first), Job(k + 1, script[k + 1], second);
    var n, w := |ws| - 1, ws[|ws| - 1];
    OverlapTheorem(v, a, b, ws);
    if AThenB(ws, n) && w.last.RunB? {
      FollowingIsSequential(v, a, b, ws);
      ReplayKeeps(v, seed, script, k, k, first);
      ReplayKeeps(Ran(v, k, script[k], first), seed, script, k + 1, k + 1, second);
    } else if IsReplay(w.messages, seed, script, k + 2) && Sound(Variant(w.messages, w.before), seed, script, k + 2) {
      WrongOrder(v, seed, script, k, first, second, ws);
    }
  }

  lemma WrongOrder(
    v: Variant, seed: seq<Message>, script: seq<ScriptStep>, k: nat, first: string, second: string, ws: seq<World>)
    requires k + 1 < |script| && script[k].mode.Buyer? && script[k + 1].mode.Buyer?
    requires IsReplay(v.messages, seed, script, k) && script[k].text != script[k + 1].text
    requires k !in v.before && k + 1 !in v.before
    requires IsRun(v, Job(k, script[k], first), Job(k + 1, script[k + 1], second), ws) && Ends(ws)
    requires BThenA(ws, |ws| - 1)
    ensures !IsReplay(ws[|ws| - 1].messages, seed, script, k + 2)
  {
    var a, b := Job(k, script[k], first), Job(k + 1, script[k + 1], second);
    var n, w := |ws| - 1, ws[|ws| - 1];
    Always(v, a, b, ws, n);
    HistoryIs(v, a, b, ws);
    assert w.messages == v.messages + Turn(b.step, b.answer) + Turn(a.step, a.answer);
    assert w.messages[|v.messages|] == User(script[k + 1].text);
    assert !TurnAt(w.messages, seed, script, k);
  }
}

// One queued translation job: the chunks, and what its result means
// (backend/app/translation_jobs.py:48-75).
module TranslationJob {
  import opened Common
  import opened Translation

  /** One chunk: its texts, what the agent did, and how the call ended. */
  datatype ChunkResult = ChunkResult(chunk: seq<string>, reply: Reply, outcome: Outcome)

  function Texts(results: seq<ChunkResult>): seq<string> {
    if results == [] then [] else Texts(results[..|results| - 1]) + results[|results| - 1].chunk
  }

  function FailedIn(r: ChunkResult): nat {
    match r.outcome
    case Done(count) => count.omitted
    case Raised => |r.chunk|
  }

  function FailedOf(results: seq<ChunkResult>): nat {
    if results == [] then 0 else FailedOf(results[..|results| - 1]) + FailedIn(results[|results| - 1])
  }

  /** A chunk that came through: the call returned and every text has an answer. */
  ghost predicate IsComplete(annotate: map<string, string>, r: ChunkResult) {
    && r.outcome.Done? && r.reply.Answered?
    && forall t | t in r.chunk :: t in annotate && annotate[t] in r.reply.answers
  }

  /** What is known of each chunk: it raises only if the agent or a write does. */
  ghost predicate IsResult(env: Env, annotate: map<string, string>, r: ChunkResult) {
    && 0 < |r.chunk| <= CHUNK_SIZE && Distinct(r.chunk)
    && (forall t | t in r.chunk :: t in annotate)
    && (r.outcome.Done? ==>
          r.reply.Answered? && r.outcome.count == CountOf(env, r.chunk, annotate, r.reply.answers))
    && (r.outcome.Raised? ==> r.reply.NoReply? || r.reply.failAt.Some?)
  }

  lemma FailedInIff(env: Env, annotate: map<string, string>, r: ChunkResult)
    requires IsResult(env, annotate, r)
    ensures FailedIn(r) == 0 <==> IsComplete(annotate, r)
  {
    if r.outcome.Done? {
      CountTheorem(env, r.chunk, annotate, r.reply.answers);
    }
  }

  /** What a chunk adds to the failures: all its texts if it raised, otherwise those without an answer. */
  lemma FailedInIs(env: Env, annotate: map<string, string>, results: seq<ChunkResult>, r: ChunkResult)
    requires IsResult(env, annotate, r)
    ensures FailedOf(results + [r])
         == FailedOf(results)
            + if r.outcome.Raised? then |r.chunk| else |Omits(r.chunk, annotate, r.reply.answers)|
  {
    assert (results + [r])[..|results|] == results;
    if r.outcome.Done? {
      CountsAre(env, r.chunk, annotate, r.reply.answers);
    }
  }

  lemma {:induction false} FailedOfIff(env: Env, annotate: map<string, string>, results: seq<ChunkResult>)
    requires forall i | 0 <= i < |results| :: IsResult(env, annotate, results[i])
    ensures FailedOf(results) == 0 <==> forall i | 0 <= i < |results| :: IsComplete(annotate, results[i])
  {
    if results != [] {
      var init := results[..|results| - 1];
      assert forall i | 0 <= i < |init| :: init[i] == results[i];
      FailedOfIff(env, annotate, init);
      FailedInIff(env, annotate, results[|results| - 1]);
    }
  }

  /** The row of `t` comes from an answer to its own tag in a chunk that held it. */
  ghost predicate IsAnswered(
    env: Env, annotate: map<string, string>, results: seq<ChunkResult>, t: string, row: Option<string>)
  {
    exists i | 0 <= i < |results| :: AnsweredIn(env, annotate, results[i], t, row)
  }

  ghost predicate AnsweredIn(env: Env, annotate: map<string, string>, r: ChunkResult, t: string, row: Option<string>) {
    && t in r.chunk && t in annotate && r.reply.Answered? && IsSaved(env, r.reply.answers, annotate[t])
    && row == Some(MeaningOf(env, r.reply.answers[annotate[t]]).translation)
  }

  ghost predicate OnlyOwnAnswers(
    env: Env, annotate: map<string, string>, results: seq<ChunkResult>,
    rows: map<string, string>, rows': map<string, string>)
  {
    forall t :: RowOf(rows', t) == RowOf(rows, t) || IsAnswered(env, annotate, results, t, RowOf(rows', t))
  }

  lemma OwnAnswersGrow(
    env: Env, annotate: map<string, string>, results: seq<ChunkResult>, r: ChunkResult, written: nat,
    rows: map<string, string>, rows': map<string, string>, rows'': map<string, string>)
    requires OnlyOwnAnswers(env, annotate, results, rows, rows') && IsResult(env, annotate, r)
    requires CallEffect(env, r.chunk, annotate, r.reply, r.outcome, written, rows', rows'')
    ensures OnlyOwnAnswers(env, annotate, results + [r], rows, rows'')
  {
    var more := results + [r];
    forall t
      ensures RowOf(rows'', t) == RowOf(rows, t) || IsAnswered(env, annotate, more, t, RowOf(rows'', t))
    {
      if RowOf(rows'', t) != RowOf(rows', t) {
        assert AnsweredIn(env, annotate, more[|results|], t, RowOf(rows'', t));
      } else if i :| 0 <= i < |results| && AnsweredIn(env, annotate, results[i], t, RowOf(rows', t)) {
        assert AnsweredIn(env, annotate, more[i], t, RowOf(rows'', t));
      }
    }
  }

  /** The chunks so far are the pending texts before `start`, with the failures counted. */
  ghost predicate Progressed(
    env: Env, annotate: map<string, string>, pending: seq<string>, start: nat, results: seq<ChunkResult>, failed: nat)
  {
    && start <= |pending| && Texts(results) == pending[..start]
    && (forall i | 0 <= i < |results| :: IsResult(env, annotate, results[i]))
    && failed == FailedOf(results)
    && (forall i | 0 <= i < |results| :: |results[i].chunk| == CHUNK_SIZE || (i == |results| - 1 && start == |pending|))
  }

  lemma ProgressNext(
    env: Env, annotate: map<string, string>, pending: seq<string>, start: nat, results: seq<ChunkResult>, failed: nat,
    r: ChunkResult)
    requires Progressed(env, annotate, pending, start, results, failed) && IsResult(env, annotate, r)
    requires start < |pending| && start + |r.chunk| <= |pending| && r.chunk == pending[start..start + |r.chunk|]
    requires |r.chunk| == CHUNK_SIZE || start + |r.chunk| == |pending|
    ensures Progressed(env, annotate, pending, start + |r.chunk|, results + [r], failed + FailedIn(r))
  {
    assert (results + [r])[..|results|] == results;
    assert pending[..start] + r.chunk == pending[..start + |r.chunk|];
  }

  lemma ChunkOf(pending: seq<string>, start: nat, end: nat)
    requires start <= end <= |pending| && Distinct(pending)
    ensures Distinct(pending[start..end]) && forall t | t in pending[start..end] :: t in pending
  {
  }

  /** The texts still to come are those that are to be translated. */
  predicate AreToDo(texts: seq<string>, force: bool, rows: map<string, string>) {
    forall t | t in texts :: force || t !in rows
  }

  lemma ToDoNow(pending: seq<string>, start: nat, end: nat, force: bool, rows: map<string, string>)
    requires start <= end <= |pending| && AreToDo(pending[start..], force, rows)
    ensures AreToDo(pending[start..end], force, rows)
  {
    forall t | t in pending[start..end]
      ensures t in pending[start..]
    {
      var i :| start <= i < end && pending[i] == t;
      assert pending[start..][i - start] == t;
    }
  }

  /** A chunk's rows are not those of later texts. */
  lemma ToDoStays(
    pending: seq<string>, start: nat, end: nat, force: bool, rows: map<string, string>, rows': map<string, string>)
    requires Distinct(pending) && start <= end <= |pending| && AreToDo(pending[start..], force, rows)
    requires forall t | t !in pending[start..end] :: RowOf(rows', t) == RowOf(rows, t)
    ensures AreToDo(pending[end..], force, rows')
  {
    forall t | t in pending[end..]
      ensures force || t !in rows'
    {
      var i :| end <= i < |pending| && pending[i] == t;
      assert pending[start..][i - start] == t;
      assert t !in pending[start..end];
      assert RowOf(rows', t) == RowOf(rows, t);
    }
  }

  ghost predicate HaveReplies(results: seq<ChunkResult>, replies: nat -> Reply) {
    forall i: nat | i < |results| :: results[i].reply == replies(i)
  }

  lemma RepliesNext(results: seq<ChunkResult>, r: ChunkResult, replies: nat -> Reply)
    requires HaveReplies(results, replies) && r.reply == replies(|results|)
    ensures HaveReplies(results + [r], replies)
  {
  }

  lemma {:induction false} AllToDo(texts: seq<string>, force: bool, rows: map<string, string>)
    requires AreToDo(texts, force, rows)
    ensures Uncached(texts, force, rows) == texts
  {
    if texts != [] {
      var init, last := texts[..|texts| - 1], texts[|texts| - 1];
      assert texts == init + [last];
      AllToDo(init, force, rows);
    }
  }

  /** `_run` of a job on cleaned texts, `replies` being what the agent does: the chunks are the pending texts in
      order, fifty at a time; the job succeeds exactly when every chunk came through; and no row holds an answer
      to another text's tag. */
  method RunJob(cache: TranslationCache, env: Env, ordered: seq<string>, force: bool, replies: nat -> Reply)
    returns (success: bool, failed: nat, ghost annotate: map<string, string>, ghost results: seq<ChunkResult>)
    requires IsClean(env, ordered) && HashIsRich(env.hash, |ordered|)
    modifies cache
    ensures Injective(annotate) && Texts(results) == Uncached(ordered, force, old(cache.rows))
    ensures forall i | 0 <= i < |results| :: IsResult(env, annotate, results[i])
    ensures HaveReplies(results, replies)
    ensures forall i | 0 <= i < |results| - 1 :: |results[i].chunk| == 50
    ensures failed == FailedOf(results) && (success <==> failed == 0)
    ensures success <==> forall i | 0 <= i < |results| :: IsComplete(annotate, results[i])
    ensures OnlyOwnAnswers(env, annotate, results, old(cache.rows), cache.rows)
  {
    var pending := Uncached(ordered, force, cache.rows);
    var tags := Assign(env, ordered, force, cache.rows, pending);
    annotate, results, failed := tags, [], 0;
    ghost var rows := cache.rows;
    var start: nat, k: nat := 0, 0;
    assert pending[0..] == pending;
    while start < |pending|
      invariant InLoop(env, tags, pending, force, start, results, failed, replies, rows, cache.rows) && |results| == k
      decreases |pending| - start
    {
      ghost var r;
      start, failed, r := NextChunk(cache, env, pending, force, tags, start, failed, replies, k, results, rows);
      results, k := results + [r], k + 1;
    }
    success := failed == 0;
    FailedOfIff(env, annotate, results);
    assert pending[..start] == pending;
  }

  /** What holds before each chunk. */
  ghost predicate InLoop(
    env: Env, tags: map<string, string>, pending: seq<string>, force: bool, start: nat, results: seq<ChunkResult>,
    failed: nat, replies: nat -> Reply, rows: map<string, string>, rows': map<string, string>)
  {
    && Progressed(env, tags, pending, start, results, failed) && HaveReplies(results, replies)
    && OnlyOwnAnswers(env, tags, results, rows, rows') && AreToDo(pending[start..], force, rows')
  }

  method NextChunk(
    cache: TranslationCache, env: Env, pending: seq<string>, force: bool, tags: map<string, string>, start: nat,
    failed: nat, replies: nat -> Reply, k: nat, ghost results: seq<ChunkResult>, ghost rows: map<string, string>)
    returns (end: nat, failed': nat, ghost r: ChunkResult)
    requires start < |pending| && |results| == k && IsClean(env, pending)
    requires Injective(tags) && tags.Keys == Elements(pending) && HashIsRich(env.hash, |pending|)
    requires InLoop(env, tags, pending, force, start, results, failed, replies, rows, cache.rows)
    modifies cache
    ensures start < end <= |pending|
    ensures InLoop(env, tags, pending, force, end, results + [r], failed', replies, rows, cache.rows)
  {
    end := Min(start + CHUNK_SIZE, |pending|);
    var chunk := pending[start..end];
    ChunkOf(pending, start, end);
    ghost var before := cache.rows;
    ToDoNow(pending, start, end, force, before);
    var outcome;
    outcome, r := RunChunk(cache, env, pending, chunk, force, tags, replies(k), results, rows);
    ToDoStays(pending, start, end, force, before, cache.rows);
    ProgressNext(env, tags, pending, start, results, failed, r);
    RepliesNext(results, r, replies);
    match outcome {
      case Done(count) => failed' := failed + count.omitted;
      case Raised => failed' := failed + |chunk|;
    }
  }

  method Assign(env: Env, ordered: seq<string>, force: bool, rows: map<string, string>, pending: seq<string>)
    returns (tags: map<string, string>)
    requires pending == Uncached(ordered, force, rows)
    requires IsClean(env, ordered) && HashIsRich(env.hash, |ordered|)
    ensures Injective(tags) && tags.Keys == Elements(pending)
    ensures IsClean(env, pending) && HashIsRich(env.hash, |pending|)
  {
    UncachedKeepsClean(env, ordered, force, rows);
    DistinctSize(pending);
    RichEnough(env.hash, |pending|, |ordered|);
    var none: map<string, string> := map[];
    assert none.Keys + Elements(pending) == Elements(pending);
    tags := TopUp(env.hash, none, pending);
  }

  /** One chunk: all its texts are asked for, and only their rows change. */
  method RunChunk(
    cache: TranslationCache, env: Env, pending: seq<string>, chunk: seq<string>, force: bool, tags: map<string, string>,
    reply: Reply, ghost results: seq<ChunkResult>, ghost rows: map<string, string>)
    returns (outcome: Outcome, ghost r: ChunkResult)
    requires IsClean(env, pending) && forall t | t in chunk :: t in pending
    requires Distinct(chunk) && 0 < |chunk| <= CHUNK_SIZE && AreToDo(chunk, force, cache.rows)
    requires Injective(tags) && tags.Keys == Elements(pending) && HashIsRich(env.hash, |pending|)
    requires OnlyOwnAnswers(env, tags, results, rows, cache.rows)
    modifies cache
    ensures r == ChunkResult(chunk, reply, outcome) && IsResult(env, tags, r)
    ensures OnlyOwnAnswers(env, tags, results + [r], rows, cache.rows)
    ensures forall t | t !in chunk :: RowOf(cache.rows, t) == RowOf(old(cache.rows), t)
  {
    CleanTheorem(env, chunk);
    AllToDo(chunk, force, cache.rows);
    DistinctSize(pending);
    assert tags.Keys + Elements(Clean(env, chunk)) == Elements(pending);
    ghost var mapping, written, before := tags, 0, cache.rows;
    outcome, mapping, written := cache.Translate(env, chunk, force, tags, reply);
    r := ChunkResult(chunk, reply, outcome);
    SameTags(env, chunk, mapping, tags, reply, outcome, written, before, cache.rows);
    OwnAnswersGrow(env, tags, results, r, written, rows, before, cache.rows);
    OthersKeepRows(env, chunk, tags, reply, outcome, written, before, cache.rows);
  }

  lemma OthersKeepRows(
    env: Env, targets: seq<string>, tags: map<string, string>, reply: Reply, outcome: Outcome, written: nat,
    rows: map<string, string>, rows': map<string, string>)
    requires CallEffect(env, targets, tags, reply, outcome, written, rows, rows')
    ensures forall t | t !in targets :: RowOf(rows', t) == RowOf(rows, t)
  {
    if reply.Answered? {
      assert forall t | t in targets[..written] :: t in targets;
    }
  }

  /** The tags of a chunk are those the job assigned. */
  lemma SameTags(
    env: Env, targets: seq<string>, mapping: map<string, string>, tags: map<string, string>, reply: Reply,
    outcome: Outcome,
    written: nat, rows: map<string, string>, rows': map<string, string>)
    requires CallEffect(env, targets, mapping, reply, outcome, written, rows, rows')
    requires forall t | t in tags :: t in mapping && mapping[t] == tags[t]
    requires forall t | t in targets :: t in tags
    ensures CallEffect(env, targets, tags, reply, outcome, written, rows, rows')
  {
    if reply.Answered? {
      SameCounts(env, targets, mapping, tags, reply.answers);
    }
  }

  lemma {:induction false} SameCounts(
    env: Env, targets: seq<string>, mapping: map<string, string>, tags: map<string, string>, answers: Answers)
    requires forall t | t in targets :: t in mapping && t in tags && mapping[t] == tags[t]
    ensures CountOf(env, targets, mapping, answers) == CountOf(env, targets, tags, answers)
  {
    if targets != [] {
      SameCounts(env, targets[..|targets| - 1], mapping, tags, answers);
    }
  }
}

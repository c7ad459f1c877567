// The byte budget of the diagnostic bundle: how much each selected log file may read and export
// (backend/app/diagnostics.py:692-728).
module BundleBudget {
  import opened Common
  import opened Framing
  import opened ReadRecent
  import opened RecentRecords

  const MAX_FILES := 24
  const MAX_FILE_BYTES := 4 * 1024 * 1024
  const MAX_TOTAL_BYTES := 32 * 1024 * 1024
  const LOG_BYTES := MAX_TOTAL_BYTES - 64 * 1024

  /** What became of one file: the deadline had passed, the read raised, or it was read. How much a
      failed read consumed is not known to the loop. */
  datatype Outcome = OmittedDeadline | Unavailable(consumed: nat) | Included(readBytes: nat, exported: nat)

  /** What the reader promises: neither more read nor more exported than allowed. */
  predicate Honours(o: Outcome, budget: nat) {
    && (o.Unavailable? ==> o.consumed <= budget)
    && (o.Included? ==> o.readBytes <= budget && o.exported <= budget)
  }

  function Spent(o: Outcome, budget: nat): nat {
    match o
    case OmittedDeadline => 0
    case Unavailable(_) => budget
    case Included(readBytes, exported) => Max(readBytes, exported)
  }

  function ExportedBytes(outcomes: seq<Outcome>): nat {
    if outcomes == [] then 0
    else ExportedBytes(outcomes[..|outcomes| - 1])
         + if outcomes[|outcomes| - 1].Included? then outcomes[|outcomes| - 1].exported else 0
  }

  /** What all reads consumed, the failed ones included. */
  function ReadBytes(outcomes: seq<Outcome>): nat {
    if outcomes == [] then 0
    else ReadBytes(outcomes[..|outcomes| - 1]) + Consumed(outcomes[|outcomes| - 1])
  }

  function Consumed(o: Outcome): nat {
    match o
    case OmittedDeadline => 0
    case Unavailable(consumed) => consumed
    case Included(readBytes, _) => readBytes
  }

  lemma DivisionKeeps(q: nat, d: nat, n: nat)
    requires d > 0 && n >= q * d
    ensures n / d >= q
  {
    if n / d < q {
      assert n == (n / d) * d + n % d;
      MultiplyKeeps(n / d + 1, q, d);
    }
  }

  lemma MultiplyKeeps(a: nat, b: nat, d: nat)
    requires a <= b
    ensures a * d <= b * d
  {
  }

  /** Spending at most an equal share leaves the others theirs. */
  lemma ShareIsLeft(remaining: nat, left: nat, spent: nat)
    requires left > 0 && spent <= remaining / left
    ensures spent <= remaining && (remaining / left) * (left - 1) <= remaining - spent
  {
    DivisionRounds(remaining, left);
    OneLess(remaining / left, left);
  }

  lemma DivisionRounds(n: nat, d: nat)
    requires d > 0
    ensures n / d * d <= n
  {
  }

  lemma OneLess(a: nat, d: nat)
    requires d > 0
    ensures a * (d - 1) == a * d - a && a <= a * d
  {
  }

  // ----- one file -----

  /** A selected file: whether it can be opened and read to its end without an error, what it holds when it is
      read, its size when it was selected, and how its lines are decoded and sanitised. */
  datatype LogFile = LogFile(
    opens: bool, completes: bool, content: Bytes, size: nat, kind: Kind, decode: (Encoding, Bytes) -> Option<string>,
    metadata: string -> Option<Safe>)

  /** What the reading of a file that can be opened comes to: its tail, and the records of that. */
  ghost predicate IsRead(file: LogFile, budget: nat, t: Tail, r: Report, n: nat, late: bool, dry: bool) {
    && (if IsNothing(r, t) then late
        else IsTail(file.content, Min(file.size, |file.content|), budget, t, late, dry))
    && RecordsAccounted(ContextOf(file.kind, t, file.decode, file.metadata),
                        Frames(t.raw, t.encoding, file.kind.Result?), First(t, file.kind), budget, r, n, late)
    && BytesAccounted(t, file.kind, Frames(t.raw, t.encoding, file.kind.Result?), r, n, late)
  }

  /** What becomes of a file: it is unavailable only if it raises; what is included is what was read and exported;
      and it is left out unread only once the deadline has passed. */
  ghost predicate IsOutcome(file: LogFile, budget: nat, o: Outcome, late: bool) {
    match o
    case OmittedDeadline => late
    case Unavailable(_) => !file.opens || !file.completes
    case Included(readBytes, exported) =>
      if file.opens then file.completes && ReadGives(file, budget, readBytes, exported, late)
      else late && readBytes == exported == 0
  }

  ghost predicate ReadGives(file: LogFile, budget: nat, readBytes: nat, exported: nat, late: bool) {
    exists t, r, n, dry ::
      IsRead(file, budget, t, r, n, late, dry) && readBytes == t.readBytes && exported == |r.output|
  }

  ghost predicate Becomes(file: LogFile, budget: nat, o: Outcome) {
    exists late :: IsOutcome(file, budget, o, late)
  }

  /** The attempt to read one file; the deadline is looked at before it is opened. */
  method Attempt(file: LogFile, budget: nat, late: bool) returns (o: Outcome, late': bool)
    ensures Honours(o, budget) && !o.OmittedDeadline? && (late ==> late')
    ensures IsOutcome(file, budget, o, late')
  {
    if !file.opens {
      late' := Expired(late);
      return if late' then Included(0, 0) else Unavailable(0), late';
    }
    var stream := new Stream(file.content);
    var r, t;
    ghost var n;
    r, t, n, late' :=
      Collect(stream, Min(file.size, |file.content|), file.kind, file.decode, file.metadata, budget, late);
    assert IsRead(file, budget, t, r, n, late', stream.dry);
    o := if file.completes then Included(t.readBytes, |r.output|) else Unavailable(t.readBytes);
  }

  // ----- the loop -----

  function Offer(remaining: nat, left: nat): nat
    requires left > 0
  {
    Min(MAX_FILE_BYTES, remaining / left)
  }

  /** What is left after the first `i` files. */
  function LeftAfter(budgets: seq<nat>, outcomes: seq<Outcome>, i: nat): int
    requires i <= |budgets| == |outcomes|
  {
    if i == 0 then LOG_BYTES else LeftAfter(budgets, outcomes, i - 1) - Spent(outcomes[i - 1], budgets[i - 1])
  }

  lemma {:induction false} LeftAfterAppend(
    budgets: seq<nat>, outcomes: seq<Outcome>, budget: nat, outcome: Outcome, i: nat)
    requires i <= |budgets| == |outcomes|
    ensures LeftAfter(budgets + [budget], outcomes + [outcome], i) == LeftAfter(budgets, outcomes, i)
  {
    if i > 0 {
      LeftAfterAppend(budgets, outcomes, budget, outcome, i - 1);
    }
  }

  /** File `i` was offered its share of what the files before it left. */
  ghost predicate IsOffered(budgets: seq<nat>, outcomes: seq<Outcome>, n: nat, i: nat)
    requires i < |budgets| == |outcomes| && i < n
  {
    LeftAfter(budgets, outcomes, i) >= 0 && budgets[i] == Offer(LeftAfter(budgets, outcomes, i), n - i)
  }

  /** Every file so far, of `n` in all, was offered its share, and `remaining` is left. */
  ghost predicate AllOffered(budgets: seq<nat>, outcomes: seq<Outcome>, n: nat, remaining: int) {
    && |budgets| == |outcomes| <= n && remaining == LeftAfter(budgets, outcomes, |budgets|)
    && forall i: nat | i < |budgets| :: IsOffered(budgets, outcomes, n, i)
  }

  lemma OffersStay(budgets: seq<nat>, outcomes: seq<Outcome>, budget: nat, outcome: Outcome, n: nat, remaining: nat)
    requires AllOffered(budgets, outcomes, n, remaining) && |budgets| < n && budget == Offer(remaining, n - |budgets|)
    ensures AllOffered(budgets + [budget], outcomes + [outcome], n, remaining - Spent(outcome, budget))
  {
    LeftAfterAppend(budgets, outcomes, budget, outcome, |budgets|);
    forall i: nat | i <= |budgets|
      ensures IsOffered(budgets + [budget], outcomes + [outcome], n, i)
    {
      LeftAfterAppend(budgets, outcomes, budget, outcome, i);
      assert i < |budgets| ==> IsOffered(budgets, outcomes, n, i);
    }
  }

  /** Between one file and the next: what is left goes down by what the first one used, the larger of what was
      read and what was exported, or by its whole budget if its read raised; the next file is offered its
      share of the rest. */
  lemma NextOffer(budgets: seq<nat>, outcomes: seq<Outcome>, n: nat, remaining: int, i: nat) returns (left: nat)
    requires AllOffered(budgets, outcomes, n, remaining) && i + 1 < |budgets|
    ensures i == 0 ==> left == 32 * 1024 * 1024 - 64 * 1024
    ensures budgets[i] == Min(4 * 1024 * 1024, left / (n - i))
    ensures var used := match outcomes[i] {
              case OmittedDeadline => 0
              case Unavailable(_) => budgets[i]
              case Included(readBytes, exported) => if readBytes < exported then exported else readBytes };
            used <= left && budgets[i + 1] == Min(4 * 1024 * 1024, (left - used) / (n - i - 1))
  {
    assert IsOffered(budgets, outcomes, n, i) && IsOffered(budgets, outcomes, n, i + 1);
    left := LeftAfter(budgets, outcomes, i);
  }

  /** Every file before `j` was read, and used no more than `u` bytes. */
  predicate Frugal(outcomes: seq<Outcome>, j: nat, u: nat)
    requires j <= |outcomes|
  {
    forall k | 0 <= k < j :: outcomes[k].Included? && outcomes[k].readBytes <= u && outcomes[k].exported <= u
  }

  lemma {:induction false} FrugalLeaves(budgets: seq<nat>, outcomes: seq<Outcome>, j: nat, u: nat)
    requires |budgets| == |outcomes| && j <= |budgets| && Frugal(outcomes, j, u)
    ensures LeftAfter(budgets, outcomes, j) >= LOG_BYTES - j * u
  {
    if j > 0 {
      FrugalLeaves(budgets, outcomes, j - 1, u);
      assert outcomes[j - 1].Included?;
      assert j * u == (j - 1) * u + u;
    }
  }

  /** Files that use little leave the rest to the later ones. */
  lemma UnusedIsPassedOn(budgets: seq<nat>, outcomes: seq<Outcome>, n: nat, remaining: int, j: nat, u: nat)
    requires AllOffered(budgets, outcomes, n, remaining) && j < |budgets| && Frugal(outcomes, j, u)
    requires j * u <= LOG_BYTES
    ensures budgets[j] >= Min(4 * 1024 * 1024, (LOG_BYTES - j * u) / (n - j))
  {
    assert IsOffered(budgets, outcomes, n, j);
    FrugalLeaves(budgets, outcomes, j, u);
    var q := (LOG_BYTES - j * u) / (n - j);
    DivisionRounds(LOG_BYTES - j * u, n - j);
    DivisionKeeps(q, n - j, LeftAfter(budgets, outcomes, j));
  }

  /** Each of `left` files can have `share` bytes. */
  predicate Suffices(remaining: nat, left: nat, share: nat) {
    share * left <= remaining
  }

  /** One turn: what the file may use, what it does, and what is left. `share` is a number of bytes that
      every file still to come can have. */
  method NextFile(file: LogFile, remaining: nat, left: nat, late: bool, ghost share: nat)
    returns (budget: nat, outcome: Outcome, remaining': nat, late': bool, ghost share': nat)
    requires left > 0 && Suffices(remaining, left, share)
    ensures budget == Offer(remaining, left) && Honours(outcome, budget) && Becomes(file, budget, outcome)
    ensures remaining' + Spent(outcome, budget) == remaining
    ensures (late ==> late') && (late ==> outcome.OmittedDeadline?) && (outcome.OmittedDeadline? ==> late')
    ensures share <= share' && Suffices(remaining', left - 1, share')
    ensures Min(MAX_FILE_BYTES, share) <= budget <= Min(MAX_FILE_BYTES, share')
  {
    budget := Min(MAX_FILE_BYTES, remaining / left);
    late' := Expired(late);
    if late' {
      outcome := OmittedDeadline;
    } else {
      outcome, late' := Attempt(file, budget, late');
    }
    assert IsOutcome(file, budget, outcome, late');
    share' := remaining / left;
    DivisionKeeps(share, left, remaining);
    ShareIsLeft(remaining, left, Spent(outcome, budget));
    remaining' := remaining - Spent(outcome, budget);
  }

  /** What holds of the files handled so far; every later file can have `share`. */
  ghost predicate Shared(budgets: seq<nat>, outcomes: seq<Outcome>, least: nat, share: nat) {
    && |budgets| == |outcomes|
    && (forall i | 0 <= i < |budgets| :: Honours(outcomes[i], budgets[i]))
    && (forall i | 0 <= i < |budgets| :: Min(MAX_FILE_BYTES, least) <= budgets[i] <= Min(MAX_FILE_BYTES, share))
    && (forall i, j | 0 <= i <= j < |budgets| :: budgets[i] <= budgets[j])
  }

  lemma SharedNext(
    budgets: seq<nat>, outcomes: seq<Outcome>, least: nat, share: nat, budget: nat, outcome: Outcome, share': nat)
    requires Shared(budgets, outcomes, least, share) && least <= share <= share' && Honours(outcome, budget)
    requires Min(MAX_FILE_BYTES, share) <= budget <= Min(MAX_FILE_BYTES, share')
    ensures Shared(budgets + [budget], outcomes + [outcome], least, share')
  {
  }

  /** Once a file was left out because the deadline had passed, so are all after it. */
  ghost predicate LateStaysLate(outcomes: seq<Outcome>, expired: bool) {
    && (forall i | 0 <= i < |outcomes| && outcomes[i].OmittedDeadline? :: expired)
    && (forall i, j | 0 <= i <= j < |outcomes| && outcomes[i].OmittedDeadline? :: outcomes[j].OmittedDeadline?)
  }

  lemma LateNext(outcomes: seq<Outcome>, expired: bool, outcome: Outcome, expired': bool)
    requires LateStaysLate(outcomes, expired) && (expired ==> expired' && outcome.OmittedDeadline?)
    requires outcome.OmittedDeadline? ==> expired'
    ensures LateStaysLate(outcomes + [outcome], expired')
  {
  }

  lemma TotalsNext(outcomes: seq<Outcome>, outcome: Outcome)
    ensures ExportedBytes(outcomes + [outcome])
         == ExportedBytes(outcomes) + if outcome.Included? then outcome.exported else 0
    ensures ReadBytes(outcomes + [outcome]) == ReadBytes(outcomes) + Consumed(outcome)
  {
    assert (outcomes + [outcome])[..|outcomes|] == outcomes;
  }

  /** The state of the loop over `n` files. */
  ghost predicate Fair(
    budgets: seq<nat>, outcomes: seq<Outcome>, n: nat, remaining: nat, least: nat, share: nat, expired: bool)
  {
    && AllOffered(budgets, outcomes, n, remaining)
    && ExportedBytes(outcomes) + remaining <= LOG_BYTES && ReadBytes(outcomes) + remaining <= LOG_BYTES
    && least <= share && Suffices(remaining, n - |budgets|, share)
    && Shared(budgets, outcomes, least, share) && LateStaysLate(outcomes, expired)
  }

  lemma FairNext(
    budgets: seq<nat>, outcomes: seq<Outcome>, n: nat, remaining: nat, least: nat, share: nat, expired: bool,
    budget: nat, outcome: Outcome, remaining': nat, share': nat, expired': bool)
    requires Fair(budgets, outcomes, n, remaining, least, share, expired) && |budgets| < n
    requires budget == Offer(remaining, n - |budgets|) && Honours(outcome, budget)
    requires remaining' + Spent(outcome, budget) == remaining
    requires (expired ==> expired' && outcome.OmittedDeadline?) && (outcome.OmittedDeadline? ==> expired')
    requires share <= share' && Suffices(remaining', n - |budgets| - 1, share')
    requires Min(MAX_FILE_BYTES, share) <= budget <= Min(MAX_FILE_BYTES, share')
    ensures Fair(budgets + [budget], outcomes + [outcome], n, remaining', least, share', expired')
  {
    OffersStay(budgets, outcomes, budget, outcome, n, remaining);
    SharedNext(budgets, outcomes, least, share, budget, outcome, share');
    LateNext(outcomes, expired, outcome, expired');
    TotalsNext(outcomes, outcome);
  }

  /** Every file so far got what becomes of it under its budget. */
  ghost predicate AreOutcomes(files: seq<LogFile>, budgets: seq<nat>, outcomes: seq<Outcome>) {
    && |budgets| == |outcomes| <= |files|
    && forall i | 0 <= i < |outcomes| :: Becomes(files[i], budgets[i], outcomes[i])
  }

  lemma OutcomesNext(files: seq<LogFile>, budgets: seq<nat>, outcomes: seq<Outcome>, budget: nat, outcome: Outcome)
    requires AreOutcomes(files, budgets, outcomes) && |budgets| < |files|
    requires Becomes(files[|budgets|], budget, outcome)
    ensures AreOutcomes(files, budgets + [budget], outcomes + [outcome])
  {
  }

  /** The loop over the selected files. Each is offered its share of what is left, so whatever the
      files before it did, no less than an equal share of the whole, nor less than the file before it; all
      reads together and all exports together stay within the bundle; once the deadline has passed no
      file is read. */
  method Allocate(candidates: seq<LogFile>, late: bool)
    returns (budgets: seq<nat>, outcomes: seq<Outcome>, omitted: nat)
    ensures |budgets| == |outcomes| == Min(|candidates|, 22) && omitted == |candidates| - |budgets|
    ensures exists remaining :: AllOffered(budgets, outcomes, |budgets|, remaining)
    ensures budgets != [] ==> Shared(budgets, outcomes, LOG_BYTES / |budgets|, MAX_FILE_BYTES)
    ensures ExportedBytes(outcomes) <= LOG_BYTES && ReadBytes(outcomes) <= LOG_BYTES
    ensures LateStaysLate(outcomes, true)
    ensures AreOutcomes(candidates, budgets, outcomes)
  {
    var selected: nat := Min(|candidates|, MAX_FILES - 2);
    omitted := Max(0, |candidates| - (MAX_FILES - 2));
    budgets, outcomes := Offers(candidates[..selected], late);
    SelectedOutcomes(candidates, selected, budgets, outcomes);
  }

  lemma SelectedOutcomes(candidates: seq<LogFile>, selected: nat, budgets: seq<nat>, outcomes: seq<Outcome>)
    requires selected <= |candidates| && AreOutcomes(candidates[..selected], budgets, outcomes)
    ensures AreOutcomes(candidates, budgets, outcomes)
  {
    forall i | 0 <= i < |outcomes|
      ensures Becomes(candidates[i], budgets[i], outcomes[i])
    {
      assert candidates[..selected][i] == candidates[i];
    }
  }

  method Offers(files: seq<LogFile>, late: bool) returns (budgets: seq<nat>, outcomes: seq<Outcome>)
    ensures |budgets| == |outcomes| == |files|
    ensures exists remaining :: AllOffered(budgets, outcomes, |budgets|, remaining)
    ensures budgets != [] ==> Shared(budgets, outcomes, LOG_BYTES / |budgets|, MAX_FILE_BYTES)
    ensures ExportedBytes(outcomes) <= LOG_BYTES && ReadBytes(outcomes) <= LOG_BYTES
    ensures LateStaysLate(outcomes, true)
    ensures AreOutcomes(files, budgets, outcomes)
  {
    var remaining: nat, expired := LOG_BYTES, late;
    budgets, outcomes := [], [];
    ghost var least: nat := if files == [] then 0 else LOG_BYTES / |files|;
    ghost var share: nat := least;
    while |budgets| < |files|
      invariant |budgets| <= |files| && Fair(budgets, outcomes, |files|, remaining, least, share, expired)
      invariant AreOutcomes(files, budgets, outcomes)
      decreases |files| - |budgets|
    {
      var budget, outcome, remaining', expired';
      ghost var share';
      budget, outcome, remaining', expired', share' :=
        NextFile(files[|budgets|], remaining, |files| - |budgets|, expired, share);
      FairNext(budgets, outcomes, |files|, remaining, least, share, expired, budget, outcome,
               remaining', share', expired');
      OutcomesNext(files, budgets, outcomes, budget, outcome);
      budgets, outcomes := budgets + [budget], outcomes + [outcome];
      remaining, expired, share := remaining', expired', share';
    }
    assert AllOffered(budgets, outcomes, |budgets|, remaining);
  }
}

// What becomes of each record of a log tail: exported, omitted with a reason, or left unprocessed
// (backend/app/diagnostics.py:521-568).
module RecentRecords {
  import opened Common
  import opened ReadRecent
  import opened Framing

  datatype Reason =
    InvalidEncoding | Oversized | IncompleteLastRecord | IncompleteResult | Unrecognized | Duplicate

  datatype Origin = Origin(level: string, logger: string, name: string, line: int)

  /** The sanitised record, and for a legacy message the key that stands for its text. */
  datatype Safe = Safe(encoded: Bytes, origin: Option<Origin>)

  /** One read: decoding and sanitising are whatever the two functions say. */
  datatype Context = Context(
    kind: Kind, partial: bool, decode: Bytes -> Option<string>, metadata: string -> Option<Safe>)

  datatype Verdict = Omitted(reason: Reason) | Exported(safe: Safe)

  // ----- one record -----

  /** The record that would be exported if it were not a duplicate. */
  function Accepted(c: Context, slice: Bytes): Option<Safe> {
    if |slice| > MAX_LINE_BYTES || c.decode(slice).None? then None
    else if !c.kind.Result? && !EndsWithNewline(c.decode(slice).value) then None
    else if c.kind.Result? && c.partial then None
    else c.metadata(c.decode(slice).value)
  }

  predicate EndsWithNewline(s: string) {
    s != "" && s[|s| - 1] == '\n'
  }

  function OriginOf(c: Context, slice: Bytes): Option<Origin> {
    if c.kind.Application? && Accepted(c, slice).Some? then Accepted(c, slice).value.origin else None
  }

  function Judge(c: Context, tracked: set<Origin>, slice: Bytes): Verdict {
    if |slice| > MAX_LINE_BYTES then Omitted(Oversized)
    else if c.decode(slice).None? then Omitted(InvalidEncoding)
    else if !c.kind.Result? && !EndsWithNewline(c.decode(slice).value) then Omitted(IncompleteLastRecord)
    else if c.kind.Result? && c.partial then Omitted(IncompleteResult)
    else if Accepted(c, slice).None? then Omitted(Unrecognized)
    else if OriginOf(c, slice).Some? && OriginOf(c, slice).value in tracked then Omitted(Duplicate)
    else Exported(Accepted(c, slice).value)
  }

  // ----- all records -----

  /** The origins seen among the slices. */
  function Origins(c: Context, slices: seq<Bytes>): set<Origin> {
    set k | 0 <= k < |slices| && OriginOf(c, slices[k]).Some? :: OriginOf(c, slices[k]).value
  }

  /** The origins remembered after the slices: new ones are remembered while there is room. */
  function Tracked(c: Context, slices: seq<Bytes>): (t: set<Origin>)
    ensures t <= Origins(c, slices) && |t| <= MAX_LEGACY_ORIGINS
    ensures t == Origins(c, slices) || |t| == MAX_LEGACY_ORIGINS
  {
    if slices == [] then {}
    else
      var before, last := slices[..|slices| - 1], slices[|slices| - 1];
      var t := Tracked(c, before);
      OriginsGrow(c, before, last);
      assert slices == before + [last];
      if OriginOf(c, last).Some? && |t| < MAX_LEGACY_ORIGINS then t + {OriginOf(c, last).value} else t
  }

  lemma OriginsGrow(c: Context, slices: seq<Bytes>, slice: Bytes)
    ensures Origins(c, slices + [slice])
         == Origins(c, slices) + if OriginOf(c, slice).Some? then {OriginOf(c, slice).value} else {}
  {
    var more := slices + [slice];
    assert forall k | 0 <= k < |slices| :: more[k] == slices[k];
    assert more[|slices|] == slice;
    forall o | o in Origins(c, slices)
      ensures o in Origins(c, more)
    {
      var k :| 0 <= k < |slices| && OriginOf(c, slices[k]).Some? && OriginOf(c, slices[k]).value == o;
      assert more[k] == slices[k];
    }
  }

  function Verdicts(c: Context, slices: seq<Bytes>): (v: seq<Verdict>)
    ensures |v| == |slices|
  {
    seq(|slices|, i requires 0 <= i < |slices| => Judge(c, Tracked(c, slices[..i]), slices[i]))
  }

  lemma VerdictsGrow(c: Context, slices: seq<Bytes>, slice: Bytes)
    ensures Verdicts(c, slices + [slice]) == Verdicts(c, slices) + [Judge(c, Tracked(c, slices), slice)]
  {
    var more := slices + [slice];
    forall i | 0 <= i <= |slices|
      ensures more[..i] == slices[..i]
    {
    }
    assert slices[..|slices|] == slices;
  }

  /** The exported lines, in order, each followed by a newline. */
  function Output(v: seq<Verdict>): Bytes {
    if v == [] then []
    else Output(v[..|v| - 1]) + if v[|v| - 1].Exported? then v[|v| - 1].safe.encoded + [10] else []
  }

  function Reasons(v: seq<Verdict>): (m: multiset<Reason>)
    ensures |m| <= |v|
  {
    if v == [] then multiset{}
    else Reasons(v[..|v| - 1]) + if v[|v| - 1].Omitted? then multiset{v[|v| - 1].reason} else multiset{}
  }

  function ExportCount(v: seq<Verdict>): nat {
    if v == [] then 0 else ExportCount(v[..|v| - 1]) + if v[|v| - 1].Exported? then 1 else 0
  }

  lemma {:induction false} EveryRecordIsCounted(v: seq<Verdict>)
    ensures ExportCount(v) + |Reasons(v)| == |v|
  {
    if v != [] {
      EveryRecordIsCounted(v[..|v| - 1]);
    }
  }

  /** A legacy message is omitted as a duplicate exactly when one of the same origin was seen before,
      as long as no more than 256 origins were. */
  lemma DuplicateTheorem(c: Context, slices: seq<Bytes>, i: nat)
    requires i < |slices| && OriginOf(c, slices[i]).Some?
    requires |Origins(c, slices[..i])| < MAX_LEGACY_ORIGINS
    ensures Verdicts(c, slices)[i] == Omitted(Duplicate)
       <==> exists k | 0 <= k < i :: OriginOf(c, slices[k]) == OriginOf(c, slices[i])
  {
    var before := slices[..i];
    var o := OriginOf(c, slices[i]).value;
    SubsetSize(Tracked(c, before), Origins(c, before));
    assert Tracked(c, before) == Origins(c, before);
    if o in Origins(c, before) {
      var k :| 0 <= k < |before| && OriginOf(c, before[k]).Some? && OriginOf(c, before[k]).value == o;
      assert slices[k] == before[k];
    }
    if k :| 0 <= k < i && OriginOf(c, slices[k]) == OriginOf(c, slices[i]) {
      assert before[k] == slices[k];
    }
  }

  // ----- what is reported -----

  datatype Report = Report(
    output: Bytes, omitted: nat, reasons: multiset<Reason>, discarded: nat, unprocessed: nat,
    truncated: bool, deadline: bool)

  /** The first slice is dropped: the read began inside a record. */
  predicate Drops(t: Tail, kind: Kind) {
    t.start > 0 && !kind.Result? && t.raw != []
  }

  ghost predicate IsAccount(
    c: Context, slices: seq<Bytes>, output: Bytes, reasons: multiset<Reason>, tracked: set<Origin>)
  {
    && output == Output(Verdicts(c, slices)) && reasons == Reasons(Verdicts(c, slices))
    && tracked == Tracked(c, slices)
  }

  lemma TrackedGrows(c: Context, slices: seq<Bytes>, slice: Bytes)
    ensures Tracked(c, slices + [slice])
         == if OriginOf(c, slice).Some? && |Tracked(c, slices)| < MAX_LEGACY_ORIGINS
            then Tracked(c, slices) + {OriginOf(c, slice).value} else Tracked(c, slices)
  {
    assert (slices + [slice])[..|slices|] == slices;
  }

  lemma OutputGrows(vs: seq<Verdict>, v: Verdict)
    ensures Output(vs + [v]) == Output(vs) + if v.Exported? then v.safe.encoded + [10] else []
    ensures Reasons(vs + [v]) == Reasons(vs) + if v.Omitted? then multiset{v.reason} else multiset{}
  {
    assert (vs + [v])[..|vs|] == vs;
  }

  lemma AccountGrows(
    c: Context, slices: seq<Bytes>, slice: Bytes, output: Bytes, reasons: multiset<Reason>, tracked: set<Origin>)
    requires IsAccount(c, slices, output, reasons, tracked)
    ensures var v := Judge(c, tracked, slice);
            var t := if OriginOf(c, slice).Some? && |tracked| < MAX_LEGACY_ORIGINS
                     then tracked + {OriginOf(c, slice).value} else tracked;
            var o := if v.Exported? then output + (v.safe.encoded + [10]) else output;
            var r := if v.Omitted? then reasons + multiset{v.reason} else reasons;
            IsAccount(c, slices + [slice], o, r, t)
  {
    VerdictsGrow(c, slices, slice);
    TrackedGrows(c, slices, slice);
    OutputGrows(Verdicts(c, slices), Judge(c, tracked, slice));
  }

  // ----- where the loop is -----

  /** How many bytes the slices hold. */
  function Total(fs: seq<Bytes>): nat {
    if fs == [] then 0 else Total(fs[..|fs| - 1]) + |fs[|fs| - 1]|
  }

  /** How many bytes the first `k` slices hold. */
  function StartAt(fs: seq<Bytes>, k: nat): nat
    requires k <= |fs|
  {
    if k == 0 then 0 else StartAt(fs, k - 1) + |fs[k - 1]|
  }

  lemma {:induction false} TotalBetween(fs: seq<Bytes>, j: nat, k: nat)
    requires j <= k <= |fs|
    ensures StartAt(fs, k) == StartAt(fs, j) + Total(fs[j..k])
  {
    if j == k {
      assert fs[j..k] == [];
    } else {
      TotalBetween(fs, j, k - 1);
      assert fs[j..k][..k - 1 - j] == fs[j..k - 1];
    }
  }

  /** The next search starts on a code unit boundary, or there is none. */
  predicate Placed(raw: Bytes, e: Encoding, whole: bool, offset: nat) {
    whole || e.Utf8? || offset % 2 == 0 || offset == |raw|
  }

  lemma CutIsEven(s: Bytes, e: Encoding)
    requires s != [] && !e.Utf8?
    ensures Cut(s, e, false) % 2 == 0 || Cut(s, e, false) == |s|
  {
    EndIsFirst(s, e, 0);
  }

  lemma StaysPlaced(raw: Bytes, e: Encoding, whole: bool, offset: nat)
    requires offset < |raw| && Placed(raw, e, whole, offset)
    ensures Placed(raw, e, whole, offset + Cut(raw[offset..], e, whole))
  {
    if !whole && !e.Utf8? {
      CutIsEven(raw[offset..], e);
    }
  }

  lemma SplitSuffix(raw: Bytes, offset: nat, n: nat)
    requires offset + n <= |raw|
    ensures raw[offset..][..n] == raw[offset..offset + n] && raw[offset..][n..] == raw[offset + n..]
  {
  }

  lemma FramesStep(raw: Bytes, e: Encoding, whole: bool, offset: nat)
    requires offset < |raw|
    ensures var n := Cut(raw[offset..], e, whole);
            Frames(raw[offset..], e, whole) == [raw[offset..offset + n]] + Frames(raw[offset + n..], e, whole)
  {
    SplitSuffix(raw, offset, Cut(raw[offset..], e, whole));
  }

  lemma SplitTail(fs: seq<Bytes>, k: nat, f: Bytes, rest: seq<Bytes>)
    requires k <= |fs| && fs[k..] == [f] + rest
    ensures k < |fs| && fs[k] == f && fs[k + 1..] == rest
  {
    assert fs[k..][0] == f && fs[k..][1..] == rest;
  }

  /** Record `k` lies where the records before it end, and is what the search from there finds. */
  ghost predicate IsFrame(raw: Bytes, e: Encoding, whole: bool, fs: seq<Bytes>, k: nat)
    requires k < |fs|
  {
    var offset, end := StartAt(fs, k), StartAt(fs, k + 1);
    && offset < |raw| && Placed(raw, e, whole, offset)
    && offset + Cut(raw[offset..], e, whole) == end <= |raw|
    && fs[k] == raw[offset..end]
  }

  /** The records cover the buffer from its start to its end. */
  ghost predicate Covers(raw: Bytes, e: Encoding, whole: bool, fs: seq<Bytes>) {
    StartAt(fs, |fs|) == |raw| && forall k: nat | k < |fs| :: IsFrame(raw, e, whole, fs, k)
  }

  /** The records from number `k` on are those of the bytes that follow the first `k`. */
  ghost predicate Follows(raw: Bytes, e: Encoding, whole: bool, fs: seq<Bytes>, k: nat) {
    && k <= |fs| && StartAt(fs, k) <= |raw| && Placed(raw, e, whole, StartAt(fs, k))
    && fs[k..] == Frames(raw[StartAt(fs, k)..], e, whole)
  }

  lemma FollowsAtEnd(raw: Bytes, e: Encoding, whole: bool, fs: seq<Bytes>, k: nat)
    requires Follows(raw, e, whole, fs, k) && StartAt(fs, k) == |raw|
    ensures k == |fs|
  {
    assert |fs[k..]| == 0;
  }

  lemma FollowsNext(raw: Bytes, e: Encoding, whole: bool, fs: seq<Bytes>, k: nat)
    requires Follows(raw, e, whole, fs, k) && StartAt(fs, k) < |raw|
    ensures k < |fs| && IsFrame(raw, e, whole, fs, k) && Follows(raw, e, whole, fs, k + 1)
  {
    var offset := StartAt(fs, k);
    var n := Cut(raw[offset..], e, whole);
    var here, rest := raw[offset..offset + n], Frames(raw[offset + n..], e, whole);
    assert fs[k..] == [here] + rest by {
      FramesStep(raw, e, whole, offset);
    }
    SplitTail(fs, k, here, rest);
    StaysPlaced(raw, e, whole, offset);
  }

  lemma {:induction false} FramesCoverFrom(raw: Bytes, e: Encoding, whole: bool, fs: seq<Bytes>, k: nat)
    requires Follows(raw, e, whole, fs, k)
    ensures StartAt(fs, |fs|) == |raw| && forall j: nat | k <= j < |fs| :: IsFrame(raw, e, whole, fs, j)
    decreases |fs| - k
  {
    if StartAt(fs, k) == |raw| {
      FollowsAtEnd(raw, e, whole, fs, k);
    } else {
      FollowsNext(raw, e, whole, fs, k);
      FramesCoverFrom(raw, e, whole, fs, k + 1);
    }
  }

  lemma FramesCover(raw: Bytes, e: Encoding, whole: bool)
    ensures Covers(raw, e, whole, Frames(raw, e, whole))
  {
    assert raw[0..] == raw && Frames(raw, e, whole)[0..] == Frames(raw, e, whole);
    FramesCoverFrom(raw, e, whole, Frames(raw, e, whole), 0);
  }

  /** The buffer is used up exactly when its records are. */
  lemma AllFrames(raw: Bytes, e: Encoding, whole: bool, fs: seq<Bytes>, k: nat)
    requires Covers(raw, e, whole, fs) && k <= |fs|
    ensures StartAt(fs, k) <= |raw|
    ensures StartAt(fs, k) == |raw| <==> k == |fs|
  {
    if k < |fs| {
      assert IsFrame(raw, e, whole, fs, k);
    }
  }

  /** The position of the loop: before the dropped slice, after the first `first + n` records, or, the
      deadline having passed while the end of the dropped slice was searched for, anywhere. */
  ghost predicate OnTrack(fs: seq<Bytes>, first: nat, n: nat, size: nat, discarded: nat, offset: nat, late: bool) {
    && first <= 1 && first + n <= |fs|
    && (first == 1 && offset == 0 ==> n == 0 && discarded == 0)
    && (first == 0 || offset > 0 ==>
          || (offset == StartAt(fs, first + n) && discarded == StartAt(fs, first))
          || (first == 1 && late && n == 0 && discarded == offset < size))
  }

  lemma TrackStart(raw: Bytes, e: Encoding, whole: bool, fs: seq<Bytes>, first: nat, late: bool)
    requires Covers(raw, e, whole, fs) && first <= 1 && (first == 1 ==> raw != [])
    ensures OnTrack(fs, first, 0, |raw|, 0, 0, late)
  {
  }

  lemma TrackDrop(raw: Bytes, e: Encoding, fs: seq<Bytes>, end: nat, late: bool)
    requires Covers(raw, e, false, fs)
    requires 0 < end <= |raw| && (!late || end == |raw| ==> end == Cut(raw, e, false))
    ensures OnTrack(fs, 1, 0, |raw|, end, end, late)
  {
    assert IsFrame(raw, e, false, fs, 0);
    assert raw[0..] == raw;
  }

  lemma TrackNext(
    raw: Bytes, e: Encoding, whole: bool, fs: seq<Bytes>, first: nat, n: nat, discarded: nat, offset: nat, end: nat)
    requires Covers(raw, e, whole, fs) && OnTrack(fs, first, n, |raw|, discarded, offset, false)
    requires offset < end <= |raw| && !(first == 1 && offset == 0)
    requires Placed(raw, e, whole, offset) ==> end == offset + Cut(raw[offset..], e, whole)
    ensures OnTrack(fs, first, n + 1, |raw|, discarded, end, false)
    ensures fs[first + n] == raw[offset..end]
  {
    AllFrames(raw, e, whole, fs, first + n);
    assert IsFrame(raw, e, whole, fs, first + n);
  }

  // ----- the two halves of the result -----

  function First(t: Tail, kind: Kind): nat {
    if Drops(t, kind) then 1 else 0
  }

  /** The `n` records that were looked at. */
  function Examined(fs: seq<Bytes>, first: nat, n: nat): seq<Bytes> {
    if first + n <= |fs| then fs[first..first + n] else []
  }

  /** The examined slices are consecutive records, only a leading one is skipped, and every byte is
      discarded, examined or unprocessed. */
  ghost predicate BytesAccounted(t: Tail, kind: Kind, fs: seq<Bytes>, r: Report, n: nat, late: bool) {
    && First(t, kind) + n <= |fs|
    && (!Drops(t, kind) ==> r.discarded == 0)
    && (Drops(t, kind) && (!late || n > 0) ==> r.discarded == |fs[0]|)
    && r.discarded + Total(Examined(fs, First(t, kind), n)) + r.unprocessed == |t.raw|
    && (!r.deadline && !r.truncated ==> First(t, kind) + n == |fs| && r.unprocessed == 0)
  }

  /** Every examined record is exported or counted under one reason, within the budget, and the loop
      stops early only for a reason it reports. */
  ghost predicate RecordsAccounted(c: Context, fs: seq<Bytes>, first: nat, budget: nat, r: Report, n: nat, late: bool) {
    var examined := Examined(fs, first, n);
    && r.output == Output(Verdicts(c, examined)) && |r.output| <= budget
    && r.reasons == Reasons(Verdicts(c, examined)) && r.omitted == |r.reasons|
    && (r.deadline ==> late)
    && (r.truncated ==> first + n < |fs| && Overflows(c, examined, fs[first + n], |r.output|, budget))
  }

  predicate Overflows(c: Context, examined: seq<Bytes>, slice: Bytes, used: nat, budget: nat) {
    var v := Judge(c, Tracked(c, examined), slice);
    v.Exported? && used + |v.safe.encoded| + 1 > budget
  }

  lemma BytesAreAccounted(t: Tail, kind: Kind, fs: seq<Bytes>, r: Report, n: nat, offset: nat, late: bool)
    requires Covers(t.raw, t.encoding, kind.Result?, fs)
    requires OnTrack(fs, First(t, kind), n, |t.raw|, r.discarded, offset, late)
    requires offset + r.unprocessed == |t.raw| && (Drops(t, kind) ==> offset > 0)
    requires !r.deadline && !r.truncated ==> r.unprocessed == 0
    ensures BytesAccounted(t, kind, fs, r, n, late)
  {
    var first := First(t, kind);
    TotalBetween(fs, first, first + n);
    AllFrames(t.raw, t.encoding, kind.Result?, fs, first + n);
  }

  // ----- the loop -----

  /** The counters of the loop; `omission_reasons` is the multiset of the reasons given. */
  datatype Tally = Tally(output: Bytes, omitted: nat, reasons: multiset<Reason>, origins: set<Origin>)

  /** `y` accounts for `n` records, the first of them number `first`. */
  ghost predicate Tallies(c: Context, fs: seq<Bytes>, first: nat, n: nat, budget: nat, y: Tally) {
    && IsAccount(c, Examined(fs, first, n), y.output, y.reasons, y.origins)
    && y.omitted == |y.reasons| && |y.output| <= budget
  }

  /** The record after the `n` examined ones does not fit. */
  ghost predicate NextOverflows(c: Context, fs: seq<Bytes>, first: nat, n: nat, used: nat, budget: nat) {
    first + n < |fs| && Overflows(c, Examined(fs, first, n), fs[first + n], used, budget)
  }

  lemma RecordsAreAccounted(
    c: Context, fs: seq<Bytes>, first: nat, budget: nat, r: Report, n: nat, late: bool, y: Tally)
    requires Tallies(c, fs, first, n, budget, y)
    requires r.output == y.output && r.reasons == y.reasons && r.omitted == y.omitted
    requires r.deadline ==> late
    requires r.truncated ==> NextOverflows(c, fs, first, n, |y.output|, budget)
    ensures RecordsAccounted(c, fs, first, budget, r, n, late)
  {
  }

  lemma TallyStart(c: Context, fs: seq<Bytes>, first: nat, budget: nat)
    ensures Tallies(c, fs, first, 0, budget, Tally([], 0, multiset{}, {}))
  {
    assert Examined(fs, first, 0) == [];
  }

  lemma ExaminedNext(fs: seq<Bytes>, first: nat, n: nat)
    requires first + n < |fs|
    ensures Examined(fs, first, n + 1) == Examined(fs, first, n) + [fs[first + n]]
  {
  }

  method Consume(c: Context, slice: Bytes, budget: nat, y: Tally, ghost fs: seq<Bytes>, ghost first: nat, ghost n: nat)
    returns (fits: bool, z: Tally)
    requires first + n < |fs| && slice == fs[first + n]
    requires Tallies(c, fs, first, n, budget, y)
    ensures fits ==> Tallies(c, fs, first, n + 1, budget, z)
    ensures !fits ==> NextOverflows(c, fs, first, n, |y.output|, budget)
  {
    ExaminedNext(fs, first, n);
    AccountGrows(c, Examined(fs, first, n), slice, y.output, y.reasons, y.origins);
    var origin := OriginOf(c, slice);
    var origins := if origin.Some? && |y.origins| < MAX_LEGACY_ORIGINS then y.origins + {origin.value} else y.origins;
    match Judge(c, y.origins, slice)
    case Omitted(reason) =>
      return true, y.(omitted := y.omitted + 1, reasons := y.reasons + multiset{reason}, origins := origins);
    case Exported(safe) =>
      var encoded := safe.encoded + [10];
      if |y.output| + |encoded| > budget {
        return false, y;
      }
      return true, y.(output := y.output + encoded, origins := origins);
  }

  datatype Step = Dropped | Late | Found

  /** One turn of the generator and the two tests that follow it. */
  method NextSlice(t: Tail, kind: Kind, offset: nat, discarded: nat, late: bool, ghost fs: seq<Bytes>,
                   ghost first: nat, ghost n: nat)
    returns (step: Step, slice: Bytes, late': bool)
    requires offset < |t.raw| && Covers(t.raw, t.encoding, kind.Result?, fs)
    requires first == First(t, kind)
    requires OnTrack(fs, first, n, |t.raw|, discarded, offset, late)
    ensures 0 < |slice| <= |t.raw| - offset && (late ==> late')
    ensures step.Dropped? <==> Drops(t, kind) && offset == 0
    ensures step.Dropped? ==> OnTrack(fs, first, n, |t.raw|, |slice|, |slice|, late')
    ensures step.Late? ==> late'
    ensures !step.Dropped? ==> OnTrack(fs, first, n, |t.raw|, discarded, offset, late')
    ensures step.Found? ==> OnTrack(fs, first, n + 1, |t.raw|, discarded, offset + |slice|, late')
    ensures step.Found? ==> first + n < |fs| && fs[first + n] == slice
  {
    var whole := kind.Result?;
    var end;
    end, late' := RecordEnd(t.raw, offset, t.encoding, whole, late);
    slice := t.raw[offset..end];
    if t.start > 0 && offset == 0 && !whole {
      assert t.raw[0..] == t.raw;
      TrackDrop(t.raw, t.encoding, fs, end, late');
      return Dropped, slice, late';
    }
    late' := Expired(late');
    if late' {
      return Late, slice, late';
    }
    TrackNext(t.raw, t.encoding, whole, fs, first, n, discarded, offset, end);
    step := Found;
  }

  method Scan(c: Context, t: Tail, budget: nat, late: bool, ghost fs: seq<Bytes>, ghost first: nat)
    returns (tally: Tally, processed: nat, discarded: nat, truncated: bool, deadline: bool, late': bool, ghost n: nat)
    requires c.partial == (t.start > 0 || t.incomplete)
    requires first == First(t, c.kind)
    requires Covers(t.raw, t.encoding, c.kind.Result?, fs)
    ensures processed <= |t.raw| && (Drops(t, c.kind) ==> processed > 0)
    ensures OnTrack(fs, first, n, |t.raw|, discarded, processed, late')
    ensures Tallies(c, fs, first, n, budget, tally)
    ensures !deadline && !truncated ==> processed == |t.raw|
    ensures (deadline ==> late') && (late ==> late')
    ensures truncated ==> NextOverflows(c, fs, first, n, |tally.output|, budget)
  {
    processed, discarded, truncated, deadline := 0, 0, false, false;
    tally := Tally([], 0, multiset{}, {});
    n, late' := 0, late;
    TrackStart(t.raw, t.encoding, c.kind.Result?, fs, first, late');
    TallyStart(c, fs, first, budget);
    while processed < |t.raw|
      invariant processed <= |t.raw| && (late ==> late')
      invariant OnTrack(fs, first, n, |t.raw|, discarded, processed, late')
      invariant Tallies(c, fs, first, n, budget, tally)
    {
      var step, slice;
      step, slice, late' := NextSlice(t, c.kind, processed, discarded, late', fs, first, n);
      if step.Dropped? {
        processed, discarded := |slice|, |slice|;
        continue;
      }
      if step.Late? {
        deadline := true;
        return;
      }
      var fits, tally' := Consume(c, slice, budget, tally, fs, first, n);
      if !fits {
        truncated := true;
        return;
      }
      processed, tally, n := processed + |slice|, tally', n + 1;
    }
  }

  /** The whole loop, against the records of the buffer. */
  method Examine(c: Context, t: Tail, budget: nat, late: bool)
    returns (r: Report, late': bool, ghost n: nat)
    requires c.partial == (t.start > 0 || t.incomplete)
    ensures BytesAccounted(t, c.kind, Frames(t.raw, t.encoding, c.kind.Result?), r, n, late')
    ensures RecordsAccounted(c, Frames(t.raw, t.encoding, c.kind.Result?), First(t, c.kind), budget, r, n, late')
    ensures r.discarded + r.unprocessed <= |t.raw| && |r.output| <= budget && r.omitted == |r.reasons|
    ensures (r.unprocessed == 0 || r.deadline || r.truncated) && (late ==> late')
    ensures First(t, c.kind) == if t.start > 0 && !c.kind.Result? && t.raw != [] then 1 else 0
  {
    FramesCover(t.raw, t.encoding, c.kind.Result?);
    ghost var fs := Frames(t.raw, t.encoding, c.kind.Result?);
    var tally, processed, discarded, truncated, deadline;
    tally, processed, discarded, truncated, deadline, late', n := Scan(c, t, budget, late, fs, First(t, c.kind));
    r := Report(tally.output, tally.omitted, tally.reasons, discarded, |t.raw| - processed, truncated, deadline);
    BytesAreAccounted(t, c.kind, fs, r, n, processed, late');
    RecordsAreAccounted(c, fs, First(t, c.kind), budget, r, n, late', tally);
  }

  /** `_read_recent`: neither the bytes read nor the bytes exported exceed the budget, and what was
      read is accounted for byte by byte and record by record. */
  method Collect(
    stream: Stream, end: nat, kind: Kind, decode: (Encoding, Bytes) -> Option<string>,
    metadata: string -> Option<Safe>, budget: nat, late: bool)
    returns (r: Report, t: Tail, ghost n: nat, late': bool)
    requires stream.position == 0 && end <= |stream.content|
    modifies stream
    ensures t.readBytes <= budget && |r.output| <= budget && (late ==> late')
    ensures if IsNothing(r, t) then late' else IsTail(stream.content, end, budget, t, late', stream.dry)
    ensures t.readBytes == r.discarded + Total(Examined(Frames(t.raw, t.encoding, kind.Result?), First(t, kind), n))
                           + r.unprocessed + if t.start == 0 then 0 else t.prefix
    ensures BytesAccounted(t, kind, Frames(t.raw, t.encoding, kind.Result?), r, n, late')
    ensures RecordsAccounted(ContextOf(kind, t, decode, metadata), Frames(t.raw, t.encoding, kind.Result?),
                             First(t, kind), budget, r, n, late')
  {
    late' := Expired(late);
    if late' {
      r, t, n := Report([], 0, multiset{}, 0, 0, false, true), Tail([], 0, Utf8, 0, 0, false), 0;
      assert Examined(Frames([], Utf8, kind.Result?), 0, 0) == [];
      return;
    }
    t, late' := ReadTail(stream, end, budget, late');
    r, late', n := Examine(ContextOf(kind, t, decode, metadata), t, budget, late');
  }

  /** The deadline had passed before the file was opened. */
  predicate IsNothing(r: Report, t: Tail) {
    r.deadline && t == Tail([], 0, Utf8, 0, 0, false)
  }

  function ContextOf(
    kind: Kind, t: Tail, decode: (Encoding, Bytes) -> Option<string>, metadata: string -> Option<Safe>): Context
  {
    Context(kind, t.start > 0 || t.incomplete, bytes => decode(t.encoding, bytes), metadata)
  }
}

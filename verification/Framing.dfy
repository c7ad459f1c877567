// How the bytes of a log tail are split into records, and what is done with each of them
// (backend/app/diagnostics.py:502-568).
module Framing {
  import opened Common
  import opened ReadRecent

  // ----- the framing, stated without positions in the buffer -----

  predicate IsAt(s: Bytes, d: Bytes, i: nat) {
    i + |d| <= |s| && s[i..i + |d|] == d
  }

  /** A record ends at `i`: the delimiter is there and, in UTF-16, on a code unit boundary. */
  predicate EndsAt(s: Bytes, e: Encoding, i: nat) {
    IsAt(s, Delimiter(e), i) && (e.Utf8? || i % 2 == 0)
  }

  /** A finished record: its only delimiter is its end. */
  ghost predicate IsRecord(s: Bytes, e: Encoding) {
    && |s| >= |Delimiter(e)| && EndsAt(s, e, |s| - |Delimiter(e)|)
    && forall i: nat | i < |s| - |Delimiter(e)| :: !EndsAt(s, e, i)
  }

  ghost predicate IsOpen(s: Bytes, e: Encoding) {
    s != [] && forall i: nat | i < |s| :: !EndsAt(s, e, i)
  }

  /** Finished records, then at most one that is still open. */
  ghost predicate IsFraming(fs: seq<Bytes>, e: Encoding) {
    && (forall k | 0 <= k < |fs| - 1 :: IsRecord(fs[k], e))
    && (fs != [] ==> IsRecord(fs[|fs| - 1], e) || IsOpen(fs[|fs| - 1], e))
  }

  function Flatten(fs: seq<Bytes>): Bytes {
    if fs == [] then [] else fs[0] + Flatten(fs[1..])
  }

  // ----- the first record of a buffer -----

  function EndFrom(s: Bytes, e: Encoding, i: nat): (r: Option<nat>)
    ensures r.Some? ==> i <= r.value && r.value + |Delimiter(e)| <= |s|
    decreases |s| - i
  {
    if i >= |s| then None else if EndsAt(s, e, i) then Some(i) else EndFrom(s, e, i + 1)
  }

  lemma {:induction false} EndIsFirst(s: Bytes, e: Encoding, i: nat)
    ensures var r := EndFrom(s, e, i);
            && (r.None? ==> forall k: nat | i <= k < |s| :: !EndsAt(s, e, k))
            && (r.Some? ==> EndsAt(s, e, r.value) && forall k: nat | i <= k < r.value :: !EndsAt(s, e, k))
    decreases |s| - i
  {
    if i < |s| && !EndsAt(s, e, i) {
      EndIsFirst(s, e, i + 1);
    }
  }

  /** The length of the first record; a whole file is one record when `whole`. */
  function Cut(s: Bytes, e: Encoding, whole: bool): (n: nat)
    requires s != []
    ensures 0 < n <= |s|
  {
    var end := EndFrom(s, e, 0);
    if whole || end.None? then |s| else end.value + |Delimiter(e)|
  }

  function Frames(s: Bytes, e: Encoding, whole: bool): seq<Bytes> {
    if s == [] then [] else [s[..Cut(s, e, whole)]] + Frames(s[Cut(s, e, whole)..], e, whole)
  }

  lemma {:induction false} FramesRejoin(s: Bytes, e: Encoding, whole: bool)
    ensures Flatten(Frames(s, e, whole)) == s
  {
    if s != [] {
      var n := Cut(s, e, whole);
      FramesRejoin(s[n..], e, whole);
      assert s == s[..n] + s[n..];
    }
  }

  /** Cutting a buffer short leaves the record ends before the cut where they were. */
  lemma EndsInPrefix(s: Bytes, e: Encoding, n: nat, i: nat)
    requires n <= |s| && i + |Delimiter(e)| <= n
    ensures EndsAt(s[..n], e, i) <==> EndsAt(s, e, i)
  {
    assert s[..n][i..i + |Delimiter(e)|] == s[i..i + |Delimiter(e)|];
  }

  lemma FirstFrame(s: Bytes, e: Encoding)
    requires s != []
    ensures Cut(s, e, false) < |s| ==> IsRecord(s[..Cut(s, e, false)], e)
    ensures Cut(s, e, false) == |s| ==> IsRecord(s, e) || IsOpen(s, e)
  {
    var n := Cut(s, e, false);
    EndIsFirst(s, e, 0);
    assert s[..|s|] == s;
    if EndFrom(s, e, 0).Some? {
      forall i: nat | i + |Delimiter(e)| <= n
        ensures EndsAt(s[..n], e, i) <==> EndsAt(s, e, i)
      {
        EndsInPrefix(s, e, n, i);
      }
    }
  }

  lemma {:induction false} FramesAreFraming(s: Bytes, e: Encoding)
    ensures IsFraming(Frames(s, e, false), e)
  {
    if s != [] {
      var n := Cut(s, e, false);
      FirstFrame(s, e);
      FramesAreFraming(s[n..], e);
      var rest := Frames(s[n..], e, false);
      assert n == |s| ==> s[..n] == s;
      assert Frames(s, e, false) == [s[..n]] + rest;
    }
  }

  /** A framing that starts with a finished record names the cut. */
  lemma RecordIsCut(f: Bytes, rest: Bytes, e: Encoding)
    requires IsRecord(f, e)
    ensures Cut(f + rest, e, false) == |f|
  {
    var s := f + rest;
    assert s[..|f|] == f;
    EndIsFirst(s, e, 0);
    var last := |f| - |Delimiter(e)|;
    forall i: nat | i <= last
      ensures EndsAt(s, e, i) <==> EndsAt(f, e, i)
    {
      EndsInPrefix(s, e, |f|, i);
    }
  }

  /** The first frame of a framing is where the buffer is cut. */
  lemma FramingHead(fs: seq<Bytes>, e: Encoding)
    requires IsFraming(fs, e) && fs != []
    ensures IsFraming(fs[1..], e) && fs[0] + Flatten(fs[1..]) != []
    ensures Cut(fs[0] + Flatten(fs[1..]), e, false) == |fs[0]|
  {
    var f, rest := fs[0], Flatten(fs[1..]);
    if IsRecord(f, e) {
      RecordIsCut(f, rest, e);
    } else {
      assert f + rest == f;
      EndIsFirst(f, e, 0);
    }
  }

  lemma FramesStep(f: Bytes, rest: Bytes, e: Encoding)
    requires f + rest != [] && Cut(f + rest, e, false) == |f|
    ensures Frames(f + rest, e, false) == [f] + Frames(rest, e, false)
  {
    assert (f + rest)[..|f|] == f && (f + rest)[|f|..] == rest;
  }

  lemma {:induction false} FramingIsUnique(fs: seq<Bytes>, e: Encoding)
    requires IsFraming(fs, e)
    ensures fs == Frames(Flatten(fs), e, false)
  {
    if fs != [] {
      var rest := fs[1..];
      FramingHead(fs, e);
      FramingIsUnique(rest, e);
      FramesStep(fs[0], Flatten(rest), e);
      assert fs == [fs[0]] + rest;
    }
  }

  /** The records of a buffer are the one way to split it into finished records and an open rest. */
  lemma FramingTheorem(s: Bytes, e: Encoding, fs: seq<Bytes>)
    ensures fs == Frames(s, e, false) <==> Flatten(fs) == s && IsFraming(fs, e)
  {
    FramesRejoin(s, e, false);
    FramesAreFraming(s, e);
    if Flatten(fs) == s && IsFraming(fs, e) {
      FramingIsUnique(fs, e);
    }
  }

  /** A result file is not split at all. */
  lemma WholeTheorem(s: Bytes, e: Encoding)
    ensures Frames(s, e, true) == if s == [] then [] else [s]
  {
    if s != [] {
      assert s[..|s|] == s && s[|s|..] == [];
      assert Frames(s[|s|..], e, true) == [];
    }
  }

  // ----- the search, which does use positions in the buffer -----

  /** `bytes.find`. */
  function Find(s: Bytes, d: Bytes, i: nat): (r: Option<nat>)
    requires d != []
    ensures r.None? ==> forall k: nat | i <= k < |s| :: !IsAt(s, d, k)
    ensures r.Some? ==> i <= r.value && IsAt(s, d, r.value) && forall k: nat | i <= k < r.value :: !IsAt(s, d, k)
    decreases |s| - i
  {
    if i >= |s| then None else if IsAt(s, d, i) then Some(i) else Find(s, d, i + 1)
  }

  lemma EndsInSuffix(s: Bytes, e: Encoding, from: nat, i: nat)
    requires from <= |s| && (e.Utf8? || from % 2 == 0)
    ensures EndsAt(s[from..], e, i) <==> EndsAt(s, e, from + i)
  {
    if from + i + |Delimiter(e)| <= |s| {
      assert s[from..][i..i + |Delimiter(e)|] == s[from + i..from + i + |Delimiter(e)|];
    }
  }

  lemma CutIsAt(s: Bytes, e: Encoding, from: nat, found: Option<nat>)
    requires from < |s| && (e.Utf8? || from % 2 == 0)
    requires found.None? ==> forall k: nat | from <= k < |s| :: !EndsAt(s, e, k)
    requires found.Some? ==> from <= found.value && EndsAt(s, e, found.value)
    requires found.Some? ==> forall k: nat | from <= k < found.value :: !EndsAt(s, e, k)
    ensures from + Cut(s[from..], e, false) == if found.Some? then found.value + |Delimiter(e)| else |s|
  {
    var r := EndFrom(s[from..], e, 0);
    EndIsFirst(s[from..], e, 0);
    if r.Some? {
      EndsInSuffix(s, e, from, r.value);
      assert found.Some?;
      if found.value < from + r.value {
        EndsInSuffix(s, e, from, found.value - from);
      }
    } else if found.Some? {
      EndsInSuffix(s, e, from, found.value - from);
    }
  }

  /** Where the record that starts at `offset` ends; once the deadline has passed the answer may be
      a delimiter that straddles two code units. */
  method RecordEnd(raw: Bytes, offset: nat, e: Encoding, whole: bool, late: bool)
    returns (end: nat, late': bool)
    requires offset < |raw|
    ensures offset < end <= |raw| && (late ==> late')
    ensures (whole || e.Utf8? || offset % 2 == 0) && (!late' || end == |raw|) ==>
              end == offset + Cut(raw[offset..], e, whole)
  {
    late' := late;
    var position := if whole then None else Find(raw, Delimiter(e), offset);
    while position.Some? && !e.Utf8? && position.value % 2 != 0
      invariant position.Some? ==> offset <= position.value && IsAt(raw, Delimiter(e), position.value)
      invariant position.Some? && !whole ==> forall k: nat | offset <= k < position.value :: !EndsAt(raw, e, k)
      invariant position.None? && !whole ==> forall k: nat | offset <= k < |raw| :: !EndsAt(raw, e, k)
      invariant whole ==> position.None?
      invariant late ==> late'
      decreases if position.Some? then |raw| - position.value else 0
    {
      late' := Expired(late');
      if late' {
        if offset % 2 == 0 && position.value + |Delimiter(e)| == |raw| {
          CutIsAt(raw, e, offset, None);
        }
        return position.value + |Delimiter(e)|, late';
      }
      position := Find(raw, Delimiter(e), position.value + 1);
    }
    if !whole && (e.Utf8? || offset % 2 == 0) {
      CutIsAt(raw, e, offset, position);
    }
    end := if position.Some? then position.value + |Delimiter(e)| else |raw|;
  }
}

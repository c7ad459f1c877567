// Reading the recent records of one log file for the diagnostic bundle
// (backend/app/diagnostics.py:463-568).
module ReadRecent {
  import opened Common

  type Byte = bv8
  type Bytes = seq<Byte>

  const MAX_LINE_BYTES := 64 * 1024
  const MAX_LEGACY_ORIGINS := 256
  const CHUNK := 64 * 1024

  datatype Kind = Result | Application | Other
  datatype Encoding = Utf8 | Utf16Le | Utf16Be

  function Detect(prefix: Bytes): Encoding {
    if |prefix| >= 2 && prefix[0] == 0xff && prefix[1] == 0xfe then Utf16Le
    else if |prefix| >= 2 && prefix[0] == 0xfe && prefix[1] == 0xff then Utf16Be
    else Utf8
  }

  function Delimiter(e: Encoding): Bytes {
    match e
    case Utf8 => [10]
    case Utf16Le => [10, 0]
    case Utf16Be => [0, 10]
  }

  /** The two bytes of a code unit. */
  function Unit(e: Encoding, unit: bv16): Bytes {
    var low, high := (unit & 0xff) as Byte, (unit >> 8) as Byte;
    if e.Utf16Le? then [low, high] else [high, low]
  }

  /** A file is taken as UTF-16 exactly when it begins with the byte order mark in one of the two byte orders,
      and then its records end in the newline of that byte order. */
  lemma MarkDecidesNewline(prefix: Bytes)
    ensures Detect(prefix).Utf16Le? <==> Unit(Utf16Le, 0xfeff) <= prefix
    ensures Detect(prefix).Utf16Be? <==> Unit(Utf16Be, 0xfeff) <= prefix
    ensures Delimiter(Detect(prefix)) == if Detect(prefix).Utf8? then [10] else Unit(Detect(prefix), 10)
  {
    assert Unit(Utf16Le, 0xfeff) == [0xff, 0xfe] && Unit(Utf16Be, 0xfeff) == [0xfe, 0xff];
    assert Unit(Utf16Le, 10) == [10, 0] && Unit(Utf16Be, 10) == [0, 10];
  }

  // ----- the clock and the file -----

  /** `expired()`: once past the deadline, always past it. */
  method Expired(late: bool) returns (expired: bool)
    ensures late ==> expired
  {
    if late {
      return true;
    }
    expired := *;
  }

  /** An open file. A read may return less than was asked for, also nothing. */
  class Stream {
    const content: Bytes
    var position: nat
    ghost var dry: bool // a read inside the file has returned nothing

    constructor (content: Bytes)
      ensures this.content == content && position == 0 && !dry
    {
      this.content := content;
      position := 0;
      dry := false;
    }

    method Read(n: nat) returns (chunk: Bytes)
      modifies this
      ensures |chunk| <= n && position == old(position) + |chunk|
      ensures chunk != [] ==> position <= |content| && chunk == content[old(position)..position]
      ensures dry == (old(dry) || (chunk == [] && n > 0 && position < |content|))
    {
      if position >= |content| || n == 0 {
        return [];
      }
      var k: nat :| k <= n && position + k <= |content|;
      chunk := content[position..position + k];
      position := position + k;
      dry := dry || k == 0;
    }
  }

  datatype Tail = Tail(raw: Bytes, start: nat, encoding: Encoding, prefix: nat, readBytes: nat, incomplete: bool)

  /** Where the read of the tail starts. */
  function StartOf(end: nat, budget: nat, prefix: nat, utf16: bool): nat
    requires prefix <= budget
  {
    if end > budget then
      var s := end - (budget - prefix);
      if utf16 then s + s % 2 else s
    else 0
  }

  /** `raw` is the stretch of the file that begins at `start`. */
  ghost predicate IsStretch(content: Bytes, start: nat, raw: Bytes) {
    raw != [] ==> start + |raw| <= |content| && raw == content[start..start + |raw|]
  }

  lemma StretchGrows(content: Bytes, start: nat, raw: Bytes, chunk: Bytes)
    requires IsStretch(content, start, raw) && chunk != [] && start + |raw| + |chunk| <= |content|
    requires chunk == content[start + |raw|..start + |raw| + |chunk|]
    ensures IsStretch(content, start, raw + chunk)
  {
  }

  lemma StartFacts(end: nat, budget: nat, prefix: nat, utf16: bool)
    requires prefix <= budget
    ensures StartOf(end, budget, prefix, utf16) == 0 <==> end <= budget
    ensures utf16 ==> StartOf(end, budget, prefix, utf16) % 2 == 0
    ensures end > budget ==>
              0 <= StartOf(end, budget, prefix, utf16) - (end - (budget - prefix)) <= if utf16 then 1 else 0
  {
  }

  lemma PrefixIsStretch(content: Bytes, prefix: Bytes)
    requires |prefix| <= |content| && prefix == content[..|prefix|]
    ensures IsStretch(content, 0, prefix)
  {
    assert content[0..|prefix|] == content[..|prefix|];
  }

  /** What the reading phase leaves: never more than `budget` bytes read, never past `end`, and the bytes kept
      are one contiguous, for UTF-16 evenly placed, stretch at the end of the file. It stops early only when the
      deadline has passed or the file gave nothing. */
  ghost predicate IsTail(content: Bytes, end: nat, budget: nat, t: Tail, late: bool, dry: bool) {
    && t.readBytes <= budget && t.prefix <= Min(3, Min(end, budget)) && t.prefix <= |content|
    && t.start == StartOf(end, budget, t.prefix, !t.encoding.Utf8?)
    && (t.start == 0 <==> end <= budget)
    && (!t.encoding.Utf8? ==> t.start % 2 == 0)
    && (t.start > 0 ==> 0 <= t.start - (end - (budget - t.prefix)) <= if t.encoding.Utf8? then 0 else 1)
    && t.readBytes == |t.raw| + (if t.start == 0 then 0 else t.prefix)
    && IsStretch(content, t.start, t.raw) && (t.raw != [] ==> t.start + |t.raw| <= end)
    && (t.incomplete <==> t.start + |t.raw| < end)
    && (t.start + |t.raw| >= end || t.readBytes == budget || late || dry)
    && t.encoding == Detect(content[..t.prefix])
  }

  /** The reading phase. */
  method ReadTail(stream: Stream, end: nat, budget: nat, late: bool) returns (t: Tail, late': bool)
    requires stream.position == 0 && end <= |stream.content|
    modifies stream
    ensures IsTail(stream.content, end, budget, t, late', stream.dry) && (late ==> late')
  {
    var prefix := stream.Read(Min(3, Min(end, budget)));
    var encoding := Detect(prefix);
    var start := 0;
    if end > budget {
      start := end - (budget - |prefix|);
      if !encoding.Utf8? {
        start := start + start % 2;
      }
    }
    assert start == StartOf(end, budget, |prefix|, !encoding.Utf8?);
    StartFacts(end, budget, |prefix|, !encoding.Utf8?);
    assert prefix == stream.content[..|prefix|];
    PrefixIsStretch(stream.content, prefix);
    var raw := if start == 0 then prefix else [];
    stream.position := if start == 0 then |prefix| else start;
    var more;
    more, late' := ReadOn(stream, end, budget - |prefix|, start, raw, late);
    t := Tail(raw + more, start, encoding, |prefix|, |prefix| + |more|, stream.position < end);
  }

  method ReadOn(stream: Stream, end: nat, allowance: nat, start: nat, raw: Bytes, late: bool)
    returns (more: Bytes, late': bool)
    requires end <= |stream.content| && stream.position == start + |raw|
    requires IsStretch(stream.content, start, raw) && (raw != [] ==> start + |raw| <= end)
    modifies stream
    ensures |more| <= allowance && stream.position == start + |raw| + |more|
    ensures IsStretch(stream.content, start, raw + more)
    ensures raw + more != [] ==> start + |raw| + |more| <= end
    ensures stream.position >= end || |more| == allowance || late' || stream.dry
    ensures late ==> late'
  {
    more, late' := [], late;
    assert raw + more == raw;
    while stream.position < end && |more| < allowance
      invariant |more| <= allowance && stream.position == start + |raw| + |more|
      invariant IsStretch(stream.content, start, raw + more)
      invariant raw + more != [] ==> stream.position <= end
      invariant late ==> late'
      decreases allowance - |more|
    {
      late' := Expired(late');
      if late' {
        break;
      }
      var chunk := stream.Read(Min(CHUNK, Min(end - stream.position, allowance - |more|)));
      if chunk == [] {
        break;
      }
      StretchGrows(stream.content, start, raw + more, chunk);
      assert raw + (more + chunk) == raw + more + chunk;
      more := more + chunk;
    }
  }
}

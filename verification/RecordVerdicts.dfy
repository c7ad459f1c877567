// When a record is exported, and why it is omitted, in terms of the record and the two functions that decode
// and sanitise it (backend/app/diagnostics.py:528-560).
module RecordVerdicts {
  import opened Common
  import opened ReadRecent
  import opened RecentRecords

  /** The record decodes and is complete: a line up to its newline, or a result file read whole. */
  predicate IsWhole(c: Context, slice: Bytes) {
    && |slice| <= 64 * 1024 && c.decode(slice).Some?
    && if c.kind.Result? then !c.partial
       else var line := c.decode(slice).value; line != "" && line[|line| - 1] == '\n'
  }

  /** The record is a legacy message of the application log with this origin. */
  predicate IsLegacy(c: Context, slice: Bytes, origin: Origin) {
    && c.kind.Application? && IsWhole(c, slice)
    && var safe := c.metadata(c.decode(slice).value); safe.Some? && safe.value.origin == Some(origin)
  }

  /** The origins of the legacy messages among the records. */
  ghost function LegacyOrigins(c: Context, slices: seq<Bytes>): (os: set<Origin>)
    ensures forall o :: o in os <==> exists k | 0 <= k < |slices| :: IsLegacy(c, slices[k], o)
  {
    SameOrigins(c, slices);
    Origins(c, slices)
  }

  lemma SameOrigins(c: Context, slices: seq<Bytes>)
    ensures forall o :: o in Origins(c, slices) <==> exists k | 0 <= k < |slices| :: IsLegacy(c, slices[k], o)
  {
    forall o
      ensures o in Origins(c, slices) <==> exists k | 0 <= k < |slices| :: IsLegacy(c, slices[k], o)
    {
      if o in Origins(c, slices) {
        var k :| 0 <= k < |slices| && OriginOf(c, slices[k]) == Some(o);
        assert IsLegacy(c, slices[k], o);
      }
      if k :| 0 <= k < |slices| && IsLegacy(c, slices[k], o) {
        assert OriginOf(c, slices[k]) == Some(o);
      }
    }
  }

  /** One of the first `i` records was a legacy message of this origin, seen while fewer than 256 origins had
      been. */
  ghost predicate IsRemembered(c: Context, slices: seq<Bytes>, i: nat, origin: Origin)
    requires i <= |slices|
  {
    exists k: nat | k < i :: IsLegacy(c, slices[k], origin) && HasRoom(c, slices, k)
  }

  ghost predicate HasRoom(c: Context, slices: seq<Bytes>, k: nat)
    requires k <= |slices|
  {
    |LegacyOrigins(c, slices[..k])| < 256
  }

  lemma RoomIs(c: Context, slices: seq<Bytes>, k: nat)
    requires k <= |slices|
    ensures HasRoom(c, slices, k) <==> |Tracked(c, slices[..k])| < MAX_LEGACY_ORIGINS
  {
    assert LegacyOrigins(c, slices[..k]) == Origins(c, slices[..k]);
    SubsetSize(Tracked(c, slices[..k]), Origins(c, slices[..k]));
  }

  lemma TrackedNext(c: Context, slices: seq<Bytes>, slice: Bytes, origin: Origin)
    ensures origin in Tracked(c, slices + [slice])
       <==> origin in Tracked(c, slices)
            || (OriginOf(c, slice) == Some(origin) && |Tracked(c, slices)| < MAX_LEGACY_ORIGINS)
  {
    TrackedGrows(c, slices, slice);
  }

  lemma LegacyIs(c: Context, slice: Bytes, origin: Origin)
    ensures IsLegacy(c, slice, origin) <==> OriginOf(c, slice) == Some(origin)
  {
  }

  lemma {:induction false} TrackedIsRemembered(c: Context, slices: seq<Bytes>, i: nat, origin: Origin)
    requires i <= |slices|
    ensures origin in Tracked(c, slices[..i]) <==> IsRemembered(c, slices, i, origin)
  {
    if i > 0 {
      assert slices[..i] == slices[..i - 1] + [slices[i - 1]];
      TrackedIsRemembered(c, slices, i - 1, origin);
      TrackedNext(c, slices[..i - 1], slices[i - 1], origin);
      RoomIs(c, slices, i - 1);
      LegacyIs(c, slices[i - 1], origin);
      RememberedNext(c, slices, i - 1, origin);
    }
  }

  lemma RememberedNext(c: Context, slices: seq<Bytes>, i: nat, origin: Origin)
    requires i < |slices|
    ensures IsRemembered(c, slices, i + 1, origin)
       <==> IsRemembered(c, slices, i, origin) || (IsLegacy(c, slices[i], origin) && HasRoom(c, slices, i))
  {
    if IsRemembered(c, slices, i, origin) {
      var k: nat :| k < i && IsLegacy(c, slices[k], origin) && HasRoom(c, slices, k);
      assert k < i + 1;
    }
  }

  /** The record is a legacy message whose origin is remembered. */
  ghost predicate Repeats(c: Context, slices: seq<Bytes>, i: nat)
    requires i < |slices|
  {
    && c.kind.Application? && IsWhole(c, slices[i])
    && var safe := c.metadata(c.decode(slices[i]).value);
       safe.Some? && safe.value.origin.Some? && IsRemembered(c, slices, i, safe.value.origin.value)
  }

  /** A record is exported exactly when it has at most 64 KiB, decodes, is complete, is recognised and repeats
      no remembered legacy message; and what is exported is what it was sanitised to. */
  lemma ExportedIff(c: Context, slices: seq<Bytes>, i: nat)
    requires i < |slices|
    ensures Verdicts(c, slices)[i].Exported?
       <==> && IsWhole(c, slices[i]) && c.metadata(c.decode(slices[i]).value).Some? && !Repeats(c, slices, i)
    ensures Verdicts(c, slices)[i].Exported? ==>
              Some(Verdicts(c, slices)[i].safe) == c.metadata(c.decode(slices[i]).value)
  {
    var safe := if IsWhole(c, slices[i]) then c.metadata(c.decode(slices[i]).value) else None;
    if safe.Some? && safe.value.origin.Some? {
      TrackedIsRemembered(c, slices, i, safe.value.origin.value);
    }
  }

  /** And each reason for leaving a record out is given exactly in its own case: the first that applies. */
  lemma ReasonIff(c: Context, slices: seq<Bytes>, i: nat)
    requires i < |slices|
    ensures var slice, v := slices[i], Verdicts(c, slices)[i];
            var line := if c.decode(slice).Some? then c.decode(slice).value else "";
            var ends := line != "" && line[|line| - 1] == '\n';
            var decodes := |slice| <= 64 * 1024 && c.decode(slice).Some?;
            && (v == Omitted(Oversized) <==> |slice| > 64 * 1024)
            && (v == Omitted(InvalidEncoding) <==> |slice| <= 64 * 1024 && c.decode(slice).None?)
            && (v == Omitted(IncompleteLastRecord) <==> decodes && !c.kind.Result? && !ends)
            && (v == Omitted(IncompleteResult) <==> decodes && c.kind.Result? && c.partial)
            && (v == Omitted(Unrecognized) <==> IsWhole(c, slice) && c.metadata(line).None?)
            && (v == Omitted(Duplicate) <==> Repeats(c, slices, i))
  {
    var safe := if IsWhole(c, slices[i]) then c.metadata(c.decode(slices[i]).value) else None;
    if safe.Some? && safe.value.origin.Some? {
      TrackedIsRemembered(c, slices, i, safe.value.origin.value);
    }
  }
}

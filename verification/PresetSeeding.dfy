// Seeding the built-in agent presets at startup without overwriting user edits
// (backend/app/shared/agent/system_presets.py:138-244).
module PresetSeeding {
  import opened Common

  type Apid = string

  /** The fields a seed may overwrite, and so the fields the fingerprint covers. */
  datatype Content = Content(
    name: string, description: string, prompt: string, level: int, tools: seq<string>, requiresTool: bool)

  datatype Row = Row(content: Content, enabled: bool)

  datatype Payload = Payload(apid: Apid, content: Content)

  datatype Source = Seed | RestoreDefault

  datatype Revision = Revision(apid: Apid, content: Content, source: Source)

  /** The assumption on the hash: different contents have different fingerprints, none of them empty. */
  ghost predicate IsFingerprint(fp: Content -> string) {
    && (forall a, b | fp(a) == fp(b) :: a == b)
    && forall a :: fp(a) != ""
  }

  // ----- one preset -----

  /** One preset as the startup sees it; no recorded fingerprint is the empty string. */
  datatype Cell = Cell(row: Option<Row>, recorded: string)

  /** The row is written: it is missing, or still what a built-in last was. */
  predicate Replaces(fp: Content -> string, c: Cell, d: Content) {
    c.row.None? || (fp(c.row.value.content) != fp(d) && c.recorded != "" && c.recorded == fp(c.row.value.content))
  }

  function Seeded(fp: Content -> string, c: Cell, d: Content): Cell {
    if Replaces(fp, c, d) then Cell(Some(Row(d, true)), fp(d))
    else if fp(c.row.value.content) == fp(d) then c.(recorded := fp(d))
    else c
  }

  // ----- the stores -----

  function CellOf(rows: map<Apid, Row>, meta: map<Apid, string>, apid: Apid): Cell {
    Cell(if apid in rows then Some(rows[apid]) else None, if apid in meta then meta[apid] else "")
  }

  /** What a release offers for a preset; no preset is offered twice. */
  function Offer(release: seq<Payload>, apid: Apid): Option<Content> {
    if release == [] then None
    else if release[|release| - 1].apid == apid then Some(release[|release| - 1].content)
    else Offer(release[..|release| - 1], apid)
  }

  ghost predicate IsRelease(release: seq<Payload>) {
    forall i, j | 0 <= i < j < |release| :: release[i].apid != release[j].apid
  }

  function Startup(fp: Content -> string, c: Cell, offer: Option<Content>): Cell {
    if offer.None? then c else Seeded(fp, c, offer.value)
  }

  /** The revisions a startup records. */
  function Writes(fp: Content -> string, rows: map<Apid, Row>, meta: map<Apid, string>, release: seq<Payload>)
    : seq<Revision>
  {
    if release == [] then []
    else
      var p := release[|release| - 1];
      Writes(fp, rows, meta, release[..|release| - 1])
      + if Replaces(fp, CellOf(rows, meta, p.apid), p.content) then [Revision(p.apid, p.content, Seed)] else []
  }

  class PresetStores {
    var rows: map<Apid, Row>
    var meta: map<Apid, string>
    var revisions: seq<Revision>

    constructor ()
      ensures rows == map[] && meta == map[] && revisions == []
    {
      rows, meta, revisions := map[], map[], [];
    }

    method WriteDefault(fp: Content -> string, p: Payload, source: Source)
      modifies this
      ensures rows == old(rows)[p.apid := Row(p.content, true)]
      ensures meta == old(meta)[p.apid := fp(p.content)]
      ensures revisions == old(revisions) + [Revision(p.apid, p.content, source)]
    {
      rows := rows[p.apid := Row(p.content, true)];
      meta := meta[p.apid := fp(p.content)];
      revisions := revisions + [Revision(p.apid, p.content, source)];
    }

    /** The body of the startup loop. */
    method SeedOne(fp: Content -> string, p: Payload) returns (wrote: bool)
      modifies this
      ensures wrote <==> Replaces(fp, CellOf(old(rows), old(meta), p.apid), p.content)
      ensures CellOf(rows, meta, p.apid) == Seeded(fp, CellOf(old(rows), old(meta), p.apid), p.content)
      ensures forall apid | apid != p.apid :: CellOf(rows, meta, apid) == CellOf(old(rows), old(meta), apid)
      ensures revisions == old(revisions) + if wrote then [Revision(p.apid, p.content, Seed)] else []
    {
      if p.apid !in rows {
        WriteDefault(fp, p, Seed);
        return true;
      }
      var recorded := if p.apid in meta then meta[p.apid] else "";
      var current := fp(rows[p.apid].content);
      if current == fp(p.content) {
        if recorded != fp(p.content) {
          meta := meta[p.apid := fp(p.content)];
        }
        return false;
      }
      wrote := recorded != "" && recorded == current;
      if wrote {
        WriteDefault(fp, p, Seed);
      }
    }

    /** `ensure_system_agents_seeded`. */
    method EnsureSeeded(fp: Content -> string, release: seq<Payload>) returns (written: nat)
      requires IsRelease(release)
      modifies this
      ensures forall apid ::
                CellOf(rows, meta, apid) == Startup(fp, CellOf(old(rows), old(meta), apid), Offer(release, apid))
      ensures revisions == old(revisions) + Writes(fp, old(rows), old(meta), release)
      ensures written == |Writes(fp, old(rows), old(meta), release)|
    {
      written := 0;
      for i := 0 to |release|
        invariant forall apid ::
          CellOf(rows, meta, apid) == Startup(fp, CellOf(old(rows), old(meta), apid), Offer(release[..i], apid))
        invariant revisions == old(revisions) + Writes(fp, old(rows), old(meta), release[..i])
        invariant written == |Writes(fp, old(rows), old(meta), release[..i])|
      {
        OfferNext(release, i);
        assert release[..i + 1][..i] == release[..i];
        var wrote := SeedOne(fp, release[i]);
        written := written + if wrote then 1 else 0;
      }
      assert release[..|release|] == release;
    }

    /** `apply_system_agent_default`, nothing for a preset that is not built in. */
    method ApplyDefault(fp: Content -> string, release: seq<Payload>, apid: Apid) returns (found: bool)
      modifies this
      ensures found <==> Offer(release, apid).Some?
      ensures found ==> CellOf(rows, meta, apid)
                        == Cell(Some(Row(Offer(release, apid).value, true)), fp(Offer(release, apid).value))
      ensures forall other | other != apid || !found :: CellOf(rows, meta, other) == CellOf(old(rows), old(meta), other)
      ensures revisions == old(revisions)
                           + if found then [Revision(apid, Offer(release, apid).value, RestoreDefault)] else []
    {
      var offer := Offer(release, apid);
      found := offer.Some?;
      if found {
        WriteDefault(fp, Payload(apid, offer.value), RestoreDefault);
      }
    }
  }

  lemma {:induction false} OfferNext(release: seq<Payload>, i: nat)
    requires IsRelease(release) && i < |release|
    ensures Offer(release[..i], release[i].apid) == None
    ensures forall apid :: Offer(release[..i + 1], apid)
                           == if apid == release[i].apid then Some(release[i].content) else Offer(release[..i], apid)
  {
    assert release[..i + 1][..i] == release[..i];
    NotOffered(release[..i], release[i].apid);
  }

  lemma {:induction false} NotOffered(release: seq<Payload>, apid: Apid)
    requires forall i | 0 <= i < |release| :: release[i].apid != apid
    ensures Offer(release, apid) == None
  {
    if release != [] {
      NotOffered(release[..|release| - 1], apid);
    }
  }

  // ----- what a startup may do -----

  /** A startup changes a row only if it is missing or its content is the recorded built-in, and then to
      the built-in of the release; it enables the row exactly when it writes it. */
  lemma StartupTheorem(fp: Content -> string, c: Cell, d: Content)
    requires IsFingerprint(fp)
    ensures var after := Seeded(fp, c, d);
            && after.row.Some?
            && (after.row != c.row ==> c.row.None? || c.recorded == fp(c.row.value.content))
            && (c.row.Some? && c.recorded != fp(c.row.value.content) ==> after.row == c.row)
            && (c.row.Some? && c.recorded == fp(c.row.value.content) ==> after.row.value.content == d)
            && (c.row.Some? && !c.row.value.enabled && after.row.value.enabled <==>
                && c.row.Some? && !c.row.value.enabled
                && c.recorded == fp(c.row.value.content) && c.row.value.content != d)
  {
  }

  /** A second startup on the same release writes nothing, not even a fingerprint. */
  lemma SecondStartupWritesNothing(fp: Content -> string, c: Cell, d: Content)
    requires IsFingerprint(fp)
    ensures !Replaces(fp, Seeded(fp, c, d), d) && Seeded(fp, Seeded(fp, c, d), d) == Seeded(fp, c, d)
  {
  }

  lemma {:induction false} SecondStartupRecordsNothing(
    fp: Content -> string, rows: map<Apid, Row>, meta: map<Apid, string>,
    rows': map<Apid, Row>, meta': map<Apid, string>, release: seq<Payload>, n: nat)
    requires IsFingerprint(fp) && IsRelease(release) && n <= |release|
    requires forall apid :: CellOf(rows', meta', apid) == Startup(fp, CellOf(rows, meta, apid), Offer(release, apid))
    ensures Writes(fp, rows', meta', release[..n]) == []
    ensures forall apid :: Startup(fp, CellOf(rows', meta', apid), Offer(release, apid)) == CellOf(rows', meta', apid)
  {
    forall apid
      ensures Startup(fp, CellOf(rows', meta', apid), Offer(release, apid)) == CellOf(rows', meta', apid)
    {
      if Offer(release, apid).Some? {
        SecondStartupWritesNothing(fp, CellOf(rows, meta, apid), Offer(release, apid).value);
      }
    }
    if n > 0 {
      SecondStartupRecordsNothing(fp, rows, meta, rows', meta', release, n - 1);
      var p := release[n - 1];
      OfferAt(release, n - 1);
      SecondStartupWritesNothing(fp, CellOf(rows, meta, p.apid), p.content);
      assert release[..n][..n - 1] == release[..n - 1];
    }
  }

  lemma {:induction false} OfferAt(release: seq<Payload>, i: nat)
    requires IsRelease(release) && i < |release|
    ensures Offer(release, release[i].apid) == Some(release[i].content)
  {
    if i < |release| - 1 {
      OfferAt(release[..|release| - 1], i);
    }
  }

  // ----- one preset over any history -----

  datatype Event = Save(row: Row) | Restore(content: Content) | Boot(content: Content)

  function Apply(fp: Content -> string, c: Cell, e: Event): Cell {
    match e
    case Save(row) => c.(row := Some(row))
    case Restore(content) => Cell(Some(Row(content, true)), fp(content))
    case Boot(content) => Seeded(fp, c, content)
  }

  function After(fp: Content -> string, c: Cell, events: seq<Event>): Cell {
    if events == [] then c else Apply(fp, After(fp, c, events[..|events| - 1]), events[|events| - 1])
  }

  function NextBuiltin(before: Cell, last: Option<Content>, e: Event): Option<Content> {
    match e
    case Save(_) => last
    case Restore(content) => Some(content)
    case Boot(content) =>
      if before.row.None? || before.row.value.content == content || last == Some(before.row.value.content)
      then Some(content) else last
  }

  /** The built-in that was last written, or last found to be what the row already held. */
  function LastBuiltin(fp: Content -> string, events: seq<Event>): Option<Content> {
    if events == [] then None
    else
      var init := events[..|events| - 1];
      NextBuiltin(After(fp, Cell(None, ""), init), LastBuiltin(fp, init), events[|events| - 1])
  }

  function FingerprintOf(fp: Content -> string, last: Option<Content>): string {
    if last.Some? then fp(last.value) else ""
  }

  lemma ReplacesLastBuiltin(fp: Content -> string, c: Cell, last: Option<Content>, d: Content)
    requires IsFingerprint(fp) && c.recorded == FingerprintOf(fp, last)
    ensures Replaces(fp, c, d)
       <==> c.row.None? || (last == Some(c.row.value.content) && c.row.value.content != d)
  {
  }

  lemma RecordNext(fp: Content -> string, c: Cell, last: Option<Content>, e: Event)
    requires IsFingerprint(fp) && c.recorded == FingerprintOf(fp, last)
    ensures Apply(fp, c, e).recorded == FingerprintOf(fp, NextBuiltin(c, last, e))
  {
    if e.Boot? {
      ReplacesLastBuiltin(fp, c, last, e.content);
    }
  }

  /** Over any history the recorded fingerprint is that of the last built-in. */
  lemma {:induction false} RecordTheorem(fp: Content -> string, events: seq<Event>)
    requires IsFingerprint(fp)
    ensures After(fp, Cell(None, ""), events).recorded == FingerprintOf(fp, LastBuiltin(fp, events))
  {
    if events != [] {
      var init := events[..|events| - 1];
      RecordTheorem(fp, init);
      RecordNext(fp, After(fp, Cell(None, ""), init), LastBuiltin(fp, init), events[|events| - 1]);
    }
  }

  /** A save leaves what was saved and the record as it was; a restore leaves the built-in, switched on, and
      its fingerprint, whatever was there. */
  lemma SavesAndRestores(fp: Content -> string, c: Cell, events: seq<Event>, row: Row, d: Content)
    ensures After(fp, c, events + [Save(row)]).row == Some(row)
    ensures After(fp, c, events + [Save(row)]).recorded == After(fp, c, events).recorded
    ensures After(fp, c, events + [Restore(d)]) == Cell(Some(Row(d, true)), fp(d))
  {
    assert (events + [Save(row)])[..|events|] == events && (events + [Restore(d)])[..|events|] == events;
  }

  /** After any history a startup replaces a row exactly when it is missing, or holds the last built-in
      and the release offers another one. */
  lemma ReplacedIff(fp: Content -> string, events: seq<Event>, d: Content)
    requires IsFingerprint(fp)
    ensures var c := After(fp, Cell(None, ""), events);
            Replaces(fp, c, d)
            <==> c.row.None? || (LastBuiltin(fp, events) == Some(c.row.value.content) && c.row.value.content != d)
  {
    RecordTheorem(fp, events);
    ReplacesLastBuiltin(fp, After(fp, Cell(None, ""), events), LastBuiltin(fp, events), d);
  }

  // ----- what happens to a user's edit over many releases -----

  function AfterReleases(fp: Content -> string, c: Cell, ds: seq<Content>): Cell {
    if ds == [] then c else Seeded(fp, AfterReleases(fp, c, ds[..|ds| - 1]), ds[|ds| - 1])
  }

  /** The content after any number of upgrades: a content that is the recorded built-in, or becomes one
      because a release offers exactly it, follows the releases from then on; any other stays. */
  lemma {:induction false} UpgradeTheorem(fp: Content -> string, row: Row, recorded: string, ds: seq<Content>)
    requires IsFingerprint(fp)
    ensures var c := row.content;
            var after := AfterReleases(fp, Cell(Some(row), recorded), ds);
            var builtin := recorded == fp(c) || c in ds;
            && after.row.Some?
            && after.row.value.content == (if builtin && ds != [] then ds[|ds| - 1] else c)
            && after.recorded == (if builtin && ds != [] then fp(ds[|ds| - 1]) else recorded)
  {
    if ds != [] {
      var init, last := ds[..|ds| - 1], ds[|ds| - 1];
      UpgradeTheorem(fp, row, recorded, init);
      assert ds == init + [last];
    }
  }

  /** So an edit survives exactly when it was not the recorded built-in and no release offers it, or
      when the last release offers it. */
  lemma EditSurvivesIff(fp: Content -> string, row: Row, recorded: string, ds: seq<Content>)
    requires IsFingerprint(fp) && ds != []
    ensures AfterReleases(fp, Cell(Some(row), recorded), ds).row.value.content == row.content
       <==> (recorded != fp(row.content) && row.content !in ds) || ds[|ds| - 1] == row.content
  {
    UpgradeTheorem(fp, row, recorded, ds);
  }

  /** The switch of a preset is not covered by the fingerprint: an untouched preset that is off is on
      again after the first startup that brings a changed built-in, and only then. */
  lemma SwitchIsNotAnEdit(fp: Content -> string, content: Content, recorded: string, d: Content)
    requires IsFingerprint(fp)
    ensures Seeded(fp, Cell(Some(Row(content, false)), recorded), d).row.value.enabled
       <==> recorded == fp(content) && content != d
  {
  }
}

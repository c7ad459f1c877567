// The experiment row that several runs and requests load, change in their own copy and write back whole
// (backend/app/shared/agent/experiments.py:110-151, 234-249, 434-460;
// backend/app/api/routers/experiments.py:564-572).
module StoredDocument {
  import opened Common
  import opened Progress

  type ActorId = nat

  /** What a save changes in the copy before it writes the copy back. */
  datatype Change =
    | Complete(completion: Completion)
    | Rename(name: string)
    | SetNotes(notes: string)
    | SetAnnotations(annotations: seq<string>)
    | AppendStep(step: string)

  function Changed(c: Content, e: Change): Content {
    match e
    case Complete(completion) => Recorded(c, completion)
    case Rename(name) => c.(name := name)
    case SetNotes(notes) => c.(notes := notes)
    case SetAnnotations(annotations) => c.(annotations := annotations)
    case AppendStep(step) => c.(steps := c.steps + [step])
  }

  // ----- the row and the objects loaded from it -----

  /** The row in the database. */
  class ExperimentRow {
    var content: Content

    constructor (content: Content)
      ensures this.content == content
    {
      this.content := content;
    }
  }

  /** The object a run or a request has loaded; every save writes the whole of it. */
  class Experiment {
    const row: ExperimentRow
    var content: Content

    /** `get_experiment`. */
    constructor (row: ExperimentRow)
      ensures this.row == row && content == row.content
    {
      this.row, content := row, row.content;
    }

    /** `record_step_progress`, one lock region. It reads the loaded object, not the row. */
    method RecordStepProgress(d: Completion)
      modifies this, row
      ensures content == Changed(old(content), Complete(d)) && row.content == content
    {
      var record := RecordOf(content, d.step);
      var done := record.variants;
      if d.id !in done {
        done := done + [d.id];
      }
      var beforeMap := record.before;
      if d.id !in beforeMap {
        beforeMap := beforeMap[d.id := d.before];
      }
      content := content.(runs := content.runs[d.step := record.(variants := done, before := beforeMap)]);
      row.content := content;
    }

    /** `_save_content`: each field that is given replaces the loaded one. */
    method SaveContent(steps: Option<seq<string>>, annotations: Option<seq<string>>, notes: Option<string>)
      modifies this, row
      ensures row.content == content
      ensures content == old(content).(
                           steps := if steps.Some? then steps.value else old(content).steps,
                           annotations := if annotations.Some? then annotations.value else old(content).annotations,
                           notes := if notes.Some? then notes.value else old(content).notes)
    {
      if steps.Some? {
        content := content.(steps := steps.value);
      }
      if annotations.Some? {
        content := content.(annotations := annotations.value);
      }
      if notes.Some? {
        content := content.(notes := notes.value);
      }
      row.content := content;
    }

    method Append(step: string)
      modifies this, row
      ensures content == Changed(old(content), AppendStep(step)) && row.content == content
    {
      SaveContent(Some(content.steps + [step]), None, None);
    }

    method UpdateAnnotations(annotations: seq<string>)
      modifies this, row
      ensures content == Changed(old(content), SetAnnotations(annotations)) && row.content == content
    {
      SaveContent(None, Some(annotations), None);
    }

    /** `set_notes`: up to two saves of the same object. */
    method Describe(name: Option<string>, notes: Option<string>)
      modifies this, row
      ensures var named := if name.Some? then Changed(old(content), Rename(name.value)) else old(content);
              content == if notes.Some? then Changed(named, SetNotes(notes.value)) else named
      ensures row.content == if name.Some? || notes.Some? then content else old(row.content)
    {
      if name.Some? {
        content := content.(name := name.value);
        row.content := content;
      }
      if notes.Some? {
        SaveContent(None, None, notes);
      }
    }
  }

  // ----- any actors -----

  datatype Action = Load(actor: ActorId) | Save(actor: ActorId, change: Change)

  /** A document and, in order, the positions of the saves it includes. */
  datatype Copy = Copy(content: Content, saves: seq<nat>)

  datatype World = World(stored: Copy, copies: map<ActorId, Copy>)

  /** Action `i`: a load copies the row, a save changes the copy and overwrites the row with it. */
  ghost predicate Step(w: World, i: nat, a: Action, w': World) {
    match a
    case Load(actor) => w' == w.(copies := w.copies[actor := w.stored])
    case Save(actor, e) =>
      && actor in w.copies
      && var copy := Copy(Changed(w.copies[actor].content, e), w.copies[actor].saves + [i]);
         w' == World(copy, w.copies[actor := copy])
  }

  ghost predicate StepAt(actions: seq<Action>, ws: seq<World>, i: nat)
    requires i < |actions| && |ws| == |actions| + 1
  {
    Step(ws[i], i, actions[i], ws[i + 1])
  }

  ghost predicate IsRun(c: Content, actions: seq<Action>, ws: seq<World>) {
    && |ws| == |actions| + 1 && ws[0] == World(Copy(c, []), map[])
    && forall i: nat | i < |actions| :: StepAt(actions, ws, i)
  }

  // ----- what a document holds -----

  predicate IsSave(actions: seq<Action>, i: nat) {
    i < |actions| && actions[i].Save?
  }

  /** Positions of saves that have happened before position `n`. */
  ghost predicate AreSaves(actions: seq<Action>, saves: seq<nat>, n: nat) {
    forall k | 0 <= k < |saves| :: saves[k] < n && IsSave(actions, saves[k])
  }

  /** The first document with the given saves applied in order. */
  ghost function Folded(c: Content, actions: seq<Action>, saves: seq<nat>): Content
    requires AreSaves(actions, saves, |actions|)
  {
    if saves == [] then c
    else Changed(Folded(c, actions, saves[..|saves| - 1]), actions[saves[|saves| - 1]].change)
  }

  ghost predicate IsDocument(c: Content, actions: seq<Action>, copy: Copy, n: nat) {
    n <= |actions| && AreSaves(actions, copy.saves, n) && copy.content == Folded(c, actions, copy.saves)
  }

  lemma DocumentSaved(c: Content, actions: seq<Action>, copy: Copy, n: nat, m: nat)
    requires IsDocument(c, actions, copy, n) && n <= m < |actions| && actions[m].Save?
    ensures IsDocument(c, actions, Copy(Changed(copy.content, actions[m].change), copy.saves + [m]), m + 1)
  {
    assert (copy.saves + [m])[..|copy.saves|] == copy.saves;
  }

  /** The row and every copy are the first document with the saves they include. */
  lemma {:induction false} DocumentsHold(c: Content, actions: seq<Action>, ws: seq<World>, n: nat)
    requires IsRun(c, actions, ws) && n <= |actions|
    ensures IsDocument(c, actions, ws[n].stored, n)
    ensures forall a | a in ws[n].copies :: IsDocument(c, actions, ws[n].copies[a], n)
  {
    if n > 0 {
      DocumentsHold(c, actions, ws, n - 1);
      assert StepAt(actions, ws, n - 1);
      if actions[n - 1].Save? {
        DocumentSaved(c, actions, ws[n - 1].copies[actions[n - 1].actor], n - 1, n - 1);
      }
    }
  }

  /** Save `i` recorded this step for this variant. */
  predicate Completes(actions: seq<Action>, i: nat, step: nat, id: VariantId) {
    && i < |actions| && actions[i].Save? && actions[i].change.Complete?
    && Finishes(actions[i].change.completion, step, id)
  }

  /** One of these saves recorded the step for the variant. */
  ghost predicate AnyCompletes(actions: seq<Action>, saves: seq<nat>, step: nat, id: VariantId) {
    exists k | 0 <= k < |saves| :: Completes(actions, saves[k], step, id)
  }

  lemma AnyCompletesNext(actions: seq<Action>, saves: seq<nat>, i: nat, step: nat, id: VariantId)
    ensures AnyCompletes(actions, saves + [i], step, id)
       <==> AnyCompletes(actions, saves, step, id) || Completes(actions, i, step, id)
  {
    var more := saves + [i];
    assert more[|saves|] == i;
    if k :| 0 <= k < |saves| && Completes(actions, saves[k], step, id) {
      assert more[k] == saves[k];
    }
  }

  lemma {:induction false} FoldedDone(c: Content, actions: seq<Action>, saves: seq<nat>, step: nat, id: VariantId)
    requires AreSaves(actions, saves, |actions|)
    ensures id in Done(Folded(c, actions, saves), step)
       <==> id in Done(c, step) || AnyCompletes(actions, saves, step, id)
  {
    if saves != [] {
      var init, last := saves[..|saves| - 1], saves[|saves| - 1];
      assert saves == init + [last];
      assert IsSave(actions, last);
      AnyCompletesNext(actions, init, last, step, id);
      FoldedDone(c, actions, init, step, id);
      DoneAfterChange(Folded(c, actions, init), actions[last].change, step, id);
    }
  }

  lemma DoneAfterChange(c: Content, e: Change, step: nat, id: VariantId)
    ensures id in Done(Changed(c, e), step)
       <==> id in Done(c, step) || (e.Complete? && Finishes(e.completion, step, id))
  {
    if e.Complete? {
      RecordedEffect(c, e.completion, step, id);
    }
  }

  /** A completion shows in the row exactly when it was there at first or one of the saves that the row
      includes recorded it. */
  lemma StoredDoneIff(c: Content, actions: seq<Action>, ws: seq<World>, n: nat, step: nat, id: VariantId)
    requires IsRun(c, actions, ws) && n <= |actions|
    ensures id in Done(ws[n].stored.content, step)
       <==> id in Done(c, step) || AnyCompletes(actions, ws[n].stored.saves, step, id)
  {
    DocumentsHold(c, actions, ws, n);
    FoldedDone(c, actions, ws[n].stored.saves, step, id);
  }

  // ----- edits of the other fields -----

  datatype Field = Name | Notes | Annotations

  predicate Sets(e: Change, field: Field) {
    match field
    case Name => e.Rename?
    case Notes => e.SetNotes?
    case Annotations => e.SetAnnotations?
  }

  /** The last of the saves that sets the field. */
  function Latest(actions: seq<Action>, saves: seq<nat>, field: Field): (e: Option<Change>)
    ensures e.Some? ==> Sets(e.value, field)
  {
    if saves == [] then None
    else
      var last := saves[|saves| - 1];
      if last < |actions| && actions[last].Save? && Sets(actions[last].change, field) then Some(actions[last].change)
      else Latest(actions, saves[..|saves| - 1], field)
  }

  function Appended(actions: seq<Action>, saves: seq<nat>): seq<string> {
    if saves == [] then []
    else
      var before, last := Appended(actions, saves[..|saves| - 1]), saves[|saves| - 1];
      if last < |actions| && actions[last].Save? && actions[last].change.AppendStep?
      then before + [actions[last].change.step] else before
  }

  /** Every field is what the last included save of it set, or what it was at first. */
  ghost predicate FieldsAre(c: Content, actions: seq<Action>, saves: seq<nat>, d: Content) {
    && d.prefix == c.prefix && d.steps == c.steps + Appended(actions, saves)
    && (var e := Latest(actions, saves, Name); d.name == if e.Some? then e.value.name else c.name)
    && (var e := Latest(actions, saves, Notes); d.notes == if e.Some? then e.value.notes else c.notes)
    && (var e := Latest(actions, saves, Annotations);
        d.annotations == if e.Some? then e.value.annotations else c.annotations)
  }

  lemma {:induction false} FoldedFields(c: Content, actions: seq<Action>, saves: seq<nat>)
    requires AreSaves(actions, saves, |actions|)
    ensures FieldsAre(c, actions, saves, Folded(c, actions, saves))
  {
    if saves != [] {
      var init, last := saves[..|saves| - 1], saves[|saves| - 1];
      assert saves == init + [last];
      assert IsSave(actions, last);
      FoldedFields(c, actions, init);
      FieldsAfterChange(c, actions, init, last, Folded(c, actions, init));
    }
  }

  lemma FieldsAfterChange(c: Content, actions: seq<Action>, saves: seq<nat>, i: nat, d: Content)
    requires FieldsAre(c, actions, saves, d) && i < |actions| && actions[i].Save?
    ensures FieldsAre(c, actions, saves + [i], Changed(d, actions[i].change))
  {
    assert (saves + [i])[..|saves|] == saves;
  }

  lemma StoredFields(c: Content, actions: seq<Action>, ws: seq<World>, n: nat)
    requires IsRun(c, actions, ws) && n <= |actions|
    ensures FieldsAre(c, actions, ws[n].stored.saves, ws[n].stored.content)
  {
    DocumentsHold(c, actions, ws, n);
    FoldedFields(c, actions, ws[n].stored.saves);
  }

  // ----- which saves the row includes -----

  /** The actor of save `j` loaded its copy after save `i`. */
  ghost predicate LoadedBetween(actions: seq<Action>, i: nat, j: nat, actor: ActorId)
    requires j <= |actions|
  {
    exists l: nat | i < l < j :: actions[l] == Load(actor)
  }

  ghost predicate Knows(actions: seq<Action>, i: nat, j: nat)
    requires i < j < |actions|
  {
    actions[j].actor == actions[i].actor || LoadedBetween(actions, i, j, actions[j].actor)
  }

  /** While every save since `i` knew it, a copy includes it exactly when it is its author's or was loaded
      later. */
  ghost predicate Spread(actions: seq<Action>, w: World, i: nat, m: nat)
    requires i < m <= |actions|
  {
    && i in w.stored.saves
    && forall a | a in w.copies ::
         i in w.copies[a].saves <==> a == actions[i].actor || LoadedBetween(actions, i, m, a)
  }

  lemma SpreadStarts(c: Content, actions: seq<Action>, ws: seq<World>, i: nat)
    requires IsRun(c, actions, ws) && i < |actions| && actions[i].Save?
    ensures Spread(actions, ws[i + 1], i, i + 1)
  {
    DocumentsHold(c, actions, ws, i);
    assert StepAt(actions, ws, i);
  }

  lemma SpreadStep(actions: seq<Action>, w: World, w': World, i: nat, m: nat)
    requires i < m < |actions| && Spread(actions, w, i, m) && Step(w, m, actions[m], w')
    ensures actions[m].Save? ==> (i in w'.stored.saves <==> Knows(actions, i, m))
    ensures actions[m].Load? || Knows(actions, i, m) ==> Spread(actions, w', i, m + 1)
  {
    forall a
      ensures LoadedBetween(actions, i, m + 1, a) <==> LoadedBetween(actions, i, m, a) || actions[m] == Load(a)
    {
      if LoadedBetween(actions, i, m, a) {
        var l: nat :| i < l < m && actions[l] == Load(a);
        assert i < l < m + 1;
      }
    }
  }

  lemma {:induction false} KnownSavesSpread(c: Content, actions: seq<Action>, ws: seq<World>, i: nat, m: nat)
    requires IsRun(c, actions, ws) && i < m <= |actions| && actions[i].Save?
    requires forall j: nat | i < j < m && actions[j].Save? :: Knows(actions, i, j)
    ensures Spread(actions, ws[m], i, m)
  {
    if m == i + 1 {
      SpreadStarts(c, actions, ws, i);
    } else {
      KnownSavesSpread(c, actions, ws, i, m - 1);
      assert StepAt(actions, ws, m - 1);
      SpreadStep(actions, ws[m - 1], ws[m], i, m - 1);
    }
  }

  /** For any actors, loads and saves in any order: a completion or edit stays in the row up to `n` exactly
      when every later save was its author's own or came from a copy loaded after it. */
  lemma StaysStoredIff(c: Content, actions: seq<Action>, ws: seq<World>, i: nat, n: nat)
    requires IsRun(c, actions, ws) && i < n <= |actions| && actions[i].Save?
    ensures (forall m: nat | i < m <= n :: i in ws[m].stored.saves)
       <==> forall j: nat | i < j < n && actions[j].Save? :: Knows(actions, i, j)
  {
    if forall j: nat | i < j < n && actions[j].Save? :: Knows(actions, i, j) {
      forall m: nat | i < m <= n
        ensures i in ws[m].stored.saves
      {
        KnownSavesSpread(c, actions, ws, i, m);
      }
    } else {
      var j := FirstIgnorant(actions, i, n);
      KnownSavesSpread(c, actions, ws, i, j);
      assert StepAt(actions, ws, j);
      SpreadStep(actions, ws[j], ws[j + 1], i, j);
      assert i !in ws[j + 1].stored.saves;
    }
  }

  lemma FirstIgnorant(actions: seq<Action>, i: nat, n: nat) returns (j: nat)
    requires i < n <= |actions| && exists j: nat | i < j < n && actions[j].Save? :: !Knows(actions, i, j)
    ensures i < j < n && actions[j].Save? && !Knows(actions, i, j)
    ensures forall k: nat | i < k < j && actions[k].Save? :: Knows(actions, i, k)
  {
    j := i + 1;
    while actions[j].Load? || Knows(actions, i, j)
      invariant i < j < n
      invariant forall k: nat | i < k < j && actions[k].Save? :: Knows(actions, i, k)
      invariant exists k: nat | j <= k < n && actions[k].Save? :: !Knows(actions, i, k)
      decreases n - j
    {
      j := j + 1;
    }
  }

  /** So no update is ever lost exactly when every save came from a copy loaded after the last save of
      anybody else. */
  lemma NothingIsLostIff(c: Content, actions: seq<Action>, ws: seq<World>)
    requires IsRun(c, actions, ws)
    ensures (forall i: nat, m: nat | i < m <= |actions| && actions[i].Save? :: i in ws[m].stored.saves)
       <==> forall i: nat, j: nat | i < j < |actions| && actions[i].Save? && actions[j].Save? :: Knows(actions, i, j)
  {
    forall i: nat | i < |actions| && actions[i].Save?
      ensures (forall m: nat | i < m <= |actions| :: i in ws[m].stored.saves)
         <==> forall j: nat | i < j < |actions| && actions[j].Save? :: Knows(actions, i, j)
    {
      StaysStoredIff(c, actions, ws, i, |actions|);
    }
  }

  // ----- the row at one moment -----

  /** Position `l` is the last load of `actor` before `j`. */
  ghost predicate IsLastLoad(actions: seq<Action>, l: nat, j: nat, actor: ActorId)
    requires j <= |actions|
  {
    l < j && actions[l] == Load(actor) && forall k: nat | l < k < j :: actions[k] != Load(actor)
  }

  lemma {:induction false} CopyIs(
    c: Content, actions: seq<Action>, ws: seq<World>, l: nat, j: nat, actor: ActorId, i: nat)
    requires IsRun(c, actions, ws) && j <= |actions| && IsLastLoad(actions, l, j, actor)
    ensures actor in ws[j].copies
    ensures i in ws[j].copies[actor].saves
       <==> i in ws[l].stored.saves || (l < i < j && actions[i].Save? && actions[i].actor == actor)
  {
    assert StepAt(actions, ws, j - 1);
    if j > l + 1 {
      CopyIs(c, actions, ws, l, j - 1, actor, i);
    } else {
      DocumentsHold(c, actions, ws, l);
    }
  }

  /** What the row holds after save `j`: that save, its author's saves since the author loaded, and what the
      row held at that load. */
  lemma StoredNowIff(c: Content, actions: seq<Action>, ws: seq<World>, l: nat, j: nat, i: nat)
    requires IsRun(c, actions, ws) && j < |actions| && actions[j].Save? && IsLastLoad(actions, l, j, actions[j].actor)
    ensures i in ws[j + 1].stored.saves
       <==> || i == j
            || (l < i < j && actions[i].Save? && actions[i].actor == actions[j].actor)
            || i in ws[l].stored.saves
  {
    CopyIs(c, actions, ws, l, j, actions[j].actor, i);
    assert StepAt(actions, ws, j);
  }

  /** The failing order, played out: a run that loaded before another run's completion records its own, and
      the other completion is gone. */
  lemma OtherRunErasesCompletion(
    c: Content, a: ActorId, b: ActorId, x: Completion, y: Completion, z: Completion, ws: seq<World>)
    requires a != b && y.id !in Done(c, y.step) && !Finishes(x, y.step, y.id) && !Finishes(z, y.step, y.id)
    requires IsRun(c, [Load(a), Save(a, Complete(x)), Load(b), Save(a, Complete(y)), Save(b, Complete(z))], ws)
    ensures y.id in Done(ws[4].stored.content, y.step) && y.id !in Done(ws[5].stored.content, y.step)
  {
    var actions := [Load(a), Save(a, Complete(x)), Load(b), Save(a, Complete(y)), Save(b, Complete(z))];
    assert StepAt(actions, ws, 0) && StepAt(actions, ws, 1) && StepAt(actions, ws, 2);
    assert StepAt(actions, ws, 3) && StepAt(actions, ws, 4);
    RecordedEffect(c, x, y.step, y.id);
    RecordedEffect(Recorded(c, x), y, y.step, y.id);
    RecordedEffect(Recorded(c, x), z, y.step, y.id);
  }
}

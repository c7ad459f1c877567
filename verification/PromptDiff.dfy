// The line diff of two prompts, aligned into rows (frontend/domain/agent/promptDiff.ts:23-100).
module PromptDiff {
  import opened Common

  datatype Kind = Same | Added | Removed

  /** One piece of an edit script, as the diff library returns it. */
  datatype Part = Part(kind: Kind, value: string)

  datatype Token = Token(kind: Kind, text: string)

  datatype RowKind = ContextRow | ChangedRow | AddedRow | RemovedRow

  datatype Row = Row(
    kind: RowKind, before: Option<string>, after: Option<string>, beforeSegments: seq<Part>, afterSegments: seq<Part>)

  lemma PrefixNext<T>(s: seq<T>, n: nat)
    requires n < |s|
    ensures s[..n + 1] == s[..n] + [s[n]]
  {
  }

  // ----- edit scripts -----

  /** The text an edit script starts from, and the one it leads to. */
  function OldText(parts: seq<Part>): string {
    if parts == [] then ""
    else if parts[|parts| - 1].kind != Added
    then OldText(parts[..|parts| - 1]) + parts[|parts| - 1].value
    else OldText(parts[..|parts| - 1])
  }

  function NewText(parts: seq<Part>): string {
    if parts == [] then ""
    else if parts[|parts| - 1].kind != Removed
    then NewText(parts[..|parts| - 1]) + parts[|parts| - 1].value
    else NewText(parts[..|parts| - 1])
  }

  /** What the library promises: the script leads from one text to the other. */
  predicate IsScript(parts: seq<Part>, before: string, after: string) {
    OldText(parts) == before && NewText(parts) == after
  }

  // ----- lines -----

  function Normalized(value: string): string {
    if value == "" || value[|value| - 1] == '\n' then value else value + "\n"
  }

  /** `split("\n")`. */
  function Split(s: string): (r: seq<string>)
    ensures r != []
  {
    if s == "" then [""]
    else if s[|s| - 1] == '\n' then Split(s[..|s| - 1]) + [""]
    else
      var r := Split(s[..|s| - 1]);
      r[..|r| - 1] + [r[|r| - 1] + [s[|s| - 1]]]
  }

  /** The lines of a part, without the empty string behind its last newline. */
  function Lines(value: string): seq<string> {
    var r := Split(value);
    if |r| > 1 && r[|r| - 1] == "" then r[..|r| - 1] else r
  }

  /** The text of which these are the lines. */
  function Unlines(lines: seq<string>): string {
    if lines == [] then "" else Unlines(lines[..|lines| - 1]) + lines[|lines| - 1] + "\n"
  }

  lemma UnlinesAppend(lines: seq<string>, line: string)
    ensures Unlines(lines + [line]) == Unlines(lines) + line + "\n"
  {
    assert (lines + [line])[..|lines|] == lines;
  }

  lemma {:induction false} UnlinesConcat(a: seq<string>, b: seq<string>)
    ensures Unlines(a + b) == Unlines(a) + Unlines(b)
  {
    if b == [] {
      assert a + b == a;
    } else {
      var init, last := b[..|b| - 1], b[|b| - 1];
      UnlinesConcat(a, init);
      assert a + b == (a + init) + [last];
      UnlinesAppend(a + init, last);
      Associate(Unlines(a), Unlines(init), last, "\n");
    }
  }

  lemma Associate(a: string, b: string, c: string, d: string)
    ensures a + b + c + d == a + (b + c + d)
  {
  }

  /** The pieces, joined by newlines again, are the text. */
  lemma {:induction false} SplitRejoins(s: string)
    ensures Unlines(Split(s)) == s + "\n"
  {
    if s == "" {
      UnlinesAppend([], "");
      assert [] + [""] == [""];
    } else {
      var init, last := s[..|s| - 1], s[|s| - 1];
      SplitRejoins(init);
      var r := Split(init);
      var front, back := r[..|r| - 1], r[|r| - 1];
      assert s == init + [last];
      assert r == front + [back];
      UnlinesAppend(front, back);
      if last == '\n' {
        UnlinesAppend(r, "");
      } else {
        UnlinesAppend(front, back + [last]);
        assert Unlines(front) + back == init by {
          DropNewline(Unlines(front) + back, init);
        }
        assert Unlines(front) + (back + [last]) == Unlines(front) + back + [last];
      }
    }
  }

  lemma DropNewline(a: string, b: string)
    requires a + "\n" == b + "\n"
    ensures a == b
  {
    assert (a + "\n")[..|a|] == a && (b + "\n")[..|b|] == b;
  }

  predicate EndsInNewline(value: string) {
    value != "" && value[|value| - 1] == '\n'
  }

  /** The lines of a part give the part back, and a newline after it if it does not end in one. */
  lemma LinesRejoin(value: string)
    ensures Unlines(Lines(value)) == if EndsInNewline(value) then value else value + "\n"
  {
    SplitRejoins(value);
    if EndsInNewline(value) {
      var init := value[..|value| - 1];
      SplitRejoins(init);
      assert value == init + "\n";
    }
  }

  lemma {:induction false} SplitAtNewlines(s: string)
    ensures forall line | line in Split(s) :: '\n' !in line
  {
    if s != "" {
      var init := s[..|s| - 1];
      SplitAtNewlines(init);
      var r := Split(init);
      assert forall line | line in r[..|r| - 1] :: line in r;
      assert r[|r| - 1] in r;
    }
  }

  /** No line holds a newline, so the lines are all there is between the newlines. */
  lemma LinesHaveNoNewline(value: string)
    ensures forall line | line in Lines(value) :: '\n' !in line
  {
    SplitAtNewlines(value);
    var r := Split(value);
    assert forall line | line in r[..|r| - 1] :: line in r;
  }

  // ----- tokens -----

  function OldLines(tokens: seq<Token>): seq<string> {
    if tokens == [] then []
    else if tokens[|tokens| - 1].kind != Added
    then OldLines(tokens[..|tokens| - 1]) + [tokens[|tokens| - 1].text]
    else OldLines(tokens[..|tokens| - 1])
  }

  function NewLines(tokens: seq<Token>): seq<string> {
    if tokens == [] then []
    else if tokens[|tokens| - 1].kind != Removed
    then NewLines(tokens[..|tokens| - 1]) + [tokens[|tokens| - 1].text]
    else NewLines(tokens[..|tokens| - 1])
  }

  /** The lines both texts share. */
  function SameLines(tokens: seq<Token>): seq<string> {
    if tokens == [] then []
    else if tokens[|tokens| - 1].kind == Same then SameLines(tokens[..|tokens| - 1]) + [tokens[|tokens| - 1].text]
    else SameLines(tokens[..|tokens| - 1])
  }

  function CountOf(tokens: seq<Token>, kind: Kind): nat {
    if tokens == [] then 0
    else CountOf(tokens[..|tokens| - 1], kind) + if tokens[|tokens| - 1].kind == kind then 1 else 0
  }

  lemma TokensAppend(tokens: seq<Token>, t: Token)
    ensures OldLines(tokens + [t]) == (if t.kind != Added then OldLines(tokens) + [t.text] else OldLines(tokens))
    ensures NewLines(tokens + [t]) == (if t.kind != Removed then NewLines(tokens) + [t.text] else NewLines(tokens))
    ensures SameLines(tokens + [t]) == (if t.kind == Same then SameLines(tokens) + [t.text] else SameLines(tokens))
    ensures CountOf(tokens + [t], Added) == CountOf(tokens, Added) + if t.kind == Added then 1 else 0
    ensures CountOf(tokens + [t], Removed) == CountOf(tokens, Removed) + if t.kind == Removed then 1 else 0
  {
    assert (tokens + [t])[..|tokens|] == tokens;
  }

  /** The tokens spell the two texts of the script. */
  ghost predicate Spells(tokens: seq<Token>, parts: seq<Part>) {
    Unlines(OldLines(tokens)) == OldText(parts) && Unlines(NewLines(tokens)) == NewText(parts)
  }

  function EndedPart(part: Part): Part {
    if EndsInNewline(part.value) then part else Part(part.kind, part.value + "\n")
  }

  /** The script with a newline after each part that does not end in one. */
  function Ended(parts: seq<Part>): seq<Part> {
    if parts == [] then [] else Ended(parts[..|parts| - 1]) + [EndedPart(parts[|parts| - 1])]
  }

  predicate AllEnd(parts: seq<Part>) {
    forall i | 0 <= i < |parts| :: EndsInNewline(parts[i].value)
  }

  function Lengths(parts: seq<Part>): nat {
    |OldText(parts)| + |NewText(parts)|
  }

  lemma LengthsAppend(parts: seq<Part>, part: Part)
    ensures Lengths(parts + [part]) == Lengths(parts) + if part.kind == Same then 2 * |part.value| else |part.value|
  {
    PartsAppend(parts, part);
  }

  lemma AllEndAppend(parts: seq<Part>, part: Part)
    ensures AllEnd(parts + [part]) <==> AllEnd(parts) && EndsInNewline(part.value)
  {
    assert forall i | 0 <= i < |parts| :: (parts + [part])[i] == parts[i];
    assert (parts + [part])[|parts|] == part;
  }

  /** A newline that has to be added shows in one of the texts. */
  lemma {:induction false} EndedIsLonger(parts: seq<Part>)
    ensures AllEnd(parts) ==> Ended(parts) == parts
    ensures !AllEnd(parts) ==> Lengths(Ended(parts)) > Lengths(parts)
    ensures Lengths(Ended(parts)) >= Lengths(parts)
  {
    if parts != [] {
      var init, last := parts[..|parts| - 1], parts[|parts| - 1];
      EndedIsLonger(init);
      assert parts == init + [last];
      LengthsAppend(init, last);
      LengthsAppend(Ended(init), EndedPart(last));
      AllEndAppend(init, last);
    }
  }

  lemma SpellsNext(tokens: seq<Token>, more: seq<Token>, parts: seq<Part>, part: Part, lines: seq<string>)
    requires Spells(tokens, Ended(parts)) && lines == Lines(part.value)
    requires OldLines(more) == if part.kind != Added then OldLines(tokens) + lines else OldLines(tokens)
    requires NewLines(more) == if part.kind != Removed then NewLines(tokens) + lines else NewLines(tokens)
    ensures Spells(more, Ended(parts + [part]))
  {
    LinesRejoin(part.value);
    UnlinesConcat(OldLines(tokens), lines);
    UnlinesConcat(NewLines(tokens), lines);
    assert (parts + [part])[..|parts|] == parts;
    PartsAppend(Ended(parts), EndedPart(part));
  }

  /** `toLineTokens`, given the library's edit script: the lines are those of the two texts exactly when
      every part ends in a newline, and otherwise each part that does not gets one. */
  method ToLineTokens(parts: seq<Part>) returns (tokens: seq<Token>)
    ensures Spells(tokens, Ended(parts))
    ensures Spells(tokens, parts) <==> AllEnd(parts)
  {
    tokens := [];
    for i := 0 to |parts|
      invariant Spells(tokens, Ended(parts[..i]))
    {
      var part := parts[i];
      var lines := Lines(part.value);
      var more := PushLines(tokens, part.kind, lines);
      SpellsNext(tokens, more, parts[..i], part, lines);
      PrefixNext(parts, i);
      tokens := more;
    }
    assert parts[..|parts|] == parts;
    EndedIsLonger(parts);
  }

  /** The tokens so far and those of some lines of one kind. */
  ghost predicate Pushed(tokens: seq<Token>, more: seq<Token>, kind: Kind, lines: seq<string>) {
    && OldLines(more) == (if kind != Added then OldLines(tokens) + lines else OldLines(tokens))
    && NewLines(more) == (if kind != Removed then NewLines(tokens) + lines else NewLines(tokens))
  }

  lemma PushedNext(tokens: seq<Token>, more: seq<Token>, kind: Kind, lines: seq<string>, line: string)
    requires Pushed(tokens, more, kind, lines)
    ensures Pushed(tokens, more + [Token(kind, line)], kind, lines + [line])
  {
    TokensAppend(more, Token(kind, line));
  }

  method PushLines(tokens: seq<Token>, kind: Kind, lines: seq<string>) returns (more: seq<Token>)
    ensures Pushed(tokens, more, kind, lines)
  {
    more := tokens;
    for k := 0 to |lines|
      invariant Pushed(tokens, more, kind, lines[..k])
    {
      PushedNext(tokens, more, kind, lines[..k], lines[k]);
      PrefixNext(lines, k);
      more := more + [Token(kind, lines[k])];
    }
    assert lines[..|lines|] == lines;
  }

  // ----- rows -----

  function BeforeColumn(rows: seq<Row>): seq<string> {
    if rows == [] then []
    else if rows[|rows| - 1].before.Some?
    then BeforeColumn(rows[..|rows| - 1]) + [rows[|rows| - 1].before.value]
    else BeforeColumn(rows[..|rows| - 1])
  }

  function AfterColumn(rows: seq<Row>): seq<string> {
    if rows == [] then []
    else if rows[|rows| - 1].after.Some?
    then AfterColumn(rows[..|rows| - 1]) + [rows[|rows| - 1].after.value]
    else AfterColumn(rows[..|rows| - 1])
  }

  /** The lines shown as unchanged. */
  function ContextLines(rows: seq<Row>): seq<string> {
    if rows == [] then []
    else if rows[|rows| - 1].kind == ContextRow && rows[|rows| - 1].before.Some?
    then ContextLines(rows[..|rows| - 1]) + [rows[|rows| - 1].before.value]
    else ContextLines(rows[..|rows| - 1])
  }

  lemma RowsAppend(rows: seq<Row>, r: Row)
    ensures ContextLines(rows + [r])
         == if r.kind == ContextRow && r.before.Some? then ContextLines(rows) + [r.before.value]
            else ContextLines(rows)
    ensures BeforeColumn(rows + [r])
         == if r.before.Some? then BeforeColumn(rows) + [r.before.value] else BeforeColumn(rows)
    ensures AfterColumn(rows + [r])
         == if r.after.Some? then AfterColumn(rows) + [r.after.value] else AfterColumn(rows)
  {
    assert (rows + [r])[..|rows|] == rows;
  }

  /** Each kind of row has the cells and the segments it should have. */
  predicate IsRow(r: Row) {
    match r.kind
    case ContextRow => r.before.Some? && r.after == r.before
    case ChangedRow =>
      && r.before.Some? && r.after.Some?
      && OldText(r.beforeSegments) == r.before.value && NewText(r.afterSegments) == r.after.value
      && (forall p | p in r.beforeSegments :: p.kind != Added) && forall p | p in r.afterSegments :: p.kind != Removed
    case RemovedRow => r.before.Some? && r.after.None?
    case AddedRow => r.before.None? && r.after.Some?
  }

  /** `segmentLinePair`, given the library's edit script for the two lines. */
  method SegmentLinePair(parts: seq<Part>) returns (beforeSegments: seq<Part>, afterSegments: seq<Part>)
    ensures OldText(beforeSegments) == OldText(parts) && NewText(afterSegments) == NewText(parts)
    ensures forall p | p in beforeSegments :: p.kind != Added
    ensures forall p | p in afterSegments :: p.kind != Removed
  {
    beforeSegments, afterSegments := [], [];
    for i := 0 to |parts|
      invariant OldText(beforeSegments) == OldText(parts[..i]) && NewText(afterSegments) == NewText(parts[..i])
      invariant forall p | p in beforeSegments :: p.kind != Added
      invariant forall p | p in afterSegments :: p.kind != Removed
    {
      assert parts[..i + 1][..i] == parts[..i];
      PartsAppend(beforeSegments, parts[i]);
      PartsAppend(afterSegments, parts[i]);
      if parts[i].kind == Added {
        afterSegments := afterSegments + [parts[i]];
      } else if parts[i].kind == Removed {
        beforeSegments := beforeSegments + [parts[i]];
      } else {
        beforeSegments, afterSegments := beforeSegments + [parts[i]], afterSegments + [parts[i]];
      }
    }
    assert parts[..|parts|] == parts;
  }

  lemma PartsAppend(parts: seq<Part>, p: Part)
    ensures OldText(parts + [p]) == (if p.kind != Added then OldText(parts) + p.value else OldText(parts))
    ensures NewText(parts + [p]) == (if p.kind != Removed then NewText(parts) + p.value else NewText(parts))
  {
    assert (parts + [p])[..|parts|] == parts;
  }

  /** What tokens `index` to `next`, all of one kind, add to the lines and the counts. */
  ghost predicate IsRun(tokens: seq<Token>, index: nat, next: nat, kind: Kind, texts: seq<string>)
    requires index <= next <= |tokens|
  {
    var from, upto := tokens[..index], tokens[..next];
    && SameLines(upto) == SameLines(from)
    && if kind == Removed then
      && OldLines(upto) == OldLines(from) + texts && NewLines(upto) == NewLines(from)
      && CountOf(upto, Removed) == CountOf(from, Removed) + |texts| && CountOf(upto, Added) == CountOf(from, Added)
    else
      && OldLines(upto) == OldLines(from) && NewLines(upto) == NewLines(from) + texts
      && CountOf(upto, Added) == CountOf(from, Added) + |texts| && CountOf(upto, Removed) == CountOf(from, Removed)
  }

  lemma RunGrows(tokens: seq<Token>, index: nat, next: nat, kind: Kind, texts: seq<string>)
    requires index <= next < |tokens| && kind != Same && tokens[next].kind == kind
    requires IsRun(tokens, index, next, kind, texts)
    ensures IsRun(tokens, index, next + 1, kind, texts + [tokens[next].text])
  {
    PrefixNext(tokens, next);
    TokensAppend(tokens[..next], tokens[next]);
  }

  method TakeRun(tokens: seq<Token>, index: nat, kind: Kind) returns (texts: seq<string>, next: nat)
    requires index <= |tokens| && kind != Same
    ensures index <= next <= |tokens| && |texts| == next - index
    ensures next < |tokens| ==> tokens[next].kind != kind
    ensures next > index ==> tokens[index].kind == kind
    ensures IsRun(tokens, index, next, kind, texts)
  {
    texts, next := [], index;
    while next < |tokens| && tokens[next].kind == kind
      invariant index <= next <= |tokens| && |texts| == next - index
      invariant next > index ==> tokens[index].kind == kind
      invariant IsRun(tokens, index, next, kind, texts)
    {
      RunGrows(tokens, index, next, kind, texts);
      texts, next := texts + [tokens[next].text], next + 1;
    }
  }

  /** Removed and added lines are paired as far as they go: no removed row stands before an added one. */
  predicate IsPaired(rows: seq<Row>) {
    forall i | 0 <= i < |rows| - 1 :: !(rows[i].kind == RemovedRow && rows[i + 1].kind == AddedRow)
  }

  predicate EndsRemoved(rows: seq<Row>) {
    rows != [] && rows[|rows| - 1].kind == RemovedRow
  }

  ghost predicate AreRows(rows: seq<Row>) {
    IsPaired(rows) && forall r | r in rows :: IsRow(r)
  }

  lemma RowsGrow(rows: seq<Row>, r: Row)
    requires AreRows(rows) && IsRow(r) && !(EndsRemoved(rows) && r.kind == AddedRow)
    ensures AreRows(rows + [r])
  {
  }

  /** Row `k` of a group has the `k`-th removed and the `k`-th added line, as far as there are any. */
  ghost predicate IsGroupRow(r: Row, k: nat, removed: seq<string>, added: seq<string>) {
    && IsRow(r) && r.kind != ContextRow
    && r.before == (if k < |removed| then Some(removed[k]) else None)
    && r.after == (if k < |added| then Some(added[k]) else None)
  }

  ghost predicate IsGroup(group: seq<Row>, removed: seq<string>, added: seq<string>) {
    forall k | 0 <= k < |group| :: IsGroupRow(group[k], k, removed, added)
  }

  lemma GroupGrows(group: seq<Row>, r: Row, removed: seq<string>, added: seq<string>)
    requires IsGroup(group, removed, added) && IsGroupRow(r, |group|, removed, added)
    ensures IsGroup(group + [r], removed, added)
  {
  }

  /** The row of a removed line and the added line it is paired with. */
  method PairRow(removed: string, added: string, pairs: (string, string) -> seq<Part>) returns (r: Row)
    requires forall a, b :: IsScript(pairs(a, b), a, b)
    ensures IsRow(r) && r.kind == ChangedRow && r.before == Some(removed) && r.after == Some(added)
  {
    assert IsScript(pairs(removed, added), removed, added);
    var beforeSegments, afterSegments := SegmentLinePair(pairs(removed, added));
    r := Row(ChangedRow, Some(removed), Some(added), beforeSegments, afterSegments);
  }

  /** The rows of one group of removed and added lines, no more than the longer of the two. `pairs` are
      the library's scripts for two lines. */
  method GroupRows(removed: seq<string>, added: seq<string>, pairs: (string, string) -> seq<Part>)
    returns (group: seq<Row>)
    requires forall a, b :: IsScript(pairs(a, b), a, b)
    ensures |group| == Max(|removed|, |added|) && IsGroup(group, removed, added)
  {
    group := [];
    var paired: nat := Min(|removed|, |added|);
    for pair := 0 to paired
      invariant |group| == pair && IsGroup(group, removed, added)
    {
      var r := PairRow(removed[pair], added[pair], pairs);
      GroupGrows(group, r, removed, added);
      group := group + [r];
    }
    for extra := paired to |removed|
      invariant |group| == extra && IsGroup(group, removed, added)
    {
      var r := Row(RemovedRow, Some(removed[extra]), None, [], []);
      GroupGrows(group, r, removed, added);
      group := group + [r];
    }
    for extra := paired to |added|
      invariant |group| == Max(|removed|, extra) && IsGroup(group, removed, added)
    {
      var r := Row(AddedRow, None, Some(added[extra]), [], []);
      GroupGrows(group, r, removed, added);
      group := group + [r];
    }
  }

  lemma {:induction false} GroupColumns(group: seq<Row>, removed: seq<string>, added: seq<string>)
    requires IsGroup(group, removed, added)
    ensures BeforeColumn(group) == removed[..Min(|group|, |removed|)]
    ensures AfterColumn(group) == added[..Min(|group|, |added|)]
    ensures ContextLines(group) == []
  {
    if group != [] {
      var k := |group| - 1;
      assert IsGroupRow(group[k], k, removed, added);
      GroupColumns(group[..k], removed, added);
      RowsAppend(group[..k], group[k]);
      assert group == group[..k] + [group[k]];
      if k < |removed| {
        PrefixNext(removed, k);
      }
      if k < |added| {
        PrefixNext(added, k);
      }
    }
  }

  lemma Regroup(a: seq<string>, b: seq<string>, line: string)
    ensures a + b + [line] == a + (b + [line])
  {
  }

  lemma {:induction false} ColumnsConcat(rows: seq<Row>, group: seq<Row>)
    ensures BeforeColumn(rows + group) == BeforeColumn(rows) + BeforeColumn(group)
    ensures AfterColumn(rows + group) == AfterColumn(rows) + AfterColumn(group)
    ensures ContextLines(rows + group) == ContextLines(rows) + ContextLines(group)
  {
    if group == [] {
      assert rows + group == rows;
    } else {
      ColumnsConcat(rows, group[..|group| - 1]);
      ColumnsSnoc(rows, group[..|group| - 1], group[|group| - 1]);
      assert group == group[..|group| - 1] + [group[|group| - 1]];
    }
  }

  lemma ColumnsSnoc(rows: seq<Row>, init: seq<Row>, last: Row)
    requires BeforeColumn(rows + init) == BeforeColumn(rows) + BeforeColumn(init)
    requires AfterColumn(rows + init) == AfterColumn(rows) + AfterColumn(init)
    requires ContextLines(rows + init) == ContextLines(rows) + ContextLines(init)
    ensures BeforeColumn(rows + (init + [last])) == BeforeColumn(rows) + BeforeColumn(init + [last])
    ensures AfterColumn(rows + (init + [last])) == AfterColumn(rows) + AfterColumn(init + [last])
    ensures ContextLines(rows + (init + [last])) == ContextLines(rows) + ContextLines(init + [last])
  {
    assert rows + (init + [last]) == (rows + init) + [last];
    RowsAppend(rows + init, last);
    RowsAppend(init, last);
    if last.before.Some? {
      Regroup(BeforeColumn(rows), BeforeColumn(init), last.before.value);
      Regroup(ContextLines(rows), ContextLines(init), last.before.value);
    }
    if last.after.Some? {
      Regroup(AfterColumn(rows), AfterColumn(init), last.after.value);
    }
  }

  lemma GroupIsPaired(rows: seq<Row>, group: seq<Row>, removed: seq<string>, added: seq<string>)
    requires AreRows(rows) && IsGroup(group, removed, added) && (EndsRemoved(rows) ==> removed != [])
    ensures AreRows(rows + group)
    ensures EndsRemoved(rows + group) ==> |removed| > |added| || (group == [] && EndsRemoved(rows))
  {
    var more := rows + group;
    forall i | 0 <= i < |more| - 1
      ensures !(more[i].kind == RemovedRow && more[i + 1].kind == AddedRow)
    {
      if i >= |rows| {
        assert more[i] == group[i - |rows|] && more[i + 1] == group[i + 1 - |rows|];
      } else if i == |rows| - 1 {
        assert more[i] == rows[i] && more[i + 1] == group[0];
      } else {
        assert more[i] == rows[i] && more[i + 1] == rows[i + 1];
      }
    }
  }

  /** The rows so far and those of the next group. */
  method PushGroup(rows: seq<Row>, removed: seq<string>, added: seq<string>, pairs: (string, string) -> seq<Part>)
    returns (more: seq<Row>)
    requires AreRows(rows) && (EndsRemoved(rows) ==> removed != [])
    requires forall a, b :: IsScript(pairs(a, b), a, b)
    ensures AreRows(more) && ContextLines(more) == ContextLines(rows)
    ensures BeforeColumn(more) == BeforeColumn(rows) + removed && AfterColumn(more) == AfterColumn(rows) + added
    ensures |more| == |rows| + Max(|removed|, |added|)
    ensures EndsRemoved(more) ==> removed != []
  {
    var group := GroupRows(removed, added, pairs);
    GroupColumns(group, removed, added);
    ColumnsConcat(rows, group);
    GroupIsPaired(rows, group, removed, added);
    more := rows + group;
  }

  /** The rows up to `index` hold the lines up to `index`. */
  ghost predicate Aligned(tokens: seq<Token>, index: nat, rows: seq<Row>, addedLines: nat, removedLines: nat) {
    && index <= |tokens| && AreRows(rows)
    && BeforeColumn(rows) == OldLines(tokens[..index]) && AfterColumn(rows) == NewLines(tokens[..index])
    && ContextLines(rows) == SameLines(tokens[..index])
    && addedLines == CountOf(tokens[..index], Added) && removedLines == CountOf(tokens[..index], Removed)
    && (EndsRemoved(rows) && index < |tokens| ==> tokens[index].kind != Added)
  }

  lemma AlignedNext(
    tokens: seq<Token>, index: nat, middle: nat, next: nat, rows: seq<Row>, more: seq<Row>,
    removed: seq<string>, added: seq<string>, addedLines: nat, removedLines: nat)
    requires Aligned(tokens, index, rows, addedLines, removedLines)
    requires index <= middle <= next <= |tokens| && (next < |tokens| ==> tokens[next].kind != Added)
    requires IsRun(tokens, index, middle, Removed, removed) && IsRun(tokens, middle, next, Added, added)
    requires AreRows(more) && ContextLines(more) == ContextLines(rows)
    requires BeforeColumn(more) == BeforeColumn(rows) + removed && AfterColumn(more) == AfterColumn(rows) + added
    ensures Aligned(tokens, next, more, addedLines + |added|, removedLines + |removed|)
  {
  }

  /** `buildPromptDiff` on the line tokens: for every edit script the non-null cells of the two columns
      are the old and the new lines in order, and the counts are those of the script. */
  method BuildRows(tokens: seq<Token>, pairs: (string, string) -> seq<Part>)
    returns (rows: seq<Row>, addedLines: nat, removedLines: nat)
    requires forall a, b :: IsScript(pairs(a, b), a, b)
    ensures BeforeColumn(rows) == OldLines(tokens) && AfterColumn(rows) == NewLines(tokens)
    ensures addedLines == CountOf(tokens, Added) && removedLines == CountOf(tokens, Removed)
    ensures AreRows(rows) && ContextLines(rows) == SameLines(tokens)
  {
    rows, addedLines, removedLines := [], 0, 0;
    var index: nat := 0;
    while index < |tokens|
      invariant Aligned(tokens, index, rows, addedLines, removedLines)
      decreases |tokens| - index
    {
      if tokens[index].kind == Same {
        rows := PushContext(tokens, index, rows, addedLines, removedLines);
        index := index + 1;
        continue;
      }
      var removed, middle := TakeRun(tokens, index, Removed);
      var added, next := TakeRun(tokens, middle, Added);
      var more := PushGroup(rows, removed, added, pairs);
      AlignedNext(tokens, index, middle, next, rows, more, removed, added, addedLines, removedLines);
      rows, addedLines, removedLines, index := more, addedLines + |added|, removedLines + |removed|, next;
    }
    assert tokens[..index] == tokens;
  }

  method PushContext(tokens: seq<Token>, index: nat, rows: seq<Row>, ghost addedLines: nat, ghost removedLines: nat)
    returns (more: seq<Row>)
    requires index < |tokens| && tokens[index].kind == Same && Aligned(tokens, index, rows, addedLines, removedLines)
    ensures Aligned(tokens, index + 1, more, addedLines, removedLines)
  {
    var r := Row(ContextRow, Some(tokens[index].text), Some(tokens[index].text), [], []);
    RowsAppend(rows, r);
    RowsGrow(rows, r);
    PrefixNext(tokens, index);
    TokensAppend(tokens[..index], tokens[index]);
    more := rows + [r];
  }

  /** `buildPromptDiff`, given the library's line script for the normalised texts: the columns spell the
      texts exactly when every part of the script ends in a newline, and otherwise each part that does
      not gets one. */
  method BuildPromptDiff(before: string, after: string, parts: seq<Part>, pairs: (string, string) -> seq<Part>)
    returns (rows: seq<Row>, addedLines: nat, removedLines: nat)
    requires IsScript(parts, Normalized(before), Normalized(after))
    requires forall a, b :: IsScript(pairs(a, b), a, b)
    ensures Unlines(BeforeColumn(rows)) == Normalized(before) && Unlines(AfterColumn(rows)) == Normalized(after)
       <==> AllEnd(parts)
    ensures Unlines(BeforeColumn(rows)) == OldText(Ended(parts)) && Unlines(AfterColumn(rows)) == NewText(Ended(parts))
    ensures addedLines == |AfterColumn(rows)| - |ContextLines(rows)|
    ensures removedLines == |BeforeColumn(rows)| - |ContextLines(rows)|
    ensures AreRows(rows)
  {
    var tokens := ToLineTokens(parts);
    rows, addedLines, removedLines := BuildRows(tokens, pairs);
    LinesAreCounted(tokens);
  }

  /** The new lines are the shared and the added ones, the old lines the shared and the removed ones. */
  lemma {:induction false} LinesAreCounted(tokens: seq<Token>)
    ensures |NewLines(tokens)| == |SameLines(tokens)| + CountOf(tokens, Added)
    ensures |OldLines(tokens)| == |SameLines(tokens)| + CountOf(tokens, Removed)
  {
    if tokens != [] {
      LinesAreCounted(tokens[..|tokens| - 1]);
    }
  }
}

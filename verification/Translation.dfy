// Translating chat texts through an agent that sees only short tags
// (backend/app/shared/agent/translation.py:36-123; backend/app/translation_jobs.py:48-75).
module Translation {
  import opened Common

  const NO_NEED_TO_TRANSLATE := "NO_NEED_TO_TRANSLATE"
  const ABNORMAL_MESSAGE := "ABNORMAL_MESSAGE"
  const CHUNK_SIZE := 50

  /** `str.isspace`, `str.upper` and the salted hash, whatever they are. */
  datatype Env = Env(space: char -> bool, upper: string -> string, hash: (string, nat) -> string)

  // ----- cleaning -----

  function TrimLeft(env: Env, s: string): string {
    if s != "" && env.space(s[0]) then TrimLeft(env, s[1..]) else s
  }

  function TrimRight(env: Env, s: string): string {
    if s != "" && env.space(s[|s| - 1]) then TrimRight(env, s[..|s| - 1]) else s
  }

  function Strip(env: Env, s: string): string {
    TrimRight(env, TrimLeft(env, s))
  }

  predicate Stripped(env: Env, s: string) {
    s == "" || (!env.space(s[0]) && !env.space(s[|s| - 1]))
  }

  lemma {:induction false} TrimRightKeepsFirst(env: Env, s: string)
    requires s != "" && !env.space(s[0])
    ensures var t := TrimRight(env, s);
            t != "" && t[0] == s[0] && !env.space(t[|t| - 1])
  {
    if env.space(s[|s| - 1]) {
      TrimRightKeepsFirst(env, s[..|s| - 1]);
    }
  }

  lemma {:induction false} TrimLeftStops(env: Env, s: string)
    ensures var t := TrimLeft(env, s);
            t == "" || !env.space(t[0])
  {
    if s != "" && env.space(s[0]) {
      TrimLeftStops(env, s[1..]);
    }
  }

  lemma StripIsStripped(env: Env, s: string)
    ensures Stripped(env, Strip(env, s))
    ensures Stripped(env, s) ==> Strip(env, s) == s
  {
    var t := TrimLeft(env, s);
    TrimLeftStops(env, s);
    if t != "" {
      TrimRightKeepsFirst(env, t);
    }
  }

  /** All the characters are spaces. */
  predicate Spaces(env: Env, s: string) {
    forall c | c in s :: env.space(c)
  }

  lemma {:induction false} TrimLeftDropsSpaces(env: Env, s: string) returns (left: string)
    ensures s == left + TrimLeft(env, s) && Spaces(env, left)
  {
    if s != "" && env.space(s[0]) {
      var rest := TrimLeftDropsSpaces(env, s[1..]);
      left := [s[0]] + rest;
      assert s == [s[0]] + s[1..];
    } else {
      left := "";
    }
  }

  lemma {:induction false} TrimRightDropsSpaces(env: Env, s: string) returns (right: string)
    ensures s == TrimRight(env, s) + right && Spaces(env, right)
  {
    if s != "" && env.space(s[|s| - 1]) {
      var rest := TrimRightDropsSpaces(env, s[..|s| - 1]);
      right := rest + [s[|s| - 1]];
      assert s == s[..|s| - 1] + [s[|s| - 1]];
    } else {
      right := "";
    }
  }

  /** Trimming takes away only spaces, and only at the two ends. */
  lemma StripTheorem(env: Env, s: string) returns (left: string, right: string)
    ensures s == left + Strip(env, s) + right && Spaces(env, left) && Spaces(env, right)
    ensures Stripped(env, Strip(env, s))
  {
    left := TrimLeftDropsSpaces(env, s);
    right := TrimRightDropsSpaces(env, TrimLeft(env, s));
    StripIsStripped(env, s);
  }

  /** First occurrences, in order. */
  function Dedupe(s: seq<string>): seq<string> {
    if s == [] then []
    else
      var before, last := Dedupe(s[..|s| - 1]), s[|s| - 1];
      if last in before then before else before + [last]
  }

  function StripAll(env: Env, texts: seq<string>): seq<string> {
    if texts == [] then []
    else
      var rest, t := StripAll(env, texts[..|texts| - 1]), Strip(env, texts[|texts| - 1]);
      if t == "" then rest else rest + [t]
  }

  function Clean(env: Env, texts: seq<string>): seq<string> {
    Dedupe(StripAll(env, texts))
  }

  /** What every later stage relies on. */
  ghost predicate IsClean(env: Env, texts: seq<string>) {
    Distinct(texts) && forall t | t in texts :: t != "" && Stripped(env, t)
  }

  lemma {:induction false} DedupeTheorem(s: seq<string>)
    ensures Distinct(Dedupe(s)) && forall t :: t in Dedupe(s) <==> t in s
    ensures Distinct(s) ==> Dedupe(s) == s
  {
    if s != [] {
      var init, last := s[..|s| - 1], s[|s| - 1];
      assert s == init + [last];
      DedupeTheorem(init);
      if Distinct(s) {
        assert last !in init;
      }
    }
  }

  lemma {:induction false} StripAllTheorem(env: Env, texts: seq<string>)
    ensures forall t | t in StripAll(env, texts) :: t != "" && Stripped(env, t)
    ensures forall t ::
              t in StripAll(env, texts) <==> t != "" && exists i | 0 <= i < |texts| :: Strip(env, texts[i]) == t
    ensures (forall t | t in texts :: t != "" && Stripped(env, t)) ==> StripAll(env, texts) == texts
  {
    if texts != [] {
      var init, last := texts[..|texts| - 1], texts[|texts| - 1];
      assert texts == init + [last];
      StripAllTheorem(env, init);
      StripIsStripped(env, last);
      if forall t | t in texts :: t != "" && Stripped(env, t) {
        assert last in texts && forall t | t in init :: t in texts;
        assert StripAll(env, texts) == init + [last];
      }
    }
  }

  /** The cleaned list holds each trimmed non-empty text once, and cleaning it again changes nothing. */
  lemma CleanTheorem(env: Env, texts: seq<string>)
    ensures IsClean(env, Clean(env, texts))
    ensures forall t :: t in Clean(env, texts) <==> t != "" && exists i | 0 <= i < |texts| :: Strip(env, texts[i]) == t
    ensures IsClean(env, texts) ==> Clean(env, texts) == texts
  {
    StripAllTheorem(env, texts);
    DedupeTheorem(StripAll(env, texts));
  }

  lemma {:induction false} DedupePrefix(s: seq<string>, k: nat)
    requires k <= |s|
    ensures Dedupe(s[..k]) <= Dedupe(s)
  {
    if k < |s| {
      var init := s[..|s| - 1];
      assert init[..k] == s[..k];
      DedupePrefix(init, k);
    } else {
      assert s[..k] == s;
    }
  }

  lemma {:induction false} StripAllPrefix(env: Env, texts: seq<string>, k: nat)
    requires k <= |texts|
    ensures StripAll(env, texts[..k]) <= StripAll(env, texts)
  {
    if k < |texts| {
      var init := texts[..|texts| - 1];
      assert init[..k] == texts[..k];
      StripAllPrefix(env, init, k);
    } else {
      assert texts[..k] == texts;
    }
  }

  /** Texts keep the order in which they first occur: what the first `k` of them give comes first. */
  lemma CleanKeepsOrder(env: Env, texts: seq<string>, k: nat)
    requires k <= |texts|
    ensures Clean(env, texts[..k]) <= Clean(env, texts)
  {
    StripAllPrefix(env, texts, k);
    var before, all := StripAll(env, texts[..k]), StripAll(env, texts);
    assert all[..|before|] == before;
    DedupePrefix(all, |before|);
  }

  // ----- tags -----

  ghost predicate Injective<T(!new), H(!new)>(m: map<T, H>) {
    forall t, u | t in m && u in m && m[t] == m[u] :: t == u
  }

  ghost predicate Escapes<T(!new), H(!new)>(hash: (T, nat) -> H, text: T, used: set<H>) {
    exists salt: nat :: hash(text, salt) !in used
  }

  /** The assumption under which tags can be found: no text's salted hashes stay inside `size` tags. */
  ghost predicate HashIsRich<T(!new), H(!new)>(hash: (T, nat) -> H, size: nat) {
    forall text: T, used: set<H> | |used| <= size :: Escapes(hash, text, used)
  }

  method FreshShortHash<T(==,!new), H(==,!new)>(hash: (T, nat) -> H, text: T, used: set<H>)
    returns (candidate: H, used': set<H>)
    requires Escapes(hash, text, used)
    ensures candidate !in used && used' == used + {candidate}
    ensures exists salt: nat :: candidate == hash(text, salt) && forall s: nat | s < salt :: hash(text, s) in used
  {
    ghost var enough: nat :| hash(text, enough) !in used;
    var salt: nat := 0;
    candidate := hash(text, salt);
    while candidate in used
      invariant salt <= enough && candidate == hash(text, salt)
      invariant forall s: nat | s < salt :: hash(text, s) in used
      decreases enough - salt
    {
      salt := salt + 1;
      candidate := hash(text, salt);
    }
    used' := used + {candidate};
  }

  predicate Covers<T(!new), H(!new)>(used: set<H>, m: map<T, H>) {
    forall t | t in m :: m[t] in used
  }

  lemma {:induction false} ValuesBound<T(!new), H(!new)>(keys: set<T>, m: map<T, H>) returns (values: set<H>)
    requires keys <= m.Keys
    ensures values == (set k | k in keys :: m[k]) && |values| <= |keys|
    decreases |keys|
  {
    if k :| k in keys {
      var rest := ValuesBound(keys - {k}, m);
      values := rest + {m[k]};
    } else {
      values := {};
    }
  }

  lemma ValuesCover<T(!new), H(!new)>(m: map<T, H>)
    ensures Covers(m.Values, m) && |m.Values| <= |m|
  {
    var values := ValuesBound(m.Keys, m);
    assert values == m.Values;
  }

  /** `mapping` extends `annotate` by distinct tags for texts of `all`; `used` holds the tags taken. */
  ghost predicate Extends<T(!new), H(!new)>(annotate: map<T, H>, all: set<T>, mapping: map<T, H>, used: set<H>) {
    && Injective(mapping) && Covers(used, mapping) && |used| <= |mapping.Keys|
    && annotate.Keys <= mapping.Keys <= all
    && forall t | t in annotate :: mapping[t] == annotate[t]
  }

  lemma RoomLeft<T(!new), H(!new)>(
    hash: (T, nat) -> H, annotate: map<T, H>, all: set<T>, mapping: map<T, H>, used: set<H>, text: T)
    requires Extends(annotate, all, mapping, used) && HashIsRich(hash, |all|)
    ensures Escapes(hash, text, used)
  {
    SubsetSize(mapping.Keys, all);
  }

  lemma TagAdded<T(!new), H(!new)>(
    annotate: map<T, H>, all: set<T>, mapping: map<T, H>, used: set<H>, text: T, tag: H)
    requires Extends(annotate, all, mapping, used) && text in all && text !in mapping && tag !in used
    ensures Extends(annotate, all, mapping[text := tag], used + {tag})
  {
    InjectiveNext(mapping, used, text, tag);
    KeysNext(mapping, text, tag);
  }

  lemma KeysNext<T(!new), H(!new)>(m: map<T, H>, text: T, tag: H)
    requires text !in m
    ensures m[text := tag].Keys == m.Keys + {text} && |m[text := tag].Keys| == |m.Keys| + 1
  {
  }

  lemma InjectiveNext<T(!new), H(!new)>(m: map<T, H>, used: set<H>, text: T, tag: H)
    requires Injective(m) && Covers(used, m) && tag !in used
    ensures Injective(m[text := tag]) && Covers(used + {tag}, m[text := tag])
  {
  }

  /** `assign_short_hashes`, and the topping up of a given map, which is the same loop. */
  method TopUp<T(==,!new), H(==,!new)>(hash: (T, nat) -> H, annotate: map<T, H>, texts: seq<T>)
    returns (mapping: map<T, H>)
    requires Injective(annotate) && HashIsRich(hash, |annotate.Keys + Elements(texts)|)
    ensures Injective(mapping)
    ensures mapping.Keys == annotate.Keys + Elements(texts)
    ensures forall t | t in annotate :: mapping[t] == annotate[t]
  {
    ghost var all := annotate.Keys + Elements(texts);
    mapping := annotate;
    var used := mapping.Values;
    ValuesCover(mapping);
    for i := 0 to |texts|
      invariant Extends(annotate, all, mapping, used)
      invariant forall k | 0 <= k < i :: texts[k] in mapping
    {
      var text := texts[i];
      if text !in mapping {
        RoomLeft(hash, annotate, all, mapping, used, text);
        var candidate, used' := FreshShortHash(hash, text, used);
        TagAdded(annotate, all, mapping, used, text, candidate);
        mapping, used := mapping[text := candidate], used';
      }
    }
  }

  // ----- answers -----

  /** What one answer means for the text it belongs to. */
  datatype Meaning = Abnormal | Save(translation: string)

  function MeaningOf(env: Env, raw: Option<string>): Meaning {
    var value := if raw.None? then NO_NEED_TO_TRANSLATE else Strip(env, raw.value);
    if env.upper(value) == ABNORMAL_MESSAGE then Abnormal
    else if env.upper(value) == NO_NEED_TO_TRANSLATE then Save("")
    else Save(value)
  }

  type Answers = map<string, Option<string>>

  predicate IsSaved(env: Env, answers: Answers, tag: string) {
    tag in answers && MeaningOf(env, answers[tag]).Save?
  }

  /** The row of one text after a call. */
  function RowAfter(env: Env, answers: Answers, tag: string, row: Option<string>): Option<string> {
    if IsSaved(env, answers, tag) then Some(MeaningOf(env, answers[tag]).translation) else row
  }

  /** What becomes of a row: without an answer it stays; a null answer, or one that says in any case that there is
      nothing to translate, is stored as the empty text; one that says that the message is abnormal is not
      stored; any other is stored as it is, trimmed. */
  lemma AnswerIsStored(env: Env, answers: Answers, tag: string, row: Option<string>)
    requires env.upper("NO_NEED_TO_TRANSLATE") == "NO_NEED_TO_TRANSLATE"
    ensures var row' := RowAfter(env, answers, tag, row);
            && (tag !in answers ==> row' == row)
            && (tag in answers && answers[tag].None? ==> row' == Some(""))
            && (tag in answers && answers[tag].Some? ==>
                  var value := Strip(env, answers[tag].value);
                  && (env.upper(value) == "ABNORMAL_MESSAGE" ==> row' == row)
                  && (env.upper(value) == "NO_NEED_TO_TRANSLATE" ==> row' == Some(""))
                  && (env.upper(value) != "ABNORMAL_MESSAGE" && env.upper(value) != "NO_NEED_TO_TRANSLATE" ==>
                        row' == Some(value)))
  {
  }

  function RowOf(rows: map<string, string>, text: string): Option<string> {
    if text in rows then Some(rows[text]) else None
  }

  /** The answer given for `t` does not reach the row of `u`. */
  predicate Isolated(
    env: Env, mapping: map<string, string>, t: string, u: string, answers: Answers, raw: Option<string>)
    requires t in mapping && u in mapping
  {
    RowAfter(env, answers[mapping[t] := raw], mapping[u], None) == RowAfter(env, answers, mapping[u], None)
  }

  /** No answer given for one text reaches another text, whatever the answers, exactly when the tags are
      distinct; `hello` stands for any answer that is saved as it is. */
  lemma IsolationIff(env: Env, mapping: map<string, string>, hello: string)
    requires MeaningOf(env, Some(hello)) == Save(hello)
    ensures Injective(mapping) <==>
            forall t, u, answers, raw | t in mapping && u in mapping && t != u ::
              Isolated(env, mapping, t, u, answers, raw)
  {
    if !Injective(mapping) {
      var t, u :| t in mapping && u in mapping && mapping[t] == mapping[u] && t != u;
      assert !Isolated(env, mapping, t, u, map[], Some(hello));
    }
  }

  datatype Count = Count(saved: nat, omitted: nat, abnormal: nat)

  function CountOf(env: Env, targets: seq<string>, mapping: map<string, string>, answers: Answers): Count
    requires forall t | t in targets :: t in mapping
  {
    if targets == [] then Count(0, 0, 0)
    else
      var c, last := CountOf(env, targets[..|targets| - 1], mapping, answers), targets[|targets| - 1];
      if mapping[last] !in answers then c.(omitted := c.omitted + 1)
      else if IsSaved(env, answers, mapping[last]) then c.(saved := c.saved + 1)
      else c.(abnormal := c.abnormal + 1)
  }

  lemma {:induction false} CountTheorem(env: Env, targets: seq<string>, mapping: map<string, string>, answers: Answers)
    requires forall t | t in targets :: t in mapping
    ensures var c := CountOf(env, targets, mapping, answers);
            && c.saved + c.omitted + c.abnormal == |targets|
            && (c.omitted == 0 <==> forall t | t in targets :: mapping[t] in answers)
  {
    if targets != [] {
      var init, last := targets[..|targets| - 1], targets[|targets| - 1];
      assert targets == init + [last];
      CountTheorem(env, init, mapping, answers);
    }
  }

  /** The texts whose answer stores a row, and those without an answer. */
  function Stores(env: Env, targets: seq<string>, mapping: map<string, string>, answers: Answers): set<string>
    requires forall t | t in targets :: t in mapping
  {
    set t | t in targets && RowAfter(env, answers, mapping[t], None).Some?
  }

  function Omits(targets: seq<string>, mapping: map<string, string>, answers: Answers): set<string>
    requires forall t | t in targets :: t in mapping
  {
    set t | t in targets && mapping[t] !in answers
  }

  lemma StoresNext(env: Env, targets: seq<string>, last: string, mapping: map<string, string>, answers: Answers)
    requires last !in targets && last in mapping && forall t | t in targets :: t in mapping
    ensures |Stores(env, targets + [last], mapping, answers)|
         == |Stores(env, targets, mapping, answers)| + if IsSaved(env, answers, mapping[last]) then 1 else 0
  {
    var before := Stores(env, targets, mapping, answers);
    if IsSaved(env, answers, mapping[last]) {
      assert Stores(env, targets + [last], mapping, answers) == before + {last};
    } else {
      assert Stores(env, targets + [last], mapping, answers) == before;
    }
  }

  lemma OmitsNext(targets: seq<string>, last: string, mapping: map<string, string>, answers: Answers)
    requires last !in targets && last in mapping && forall t | t in targets :: t in mapping
    ensures |Omits(targets + [last], mapping, answers)|
         == |Omits(targets, mapping, answers)| + if mapping[last] !in answers then 1 else 0
  {
    var before := Omits(targets, mapping, answers);
    if mapping[last] !in answers {
      assert Omits(targets + [last], mapping, answers) == before + {last};
    } else {
      assert Omits(targets + [last], mapping, answers) == before;
    }
  }

  /** The counts are of those texts. */
  lemma {:induction false} CountsAre(env: Env, targets: seq<string>, mapping: map<string, string>, answers: Answers)
    requires Distinct(targets) && forall t | t in targets :: t in mapping
    ensures CountOf(env, targets, mapping, answers).saved == |Stores(env, targets, mapping, answers)|
    ensures CountOf(env, targets, mapping, answers).omitted == |Omits(targets, mapping, answers)|
  {
    if targets != [] {
      var init, last := targets[..|targets| - 1], targets[|targets| - 1];
      CountsAre(env, init, mapping, answers);
      StoresNext(env, init, last, mapping, answers);
      OmitsNext(init, last, mapping, answers);
      assert targets == init + [last];
    }
  }

  // ----- one call -----

  /** The agent's reply, or the exception that the call, the parsing or the `failAt`-th write raised. */
  datatype Reply = Answered(answers: Answers, failAt: Option<nat>) | NoReply

  datatype Outcome = Done(count: Count) | Raised

  function Targets(env: Env, texts: seq<string>, force: bool, rows: map<string, string>): seq<string> {
    Uncached(Clean(env, texts), force, rows)
  }

  function Uncached(texts: seq<string>, force: bool, rows: map<string, string>): (r: seq<string>)
    ensures |r| <= |texts| && forall t :: t in r <==> t in texts && (force || t !in rows)
  {
    if texts == [] then []
    else
      var before, last := Uncached(texts[..|texts| - 1], force, rows), texts[|texts| - 1];
      assert texts == texts[..|texts| - 1] + [last];
      if force || last !in rows then before + [last] else before
  }

  lemma {:induction false} UncachedKeepsOrder(texts: seq<string>, force: bool, rows: map<string, string>, k: nat)
    requires k <= |texts|
    ensures Uncached(texts[..k], force, rows) <= Uncached(texts, force, rows)
  {
    if k < |texts| {
      var init := texts[..|texts| - 1];
      assert init[..k] == texts[..k];
      UncachedKeepsOrder(init, force, rows, k);
    } else {
      assert texts[..k] == texts;
    }
  }

  lemma {:induction false} UncachedKeepsClean(env: Env, texts: seq<string>, force: bool, rows: map<string, string>)
    requires IsClean(env, texts)
    ensures IsClean(env, Uncached(texts, force, rows))
  {
    if texts != [] {
      var init := texts[..|texts| - 1];
      assert texts == init + [texts[|texts| - 1]];
      assert forall t | t in init :: t in texts;
      assert IsClean(env, init);
      UncachedKeepsClean(env, init, force, rows);
      assert texts[|texts| - 1] !in init;
    }
  }

  /** `rows'` is `rows` with the row of each of the first `n` targets set by the answer to its own tag. */
  ghost predicate Applied(
    env: Env, targets: seq<string>, n: nat, mapping: map<string, string>, answers: Answers,
    rows: map<string, string>, rows': map<string, string>)
    requires n <= |targets| && forall t | t in targets :: t in mapping
  {
    forall t :: RowOf(rows', t) ==
                if t in targets[..n] then RowAfter(env, answers, mapping[t], RowOf(rows, t)) else RowOf(rows, t)
  }

  lemma AppliedNext(
    env: Env, targets: seq<string>, n: nat, mapping: map<string, string>, answers: Answers,
    rows: map<string, string>, rows': map<string, string>)
    requires n < |targets| && Distinct(targets) && forall t | t in targets :: t in mapping
    requires Applied(env, targets, n, mapping, answers, rows, rows')
    ensures !IsSaved(env, answers, mapping[targets[n]]) ==> Applied(env, targets, n + 1, mapping, answers, rows, rows')
    ensures IsSaved(env, answers, mapping[targets[n]]) ==>
              Applied(env, targets, n + 1, mapping, answers, rows,
                      rows'[targets[n] := MeaningOf(env, answers[mapping[targets[n]]]).translation])
  {
    assert targets[..n + 1] == targets[..n] + [targets[n]];
    assert targets[n] !in targets[..n];
  }

  lemma CountNext(env: Env, targets: seq<string>, n: nat, mapping: map<string, string>, answers: Answers)
    requires n < |targets| && forall t | t in targets :: t in mapping
    ensures var c, tag := CountOf(env, targets[..n], mapping, answers), mapping[targets[n]];
            CountOf(env, targets[..n + 1], mapping, answers)
            == if tag !in answers then c.(omitted := c.omitted + 1)
               else if IsSaved(env, answers, tag) then c.(saved := c.saved + 1)
               else c.(abnormal := c.abnormal + 1)
  {
    assert targets[..n + 1][..n] == targets[..n];
  }

  /** The loop over the answered items, after `n` of them. */
  ghost predicate Written(
    env: Env, targets: seq<string>, n: nat, tags: map<string, string>, answers: Answers, failAt: Option<nat>,
    rows: map<string, string>, rows': map<string, string>, count: Count)
    requires forall t | t in targets :: t in tags
  {
    && n <= |targets| && Applied(env, targets, n, tags, answers, rows, rows')
    && count == CountOf(env, targets[..n], tags, answers)
    && (failAt.Some? ==> count.saved <= failAt.value)
  }

  lemma NotWritten(
    env: Env, targets: seq<string>, n: nat, tags: map<string, string>, answers: Answers, failAt: Option<nat>,
    rows: map<string, string>, rows': map<string, string>, count: Count)
    requires n < |targets| && Distinct(targets) && forall t | t in targets :: t in tags
    requires Written(env, targets, n, tags, answers, failAt, rows, rows', count)
    requires !IsSaved(env, answers, tags[targets[n]])
    ensures Written(env, targets, n + 1, tags, answers, failAt, rows, rows',
                    if tags[targets[n]] in answers then count.(abnormal := count.abnormal + 1)
                    else count.(omitted := count.omitted + 1))
  {
    AppliedNext(env, targets, n, tags, answers, rows, rows');
    CountNext(env, targets, n, tags, answers);
  }

  lemma RowWritten(
    env: Env, targets: seq<string>, n: nat, tags: map<string, string>, answers: Answers, failAt: Option<nat>,
    rows: map<string, string>, rows': map<string, string>, count: Count)
    requires n < |targets| && Distinct(targets) && forall t | t in targets :: t in tags
    requires Written(env, targets, n, tags, answers, failAt, rows, rows', count)
    requires IsSaved(env, answers, tags[targets[n]]) && failAt != Some(count.saved)
    ensures Written(env, targets, n + 1, tags, answers, failAt, rows,
                    rows'[targets[n] := MeaningOf(env, answers[tags[targets[n]]]).translation],
                    count.(saved := count.saved + 1))
  {
    AppliedNext(env, targets, n, tags, answers, rows, rows');
    CountNext(env, targets, n, tags, answers);
  }

  class TranslationCache {
    var rows: map<string, string>

    constructor ()
      ensures rows == map[]
    {
      rows := map[];
    }

    /** The loop over the answered items. */
    method Write(env: Env, targets: seq<string>, tags: map<string, string>, answers: Answers, failAt: Option<nat>)
      returns (outcome: Outcome, written: nat)
      requires Distinct(targets) && forall t | t in targets :: t in tags
      modifies this
      ensures written <= |targets| && Applied(env, targets, written, tags, answers, old(rows), rows)
      ensures outcome.Done? ==> written == |targets| && outcome.count == CountOf(env, targets, tags, answers)
      ensures outcome.Done? ==> failAt.None? || outcome.count.saved <= failAt.value
      ensures outcome.Raised? ==> written < |targets| && IsSaved(env, answers, tags[targets[written]])
                                  && failAt == Some(CountOf(env, targets[..written], tags, answers).saved)
    {
      var count := Count(0, 0, 0);
      written := 0;
      while written < |targets|
        invariant Written(env, targets, written, tags, answers, failAt, old(rows), rows, count)
      {
        var text, tag := targets[written], tags[targets[written]];
        if tag !in answers {
          NotWritten(env, targets, written, tags, answers, failAt, old(rows), rows, count);
          count := count.(omitted := count.omitted + 1);
        } else {
          match MeaningOf(env, answers[tag])
          case Abnormal =>
            NotWritten(env, targets, written, tags, answers, failAt, old(rows), rows, count);
            count := count.(abnormal := count.abnormal + 1);
          case Save(translation) =>
            if failAt == Some(count.saved) {
              return Raised, written;
            }
            RowWritten(env, targets, written, tags, answers, failAt, old(rows), rows, count);
            rows := rows[text := translation];
            count := count.(saved := count.saved + 1);
        }
        written := written + 1;
      }
      assert targets[..written] == targets;
      outcome := Done(count);
    }

    /** `translate_texts_to_crm`. Every write for a text is the agent's answer to that text's own tag,
        and the tags are distinct, also when the call raises half way. */
    method Translate(env: Env, texts: seq<string>, force: bool, annotate: map<string, string>, reply: Reply)
      returns (outcome: Outcome, ghost mapping: map<string, string>, ghost written: nat)
      requires Injective(annotate) && HashIsRich(env.hash, |annotate.Keys + Elements(Clean(env, texts))|)
      modifies this
      ensures Injective(mapping) && forall t | t in annotate :: t in mapping && mapping[t] == annotate[t]
      ensures CallEffect(env, Targets(env, texts, force, old(rows)), mapping, reply, outcome, written, old(rows), rows)
    {
      var targets := Targets(env, texts, force, rows);
      CleanTheorem(env, texts);
      UncachedKeepsClean(env, Clean(env, texts), force, rows);
      mapping, written := annotate, 0;
      if targets == [] {
        outcome := Done(Count(0, 0, 0));
        return;
      }
      SubsetSize(annotate.Keys + Elements(targets), annotate.Keys + Elements(Clean(env, texts)));
      RichEnough(env.hash, |annotate.Keys + Elements(targets)|, |annotate.Keys + Elements(Clean(env, texts))|);
      var tags := TopUp(env.hash, annotate, targets);
      mapping := tags;
      assert forall t | t in targets :: t in tags;
      match reply
      case NoReply =>
        outcome := Raised;
      case Answered(answers, failAt) =>
        var n;
        outcome, n := Write(env, targets, tags, answers, failAt);
        written := n;
    }
  }

  /** What one call does: the first `written` targets have the answers to their own tags, and unless the
      call raised that is all of them and the counts are right. */
  ghost predicate CallEffect(
    env: Env, targets: seq<string>, mapping: map<string, string>, reply: Reply, outcome: Outcome, written: nat,
    rows: map<string, string>, rows': map<string, string>)
  {
    && (forall t | t in targets :: t in mapping)
    && written <= |targets|
    && (if reply.Answered? then Applied(env, targets, written, mapping, reply.answers, rows, rows') else rows' == rows)
    && (targets == [] ==> outcome == Done(Count(0, 0, 0)))
    && (targets != [] && outcome.Done? ==>
          reply.Answered? && written == |targets| && outcome.count == CountOf(env, targets, mapping, reply.answers))
    && (outcome.Raised? ==> reply.NoReply? || reply.failAt.Some?)
  }

  lemma RichEnough<T(!new), H(!new)>(hash: (T, nat) -> H, small: nat, large: nat)
    requires small <= large && HashIsRich(hash, large)
    ensures HashIsRich(hash, small)
  {
  }
}

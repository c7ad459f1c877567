// Removing comments from JSONC text (tools/validate_schema.py:9-56).
module Jsonc {
  import opened Common

  /** Text cut into tokens; every token keeps its own characters. */
  datatype Token =
    | Plain(c: char)
    | Literal(text: string)
    | LineComment(text: string)
    | BlockComment(text: string)
    | OpenComment(text: string)
  {
    function Text(): string {
      if Plain? then [c] else text
    }

    predicate Comment() {
      LineComment? || BlockComment? || OpenComment?
    }
  }

  // ----- lexical structure -----

  /** Characters up to and including the closing quote; an escape protects one character
      (section 7 of RFC 8259). An unterminated literal runs to the end. */
  function LiteralRest(u: string, escaped: bool): (n: nat)
    ensures n <= |u|
  {
    if u == [] then 0
    else if escaped then 1 + LiteralRest(u[1..], false)
    else if u[0] == '\\' then 1 + LiteralRest(u[1..], true)
    else if u[0] == '"' then 1
    else 1 + LiteralRest(u[1..], false)
  }

  predicate Terminated(u: string, escaped: bool) {
    if u == [] then false
    else if escaped then Terminated(u[1..], false)
    else if u[0] == '\\' then Terminated(u[1..], true)
    else u[0] == '"' || Terminated(u[1..], false)
  }

  function LineRest(u: string): (n: nat)
    ensures n <= |u| && forall i | 0 <= i < n :: u[i] != '\n'
    ensures n < |u| ==> u[n] == '\n'
  {
    if u == [] || u[0] == '\n' then 0 else 1 + LineRest(u[1..])
  }

  predicate StartsWith(u: string, a: char, b: char) {
    |u| >= 2 && u[0] == a && u[1] == b
  }

  /** Characters of a block comment's body before its first closing mark, if there is one. */
  function BlockRest(u: string): (n: Option<nat>)
    ensures n.Some? ==> n.value + 2 <= |u|
  {
    if |u| < 2 then None
    else if StartsWith(u, '*', '/') then Some(0)
    else if BlockRest(u[1..]).None? then None
    else Some(1 + BlockRest(u[1..]).value)
  }

  function First(t: string): (token: Token)
    requires t != []
    ensures 0 < |token.Text()| <= |t| && token.Text() == t[..|token.Text()|]
  {
    if t[0] == '"' then Literal(t[..1 + LiteralRest(t[1..], false)])
    else if StartsWith(t, '/', '/') then LineComment(t[..2 + LineRest(t[2..])])
    else if StartsWith(t, '/', '*') then
      if BlockRest(t[2..]).Some? then BlockComment(t[..2 + BlockRest(t[2..]).value + 2]) else OpenComment(t)
    else Plain(t[0])
  }

  function Rest(t: string): string
    requires t != []
  {
    t[|First(t).Text()|..]
  }

  function Lex(t: string): seq<Token> {
    if t == [] then [] else [First(t)] + Lex(Rest(t))
  }

  function Flatten(tokens: seq<Token>): string {
    if tokens == [] then [] else tokens[0].Text() + Flatten(tokens[1..])
  }

  function NewlineCount(s: string): nat {
    if s == [] then 0 else (if s[0] == '\n' then 1 else 0) + NewlineCount(s[1..])
  }

  function Blank(n: nat): string {
    seq(n, _ => '\n')
  }

  /** What is left of one token. The last character of an unclosed comment is skipped unseen. */
  function Keep(token: Token): string {
    match token
    case Plain(c) => [c]
    case Literal(text) => text
    case LineComment(_) => []
    case BlockComment(text) => Blank(NewlineCount(text))
    case OpenComment(text) => if text == [] then [] else Blank(NewlineCount(text[..|text| - 1]))
  }

  function Strip(t: string): string {
    if t == [] then [] else Keep(First(t)) + Strip(Rest(t))
  }

  // ----- the loop -----

  /** What the rest of the text contributes from inside a literal. */
  function FromLiteral(u: string, escaped: bool): string {
    u[..LiteralRest(u, escaped)] + Strip(u[LiteralRest(u, escaped)..])
  }

  lemma SplitTail(u: string, n: nat)
    requires 0 < n <= |u|
    ensures u[..n] == [u[0]] + u[1..][..n - 1] && u[n..] == u[1..][n - 1..]
  {
  }

  lemma LiteralStep(t: string)
    requires t != [] && t[0] == '"'
    ensures Strip(t) == [t[0]] + FromLiteral(t[1..], false)
  {
    var n := LiteralRest(t[1..], false);
    assert First(t) == Literal(t[..1 + n]) && Rest(t) == t[1 + n..];
    SplitTail(t, 1 + n);
    Regroup([t[0]], t[1..][..n], Strip(t[1..][n..]));
  }

  lemma InLiteralStep(u: string, escaped: bool)
    requires u != [] && !(u[0] == '"' && !escaped)
    ensures FromLiteral(u, escaped) == [u[0]] + FromLiteral(u[1..], !escaped && u[0] == '\\')
  {
    var n := LiteralRest(u[1..], !escaped && u[0] == '\\');
    assert LiteralRest(u, escaped) == 1 + n;
    SplitTail(u, 1 + n);
    Regroup([u[0]], u[1..][..n], Strip(u[1..][n..]));
  }

  lemma LiteralEnds(u: string)
    requires u != [] && u[0] == '"'
    ensures FromLiteral(u, false) == [u[0]] + Strip(u[1..])
  {
    assert u[..1] == [u[0]];
  }

  lemma {:induction false} NewlinesAppend(a: string, b: string)
    ensures NewlineCount(a + b) == NewlineCount(a) + NewlineCount(b)
  {
    if a == [] {
      assert a + b == b;
    } else {
      assert (a + b)[1..] == a[1..] + b;
      NewlinesAppend(a[1..], b);
    }
  }

  lemma {:induction false} BlockRestSkips(u: string, k: nat)
    requires k <= |u| && forall i | 0 <= i < k :: !StartsWith(u[i..], '*', '/')
    ensures BlockRest(u).Some? <==> BlockRest(u[k..]).Some?
    ensures BlockRest(u).Some? ==> BlockRest(u).value == k + BlockRest(u[k..]).value
    decreases k
  {
    if k == 0 {
      assert u[0..] == u;
    } else {
      BlockRestSkips(u, k - 1);
      BlockRestSkipsOne(u[k - 1..]);
      assert u[k - 1..][1..] == u[k..];
    }
  }

  lemma BlockRestSkipsOne(u: string)
    requires u != [] && !StartsWith(u, '*', '/')
    ensures BlockRest(u).Some? <==> BlockRest(u[1..]).Some?
    ensures BlockRest(u).Some? ==> BlockRest(u).value == 1 + BlockRest(u[1..]).value
  {
  }

  lemma {:induction false} BlockRestCloses(u: string)
    requires BlockRest(u).Some?
    ensures u[BlockRest(u).value + 1] == '/'
  {
    if !StartsWith(u, '*', '/') {
      BlockRestCloses(u[1..]);
    }
  }

  datatype State = Normal | InString | Escaped

  /** What the text still to be read contributes in a given state. */
  function Pending(state: State, u: string): string {
    match state
    case Normal => Strip(u)
    case InString => FromLiteral(u, false)
    case Escaped => FromLiteral(u, true)
  }

  function NextState(state: State, c: char): State {
    match state
    case Normal => if c == '"' then InString else Normal
    case InString => if c == '\\' then Escaped else if c == '"' then Normal else InString
    case Escaped => InString
  }

  predicate CommentStarts(state: State, u: string) {
    state.Normal? && (StartsWith(u, '/', '/') || StartsWith(u, '/', '*'))
  }

  lemma PendingStep(state: State, u: string)
    requires u != [] && !CommentStarts(state, u)
    ensures Pending(state, u) == [u[0]] + Pending(NextState(state, u[0]), u[1..])
  {
    match state
    case Normal =>
      if u[0] == '"' {
        LiteralStep(u);
      }
    case InString =>
      if u[0] == '"' {
        LiteralEnds(u);
      } else {
        InLiteralStep(u, false);
      }
    case Escaped => InLiteralStep(u, true);
  }

  /** What was produced and what the rest contributes make up the whole result. */
  ghost predicate OnTrack(result: string, state: State, text: string, i: nat) {
    i <= |text| && result + Pending(state, text[i..]) == Strip(text)
  }

  /** Copying one character keeps on track. */
  lemma Copied(result: string, state: State, text: string, i: nat)
    requires i < |text| && !CommentStarts(state, text[i..]) && OnTrack(result, state, text, i)
    ensures OnTrack(result + [text[i]], NextState(state, text[i]), text, i + 1)
  {
    PendingStep(state, text[i..]);
    assert text[i..][1..] == text[i + 1..];
    Regroup(result, [text[i]], Pending(NextState(state, text[i]), text[i + 1..]));
  }

  /** So does replacing a comment by what is kept of it. */
  lemma Replaced(result: string, text: string, i: nat, j: nat)
    requires i < |text| && j <= |text| && text[j..] == Rest(text[i..]) && OnTrack(result, Normal, text, i)
    ensures OnTrack(result + Keep(First(text[i..])), Normal, text, j)
  {
    Regroup(result, Keep(First(text[i..])), Strip(text[j..]));
  }

  method StripJsoncComments(text: string) returns (result: string)
    ensures result == Strip(text)
  {
    result := [];
    var state := Normal;
    var i := 0;
    assert text[0..] == text;
    while i < |text|
      invariant OnTrack(result, state, text, i)
      decreases |text| - i
    {
      var c := text[i];
      if state.Normal? && i + 1 < |text| && c == '/' && text[i + 1] == '/' {
        var j := SkipLine(text, i);
        Replaced(result, text, i, j);
        assert result + [] == result;
        i := j;
      } else if state.Normal? && i + 1 < |text| && c == '/' && text[i + 1] == '*' {
        var kept, j := SkipBlock(text, i);
        Replaced(result, text, i, j);
        result := result + kept;
        i := j;
      } else {
        Copied(result, state, text, i);
        result := result + [c];
        state := NextState(state, c);
        i := i + 1;
      }
    }
    AtEnd(result, state, text, i);
  }

  lemma AtEnd(result: string, state: State, text: string, i: nat)
    requires OnTrack(result, state, text, i) && i == |text|
    ensures result == Strip(text)
  {
    assert text[i..] == [];
    assert Pending(state, []) == [];
  }

  lemma Regroup(a: string, b: string, c: string)
    ensures (a + b) + c == a + (b + c)
  {
  }

  /** The inner loop of a line comment stops at the newline, which the source then copies: the
      newline is the next plain character. */
  method SkipLine(text: string, start: nat) returns (i: nat)
    requires start <= |text| && StartsWith(text[start..], '/', '/')
    ensures start < i <= |text| && text[i..] == Rest(text[start..]) && Keep(First(text[start..])) == []
  {
    i := start;
    while i < |text| && text[i] != '\n'
      invariant start <= i <= |text|
      invariant forall k | start <= k < i :: text[k] != '\n'
      decreases |text| - i
    {
      i := i + 1;
    }
    LineEnds(text, start, i);
  }

  lemma LineEnds(text: string, start: nat, i: nat)
    requires start <= i <= |text| && StartsWith(text[start..], '/', '/')
    requires (forall k | start <= k < i :: text[k] != '\n') && (i < |text| ==> text[i] == '\n')
    ensures start < i && text[i..] == Rest(text[start..]) && Keep(First(text[start..])) == []
  {
    var u := text[start..];
    assert u[0] == text[start] && u[1] == text[start + 1];
    var n := i - start - 2;
    assert forall k | 0 <= k < n :: u[2..][k] == text[start + 2 + k];
    LineRestIs(u[2..], n);
    assert |u[..2 + n]| == 2 + n;
  }

  lemma {:induction false} LineRestIs(u: string, n: nat)
    requires n <= |u| && (forall i | 0 <= i < n :: u[i] != '\n') && (n < |u| ==> u[n] == '\n')
    ensures LineRest(u) == n
  {
  }

  ghost predicate NoCloseBefore(u: string, k: nat) {
    k + 2 <= |u| && forall i | 0 <= i < k :: !StartsWith(u[2..][i..], '*', '/')
  }

  lemma BlockGrows(u: string, k: nat)
    requires NoCloseBefore(u, k) && k + 2 < |u| && !StartsWith(u[k + 2..], '*', '/')
    ensures NoCloseBefore(u, k + 1)
    ensures NewlineCount(u[..k + 3]) == NewlineCount(u[..k + 2]) + if u[k + 2] == '\n' then 1 else 0
  {
    assert u[2..][k..] == u[k + 2..];
    SnocNewline(u[..k + 2], u[k + 2]);
    assert u[..k + 3] == u[..k + 2] + [u[k + 2]];
  }

  lemma BlankSnoc(n: nat)
    ensures Blank(n + 1) == Blank(n) + "\n"
  {
  }

  lemma BlockCloses(u: string, k: nat)
    requires StartsWith(u, '/', '*') && NoCloseBefore(u, k) && StartsWith(u[k + 2..], '*', '/')
    ensures Keep(First(u)) == Blank(NewlineCount(u[..k + 2])) && Rest(u) == u[k + 4..]
  {
    BlockRestSkips(u[2..], k);
    assert u[2..][k..] == u[k + 2..];
    SnocNewline(u[..k + 2], '*');
    SnocNewline(u[..k + 3], '/');
    assert u[..k + 3] == u[..k + 2] + ['*'];
    assert u[..k + 4] == u[..k + 3] + ['/'];
  }

  lemma BlockStaysOpen(u: string, k: nat)
    requires StartsWith(u, '/', '*') && NoCloseBefore(u, k) && (k + 3 == |u| || k + 2 == |u| == 2)
    ensures Keep(First(u)) == Blank(NewlineCount(u[..k + 2])) && Rest(u) == []
  {
    BlockRestSkips(u[2..], k);
    assert u[2..][k..] == u[k + 2..];
    assert First(u) == OpenComment(u);
    if k + 3 == |u| {
      assert u[..|u| - 1] == u[..k + 2];
    } else {
      OpeningHasNoNewline(u);
      SnocNewline([], '/');
      assert u[..|u| - 1] == [] + ['/'];
    }
  }

  method SkipBlock(text: string, start: nat) returns (kept: string, i: nat)
    requires start <= |text| && StartsWith(text[start..], '/', '*')
    ensures start < i <= |text|
    ensures text[i..] == Rest(text[start..]) && kept == Keep(First(text[start..]))
  {
    ghost var u := text[start..];
    kept := [];
    i := start + 2;
    OpeningHasNoNewline(u);
    while i + 1 < |text| && !(text[i] == '*' && text[i + 1] == '/')
      invariant i == start + 2 || start + 2 <= i < |text|
      invariant NoCloseBefore(u, i - start - 2)
      invariant kept == Blank(NewlineCount(u[..i - start]))
      decreases |text| - i
    {
      BlockGrows(u, i - start - 2);
      assert u[i - start..] == text[i..];
      if text[i] == '\n' {
        BlankSnoc(NewlineCount(u[..i - start]));
        kept := kept + "\n";
      }
      i := i + 1;
    }
    assert u[i - start..] == text[i..];
    if i + 1 < |text| {
      BlockCloses(u, i - start - 2);
      i := i + 2;
    } else {
      BlockStaysOpen(u, i - start - 2);
      i := |text|;
    }
  }

  lemma OpeningHasNoNewline(u: string)
    requires StartsWith(u, '/', '*')
    ensures NewlineCount(u[..2]) == 0
  {
    assert u[..1] == [] + ['/'];
    assert u[..2] == u[..1] + ['*'];
    SnocNewline(u[..1], '*');
  }

  lemma SnocNewline(s: string, c: char)
    ensures NewlineCount(s + [c]) == NewlineCount(s) + if c == '\n' then 1 else 0
  {
    NewlinesAppend(s, [c]);
  }

  // ----- what stripping keeps -----

  /** The tokens that survive: comments become the newlines they held. */
  function Survivors(tokens: seq<Token>): seq<Token> {
    if tokens == [] then []
    else (if tokens[0].Comment() then Lines(|Keep(tokens[0])|) else [tokens[0]]) + Survivors(tokens[1..])
  }

  function Lines(n: nat): seq<Token> {
    seq(n, _ => Plain('\n'))
  }

  predicate CommentFree(tokens: seq<Token>) {
    forall i | 0 <= i < |tokens| :: !tokens[i].Comment()
  }

  function Literals(tokens: seq<Token>): seq<string> {
    if tokens == [] then []
    else (if tokens[0].Literal? then [tokens[0].text] else []) + Literals(tokens[1..])
  }

  lemma LexStep(t: string)
    requires t != []
    ensures Lex(t) != [] && Lex(t)[0] == First(t) && Lex(t)[1..] == Lex(Rest(t))
    ensures CommentFree(Lex(t)) <==> !First(t).Comment() && CommentFree(Lex(Rest(t)))
  {
    var tokens := Lex(t);
    assert tokens == [First(t)] + Lex(Rest(t));
    assert forall i | 0 <= i < |Lex(Rest(t))| :: tokens[i + 1] == Lex(Rest(t))[i];
  }

  lemma TextSplits(t: string)
    requires t != []
    ensures t == First(t).Text() + Rest(t) && |Rest(t)| < |t|
  {
  }

  /** Cutting into tokens loses nothing. */
  lemma {:induction false} LexIsLossless(t: string)
    ensures Flatten(Lex(t)) == t
  {
    if t != [] {
      LexIsLossless(Rest(t));
      LexStep(t);
      TextSplits(t);
    }
  }

  lemma ConsPrefix(u: string, n: nat, s: string)
    requires 0 < n <= |u|
    ensures (u[..n] + s)[0] == u[0] && (u[..n] + s)[1..] == u[1..][..n - 1] + s
  {
  }

  lemma {:induction false} LiteralPrefix(u: string, escaped: bool, s: string)
    requires Terminated(u, escaped) || s == []
    ensures LiteralRest(u[..LiteralRest(u, escaped)] + s, escaped) == LiteralRest(u, escaped)
    ensures !Terminated(u, escaped) ==> LiteralRest(u, escaped) == |u|
  {
    var n := LiteralRest(u, escaped);
    if u == [] {
      assert u[..n] + s == [];
    } else {
      ConsPrefix(u, n, s);
      if escaped || u[0] != '"' {
        LiteralPrefix(u[1..], !escaped && u[0] == '\\', s);
      }
    }
  }

  lemma ConsAppend(c: char, a: string, b: string)
    ensures (([c] + a) + b)[0] == c && (([c] + a) + b)[1..] == a + b
  {
  }

  lemma TakeAppend(a: string, b: string)
    ensures (a + b)[..|a|] == a
  {
  }

  lemma LiteralAgain(t: string, tail: string)
    requires t != [] && t[0] == '"' && (Rest(t) == [] ==> tail == [])
    ensures First(First(t).text + tail) == First(t)
  {
    var u := t[1..];
    var n := LiteralRest(u, false);
    assert First(t) == Literal(t[..1 + n]) && Rest(t) == t[1 + n..];
    LiteralPrefix(u, false, []);
    LiteralPrefix(u, false, tail);
    SplitTail(t, 1 + n);
    var s := t[..1 + n] + tail;
    ConsAppend('"', u[..n], tail);
    assert First(s) == Literal(s[..1 + n]);
    TakeAppend(t[..1 + n], tail);
  }

  lemma PlainAgain(t: string)
    requires t != [] && First(t).Plain?
    ensures First([t[0]] + Strip(t[1..])) == First(t)
  {
    if t[0] == '/' && |t| > 1 {
      SlashStaysAlone(t[1..]);
    }
  }

  /** A kept first token is recognised again in front of the stripped rest: removing comments
      never joins characters into a new comment or literal. */
  lemma FirstAgain(t: string)
    requires t != [] && !First(t).Comment()
    ensures var s := Keep(First(t)) + Strip(Rest(t));
            First(s) == First(t) && Rest(s) == Strip(Rest(t))
  {
    if t[0] == '"' {
      LiteralAgain(t, Strip(Rest(t)));
    } else {
      PlainAgain(t);
    }
  }

  lemma SlashStaysAlone(u: string)
    requires u != [] && u[0] != '/'
    ensures Strip(u) != [] && Strip(u)[0] == u[0]
  {
    assert !First(u).Comment() && Keep(First(u))[0] == u[0];
  }

  lemma LexPlain(t: string)
    requires t != [] && t[0] == '\n'
    ensures Lex(t) == [Plain('\n')] + Lex(t[1..])
  {
    assert First(t) == Plain('\n');
  }

  lemma BlankSplits(n: nat, s: string)
    requires n > 0
    ensures (Blank(n) + s)[0] == '\n' && (Blank(n) + s)[1..] == Blank(n - 1) + s
  {
  }

  lemma LinesSplit(n: nat, rest: seq<Token>)
    requires n > 0
    ensures Lines(n) + rest == [Plain('\n')] + (Lines(n - 1) + rest)
  {
  }

  lemma {:induction false} LexLines(n: nat, s: string)
    ensures Lex(Blank(n) + s) == Lines(n) + Lex(s)
  {
    if n == 0 {
      assert Blank(0) + s == s;
      assert Lines(0) + Lex(s) == Lex(s);
    } else {
      LexLines(n - 1, s);
      BlankSplits(n, s);
      LexPlain(Blank(n) + s);
      LinesSplit(n, Lex(s));
    }
  }

  lemma CommentBecomesLines(t: string)
    requires t != [] && First(t).Comment()
    ensures Keep(First(t)) == Blank(|Keep(First(t))|)
  {
  }

  /** The token structure of the result is the original's, with comments replaced by newlines. */
  lemma {:induction false} StripKeepsTokens(t: string)
    ensures Lex(Strip(t)) == Survivors(Lex(t))
    decreases |t|
  {
    if t != [] {
      StripKeepsTokens(Rest(t));
      if First(t).Comment() {
        CommentBecomesLines(t);
        LexLines(|Keep(First(t))|, Strip(Rest(t)));
      } else {
        FirstAgain(t);
      }
    }
  }

  lemma {:induction false} SurvivorsAreCommentFree(tokens: seq<Token>)
    ensures CommentFree(Survivors(tokens)) && Literals(Survivors(tokens)) == Literals(tokens)
  {
    if tokens != [] {
      SurvivorsAreCommentFree(tokens[1..]);
      if tokens[0].Comment() {
        LinesHaveNoLiterals(|Keep(tokens[0])|, Survivors(tokens[1..]));
      } else {
        assert ([tokens[0]] + Survivors(tokens[1..]))[1..] == Survivors(tokens[1..]);
      }
    }
  }

  lemma {:induction false} LinesHaveNoLiterals(n: nat, rest: seq<Token>)
    ensures Literals(Lines(n) + rest) == Literals(rest)
  {
    if n == 0 {
      assert Lines(n) + rest == rest;
    } else {
      LinesHaveNoLiterals(n - 1, rest);
      assert (Lines(n) + rest)[1..] == Lines(n - 1) + rest;
    }
  }

  lemma {:induction false} CommentFreeIsUntouched(t: string)
    requires CommentFree(Lex(t))
    ensures Strip(t) == t
    decreases |t|
  {
    if t != [] {
      LexStep(t);
      CommentFreeIsUntouched(Rest(t));
      TextSplits(t);
    }
  }

  /** No comment is left, and every string literal is there, unchanged and in order. */
  lemma StripTheorem(t: string)
    ensures CommentFree(Lex(Strip(t))) && Literals(Lex(Strip(t))) == Literals(Lex(t))
  {
    StripKeepsTokens(t);
    SurvivorsAreCommentFree(Lex(t));
  }

  lemma StripIsIdempotent(t: string)
    ensures Strip(Strip(t)) == Strip(t)
  {
    StripTheorem(t);
    CommentFreeIsUntouched(Strip(t));
  }

  lemma {:induction false} NewlineCountBound(s: string)
    ensures NewlineCount(s) <= |s|
  {
    if s != [] {
      NewlineCountBound(s[1..]);
    }
  }

  /** A comment leaves fewer characters than it had. */
  lemma CommentShrinks(t: string)
    requires t != []
    ensures |Keep(First(t))| <= |First(t).Text()|
    ensures First(t).Comment() ==> |Keep(First(t))| < |First(t).Text()|
  {
    var token := First(t);
    if token.BlockComment? {
      var s := token.text;
      BlockRestCloses(t[2..]);
      assert s == s[..|s| - 1] + [s[|s| - 1]] && s[|s| - 1] == '/';
      SnocNewline(s[..|s| - 1], '/');
      NewlineCountBound(s[..|s| - 1]);
    } else if token.OpenComment? {
      NewlineCountBound(token.text[..|token.text| - 1]);
    }
  }

  lemma {:induction false} StripShrinks(t: string)
    ensures |Strip(t)| <= |t|
    ensures !CommentFree(Lex(t)) ==> |Strip(t)| < |t|
    decreases |t|
  {
    if t != [] {
      StripShrinks(Rest(t));
      CommentShrinks(t);
      LexStep(t);
    }
  }

  /** Text is left alone exactly when it has no comment outside its string literals. */
  lemma StripIsIdentityIff(t: string)
    ensures Strip(t) == t <==> CommentFree(Lex(t))
  {
    StripShrinks(t);
    if CommentFree(Lex(t)) {
      CommentFreeIsUntouched(t);
    }
  }

  // ----- line numbers -----

  /** The one case in which a line is lost: the text ends inside an unclosed block comment whose
      last character is a newline. */
  predicate LosesLine(t: string) {
    t != [] && Lex(t)[|Lex(t)| - 1].OpenComment? && t[|t| - 1] == '\n'
  }

  lemma {:induction false} BlankCount(n: nat)
    ensures NewlineCount(Blank(n)) == n
  {
    if n > 0 {
      BlankCount(n - 1);
      assert Blank(n)[1..] == Blank(n - 1);
    }
  }

  lemma {:induction false} NoNewlines(s: string)
    requires forall i | 0 <= i < |s| :: s[i] != '\n'
    ensures NewlineCount(s) == 0
  {
    if s != [] {
      NoNewlines(s[1..]);
    }
  }

  lemma TokenLines(t: string)
    requires t != []
    ensures var token := First(t);
            NewlineCount(token.Text()) == NewlineCount(Keep(token))
              + if token.OpenComment? && t[|t| - 1] == '\n' then 1 else 0
  {
    var token := First(t);
    match token
    case Plain(_) =>
    case Literal(_) =>
    case LineComment(text) =>
      LineCommentIsOneLine(t);
      NoNewlines(text);
    case BlockComment(text) =>
      BlankCount(NewlineCount(text));
    case OpenComment(text) =>
      assert text == text[..|text| - 1] + [text[|text| - 1]];
      SnocNewline(text[..|text| - 1], text[|text| - 1]);
      BlankCount(NewlineCount(text[..|text| - 1]));
  }

  lemma LineCommentIsOneLine(t: string)
    requires t != [] && First(t).LineComment?
    ensures forall i | 0 <= i < |First(t).text| :: First(t).text[i] != '\n'
  {
    var n := LineRest(t[2..]);
    forall i | 0 <= i < 2 + n
      ensures t[i] != '\n'
    {
      if i >= 2 {
        assert t[i] == t[2..][i - 2];
      }
    }
  }

  lemma LosesLineLater(t: string)
    requires t != [] && Rest(t) != []
    ensures LosesLine(t) <==> LosesLine(Rest(t))
    ensures !First(t).OpenComment?
  {
    LexStep(t);
    LexStep(Rest(t));
    assert Lex(t)[|Lex(t)| - 1] == Lex(t)[1..][|Lex(t)| - 2];
    assert t[|t| - 1] == Rest(t)[|Rest(t)| - 1];
  }

  lemma LosesLineLast(t: string)
    requires t != [] && Rest(t) == []
    ensures LosesLine(t) <==> First(t).OpenComment? && t[|t| - 1] == '\n'
  {
    LexStep(t);
    assert Lex(Rest(t)) == [];
  }

  /** Line numbers survive, except for the one line `LosesLine` describes. */
  lemma {:induction false} StripCountsLines(t: string)
    ensures NewlineCount(t) == NewlineCount(Strip(t)) + if LosesLine(t) then 1 else 0
    decreases |t|
  {
    if t != [] {
      TextSplits(t);
      StripCountsLines(Rest(t));
      TokenLines(t);
      NewlinesAppend(First(t).Text(), Rest(t));
      NewlinesAppend(Keep(First(t)), Strip(Rest(t)));
      if Rest(t) == [] {
        LosesLineLast(t);
      } else {
        LosesLineLater(t);
      }
    }
  }

  lemma StripKeepsLinesIff(t: string)
    ensures NewlineCount(Strip(t)) == NewlineCount(t) <==> !LosesLine(t)
  {
    StripCountsLines(t);
  }
}

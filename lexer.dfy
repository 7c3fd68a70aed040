/**
  The lexical analyser of analisador.py.

  The source joins an ordered table of named regular expressions into one
  alternation and runs `re.finditer` over the input. Here each alternative is
  written out as a scanning function over the characters (`RuleEnd`), the
  alternation is the first alternative of the table that matches (`MatchAt`),
  `re.finditer` is `FindIter`, and the generator `lexer` is `Lexer`, which
  drops the whitespace matches.

  Character classes are the ASCII ones: `\d` is 0-9, `\w` is letters, digits
  and `_`, and `\s` is space, tab to carriage return, and the separators
  U+001C to U+001F (the ASCII characters Python counts as white space).
*/
module Lexical {
  import opened Wrappers

  /** The token kinds, in the order the table lists them. */
  datatype Kind =
    | Keyword | Number | Assign | Operator | LParen | RParen
    | LBrace | RBrace | Semicolon | Identifier | Whitespace

  /** A token: its kind and the exact text it matched. */
  datatype Token = Token(kind: Kind, lexeme: string)

  /** One match of the joined pattern: the winning alternative and the span [start, end) of the input. */
  datatype Match = Match(kind: Kind, start: nat, end: nat)

  /** The alternatives of the joined pattern, in priority order. */
  const Table: seq<Kind> :=
    [Keyword, Number, Assign, Operator, LParen, RParen, LBrace, RBrace, Semicolon, Identifier, Whitespace]

  /** The reserved words, in the order the keyword alternative tries them. */
  const Keywords: seq<string> := ["if", "else", "int", "float"]

  // The characters of the operator class: plus, minus, times, slash, less-than, greater-than.
  const OperatorChars: string := "+-*/<>"

  /** The position of a kind in the table. */
  function Rank(k: Kind): (i: nat)
    ensures i < |Table| && Table[i] == k
  {
    match k
    case Keyword => 0
    case Number => 1
    case Assign => 2
    case Operator => 3
    case LParen => 4
    case RParen => 5
    case LBrace => 6
    case RBrace => 7
    case Semicolon => 8
    case Identifier => 9
    case Whitespace => 10
  }

  // ---------------------------------------------------------------- character classes

  predicate IsDigit(c: char) { '0' <= c <= '9' }

  predicate IsLetter(c: char) { 'a' <= c <= 'z' || 'A' <= c <= 'Z' }

  predicate IsWordChar(c: char) { IsLetter(c) || IsDigit(c) || c == '_' }

  predicate IsSpace(c: char) { c == ' ' || '\t' <= c <= '\r' || '\U{1C}' <= c <= '\U{1F}' }

  /** A character some alternative of the table can start with. */
  predicate StartChar(c: char) {
    IsWordChar(c) || IsSpace(c) || c in "=+-*/<>(){};"
  }

  datatype CharClass = Digits | WordChars | Spaces

  predicate InClass(c: char, cls: CharClass) {
    match cls
    case Digits => IsDigit(c)
    case WordChars => IsWordChar(c)
    case Spaces => IsSpace(c)
  }

  /** The greedy repetition `cls*` from position i: the end of the longest run of class characters. */
  function RunEnd(s: string, i: nat, cls: CharClass): (e: nat)
    requires i <= |s|
    ensures i <= e <= |s|
    ensures forall j :: i <= j < e ==> InClass(s[j], cls)
    ensures e == |s| || !InClass(s[e], cls)
    decreases |s| - i
  {
    if i < |s| && InClass(s[i], cls) then RunEnd(s, i + 1, cls) else i
  }

  /** Position j holds a word character (positions outside the input do not). */
  predicate WordAt(s: string, j: int) { 0 <= j < |s| && IsWordChar(s[j]) }

  /** The assertion `\b` at position i: a word character on exactly one side of i. */
  predicate Boundary(s: string, i: int) { WordAt(s, i - 1) != WordAt(s, i) }

  // ---------------------------------------------------------------- the alternatives

  /** The literal text w occurs in s at position p, compared character by character. */
  predicate OccursAt(s: string, p: nat, w: string)
    ensures OccursAt(s, p, w) <==> p + |w| <= |s| && s[p..p + |w|] == w
    decreases |w|
  {
    if w == [] then p <= |s|
    else p < |s| && s[p] == w[0] && OccursAt(s, p + 1, w[1..])
  }

  /** The group `(if|else|int|float)\b` at p: the first word of `words` present at p and followed by a boundary. */
  function KeywordEnd(s: string, p: nat, words: seq<string>): (r: Option<nat>)
    ensures r.Some? ==> p <= r.value <= |s|
  {
    if words == [] then None
    else
      var w := words[0];
      if OccursAt(s, p, w) && Boundary(s, p + |w|) then Some(p + |w|)
      else KeywordEnd(s, p, words[1..])
  }

  /** Alternative k of the table tried at position p: the end of its match, if it matches. */
  function RuleEnd(k: Kind, s: string, p: nat): (r: Option<nat>)
    requires p < |s|
    ensures r.Some? ==> p < r.value <= |s|
  {
    match k
    case Keyword =>
      if Boundary(s, p) then
        var r := KeywordEnd(s, p, Keywords);
        if r.Some? then KeywordEndSpec(s, p, Keywords); KeywordLetters(s[p..r.value]); r else r
      else None
    case Number =>
      if IsDigit(s[p]) then
        var d := RunEnd(s, p, Digits);
        if d < |s| && s[d] == '.' then Some(RunEnd(s, d + 1, Digits)) else Some(d)
      else None
    case Assign => if s[p] == '=' then Some(p + 1) else None
    case Operator => if s[p] in OperatorChars then Some(p + 1) else None
    case LParen => if s[p] == '(' then Some(p + 1) else None
    case RParen => if s[p] == ')' then Some(p + 1) else None
    case LBrace => if s[p] == '{' then Some(p + 1) else None
    case RBrace => if s[p] == '}' then Some(p + 1) else None
    case Semicolon => if s[p] == ';' then Some(p + 1) else None
    case Identifier => if IsLetter(s[p]) || s[p] == '_' then Some(RunEnd(s, p + 1, WordChars)) else None
    case Whitespace => if IsSpace(s[p]) then Some(RunEnd(s, p, Spaces)) else None
  }

  /** The keyword group reports a word of the list followed by a boundary, and reports nothing
      only when no word of the list stands at p followed by a boundary. */
  lemma {:induction false} KeywordEndSpec(s: string, p: nat, words: seq<string>)
    ensures KeywordEnd(s, p, words).Some? ==>
              var e := KeywordEnd(s, p, words).value; s[p..e] in words && Boundary(s, e)
    ensures KeywordEnd(s, p, words).None? ==>
              forall e :: p <= e <= |s| && s[p..e] in words ==> !Boundary(s, e)
  {
    if words != [] {
      KeywordEndSpec(s, p, words[1..]);
      assert forall e :: p <= e <= |s| && s[p..e] in words && s[p..e] != words[0] ==> s[p..e] in words[1..];
    }
  }

  /** The joined alternation from table index i on, at position p: the first alternative that matches. */
  function FirstRule(s: string, p: nat, i: nat): (r: Option<Match>)
    requires p < |s| && i <= |Table|
    ensures r.Some? ==> r.value.start == p < r.value.end <= |s|
    decreases |Table| - i
  {
    if i == |Table| then None
    else
      match RuleEnd(Table[i], s, p)
      case Some(e) => Some(Match(Table[i], p, e))
      case None => FirstRule(s, p, i + 1)
  }

  /** The alternation reports the first alternative, from table index i on, that matches. */
  lemma {:induction false} FirstRuleSpec(s: string, p: nat, i: nat)
    requires p < |s| && i <= |Table|
    ensures var r := FirstRule(s, p, i);
      && (r.Some? ==> i <= Rank(r.value.kind) && RuleEnd(r.value.kind, s, p) == Some(r.value.end))
      && (r.Some? ==> forall k :: i <= Rank(k) < Rank(r.value.kind) ==> RuleEnd(k, s, p).None?)
      && (r.None? ==> forall k :: i <= Rank(k) ==> RuleEnd(k, s, p).None?)
    decreases |Table| - i
  {
    if i < |Table| && RuleEnd(Table[i], s, p).None? {
      FirstRuleSpec(s, p, i + 1);
    }
  }

  /** The joined pattern tried at position p. */
  function MatchAt(s: string, p: nat): (r: Option<Match>)
    requires p < |s|
    ensures r.Some? ==> r.value.start == p < r.value.end <= |s|
  {
    FirstRule(s, p, 0)
  }

  /** `re.finditer` from position p: a match where the pattern matches, otherwise one character skipped. */
  function FindIter(s: string, p: nat): (ms: seq<Match>)
    requires p <= |s|
    ensures forall i :: 0 <= i < |ms| ==> p <= ms[i].start < ms[i].end <= |s|
    decreases |s| - p
  {
    if p == |s| then []
    else
      match MatchAt(s, p)
      case None => FindIter(s, p + 1)
      case Some(m) => [m] + FindIter(s, m.end)
  }

  /** The matches of ms do not overlap and come left to right. */
  ghost predicate Ordered(ms: seq<Match>) {
    forall i, j :: 0 <= i < j < |ms| ==> ms[i].end <= ms[j].start
  }

  lemma OrderedCons(m: Match, rest: seq<Match>)
    requires Ordered(rest) && forall i :: 0 <= i < |rest| ==> m.end <= rest[i].start
    ensures Ordered([m] + rest)
  {
    var ms := [m] + rest;
    forall i, j | 0 <= i < j < |ms| ensures ms[i].end <= ms[j].start {
      assert ms[j] == rest[j - 1];
      if i > 0 {
        assert ms[i] == rest[i - 1];
      }
    }
  }

  lemma OrderedStep(s: string, p: nat)
    requires p < |s| && Ordered(FindIter(s, Resume(s, p)))
    ensures Ordered(FindIter(s, p))
  {
    match MatchAt(s, p)
    case None =>
      FindIterSkip(s, p);
    case Some(m) =>
      FindIterStep(s, p, m);
      OrderedCons(m, FindIter(s, m.end));
  }

  /** The matches of `re.finditer` do not overlap and come left to right. */
  lemma {:induction false} FindIterOrdered(s: string, p: nat)
    requires p <= |s|
    ensures Ordered(FindIter(s, p))
    decreases |s| - p
  {
    if p < |s| {
      FindIterOrdered(s, Resume(s, p));
      OrderedStep(s, p);
    }
  }

  /** The tokens of a list of matches: each non-whitespace match as its kind and its text. */
  function Emit(s: string, ms: seq<Match>): (ts: seq<Token>)
    requires forall i :: 0 <= i < |ms| ==> ms[i].start <= ms[i].end <= |s|
    ensures |ts| <= |ms|
    ensures forall i :: 0 <= i < |ts| ==> ts[i].kind != Whitespace
  {
    if ms == [] then []
    else
      var head := if ms[0].kind == Whitespace then [] else [Token(ms[0].kind, s[ms[0].start..ms[0].end])];
      head + Emit(s, ms[1..])
  }

  /** The generator `lexer`, taken to its end. */
  function Lexer(s: string): (ts: seq<Token>)
    ensures forall i :: 0 <= i < |ts| ==> ts[i].kind != Whitespace
  {
    Emit(s, FindIter(s, 0))
  }

  // ---------------------------------------------------------------- reference definitions

  /** The text of `\d+(\.\d*)?`: a digit first, then digits and at most one point. */
  ghost predicate NumberShape(l: string) {
    && |l| > 0 && IsDigit(l[0])
    && (forall i :: 0 <= i < |l| ==> IsDigit(l[i]) || l[i] == '.')
    && (forall i, j :: 0 <= i < j < |l| && l[i] == '.' ==> l[j] != '.')
  }

  /** The texts the pattern of kind k describes, written independently of the scanner. */
  ghost predicate Shape(k: Kind, l: string) {
    match k
    case Keyword => l in Keywords
    case Number => NumberShape(l)
    case Assign => l == "="
    case Operator => |l| == 1 && l[0] in OperatorChars
    case LParen => l == "("
    case RParen => l == ")"
    case LBrace => l == "{"
    case RBrace => l == "}"
    case Semicolon => l == ";"
    case Identifier =>
      |l| > 0 && (IsLetter(l[0]) || l[0] == '_') && forall i :: 0 <= i < |l| ==> IsWordChar(l[i])
    case Whitespace => |l| > 0 && forall i :: 0 <= i < |l| ==> IsSpace(l[i])
  }

  /** The pattern of kind k can match exactly s[p..e]: the text has the shape, and a keyword
      has a word boundary on both sides. */
  ghost predicate RuleMatches(k: Kind, s: string, p: nat, e: nat) {
    p <= e <= |s| && Shape(k, s[p..e]) && (k == Keyword ==> Boundary(s, p) && Boundary(s, e))
  }

  /** The match the joined pattern reports at p: kind k matches s[p..e], no longer text for k
      matches, and no alternative earlier in the table matches at p at all. */
  ghost predicate Wins(k: Kind, s: string, p: nat, e: nat) {
    && RuleMatches(k, s, p, e)
    && (forall e' :: e < e' <= |s| ==> !RuleMatches(k, s, p, e'))
    && (forall k' :: Rank(k') < Rank(k) ==> forall e' :: !RuleMatches(k', s, p, e'))
  }

  // ---------------------------------------------------------------- the scanner meets the definitions

  lemma KeywordLetters(w: string)
    requires w in Keywords
    ensures 2 <= |w| <= 5
    ensures forall i :: 0 <= i < |w| ==> IsLetter(w[i])
  {
  }

  lemma {:induction false} NumberRule(s: string, p: nat)
    requires p < |s|
    ensures RuleEnd(Number, s, p).Some? ==> RuleMatches(Number, s, p, RuleEnd(Number, s, p).value)
    ensures RuleEnd(Number, s, p).Some? ==>
              forall e :: RuleEnd(Number, s, p).value < e <= |s| ==> !RuleMatches(Number, s, p, e)
    ensures RuleEnd(Number, s, p).None? ==> forall e :: !RuleMatches(Number, s, p, e)
  {
    if IsDigit(s[p]) {
      var d := RunEnd(s, p, Digits);
      if d < |s| && s[d] == '.' {
        var e := RunEnd(s, d + 1, Digits);
        var l := s[p..e];
        assert forall i :: 0 <= i < |l| ==> l[i] == s[p + i];
        assert forall i :: 0 <= i < |l| && i != d - p ==> IsDigit(l[i]);
        assert NumberShape(l);
        forall e' | e < e' <= |s| ensures !NumberShape(s[p..e']) {
          var l' := s[p..e'];
          assert l'[d - p] == '.' && l'[e - p] == s[e];
        }
      } else {
        var l := s[p..d];
        assert forall i :: 0 <= i < |l| ==> l[i] == s[p + i];
        assert NumberShape(l);
        forall e' | d < e' <= |s| ensures !NumberShape(s[p..e']) {
          assert s[p..e'][d - p] == s[d];
        }
      }
    } else {
      forall e | p < e <= |s| ensures !NumberShape(s[p..e]) {
        assert s[p..e][0] == s[p];
      }
    }
  }

  lemma {:induction false} RunRule(k: Kind, s: string, p: nat)
    requires p < |s| && (k == Identifier || k == Whitespace)
    ensures RuleEnd(k, s, p).Some? ==> RuleMatches(k, s, p, RuleEnd(k, s, p).value)
    ensures RuleEnd(k, s, p).Some? ==>
              forall e :: RuleEnd(k, s, p).value < e <= |s| ==> !RuleMatches(k, s, p, e)
    ensures RuleEnd(k, s, p).None? ==> forall e :: !RuleMatches(k, s, p, e)
  {
    match RuleEnd(k, s, p)
    case Some(e) =>
      var l := s[p..e];
      assert forall i :: 0 <= i < |l| ==> l[i] == s[p + i];
      forall e' | e < e' <= |s| ensures !Shape(k, s[p..e']) {
        assert s[p..e'][e - p] == s[e];
      }
    case None =>
      forall e | p < e <= |s| ensures !Shape(k, s[p..e]) {
        assert s[p..e][0] == s[p];
      }
  }

  lemma {:induction false} KeywordRule(s: string, p: nat)
    requires p < |s|
    ensures RuleEnd(Keyword, s, p).Some? ==> RuleMatches(Keyword, s, p, RuleEnd(Keyword, s, p).value)
    ensures RuleEnd(Keyword, s, p).Some? ==>
              forall e :: RuleEnd(Keyword, s, p).value < e <= |s| ==> !RuleMatches(Keyword, s, p, e)
    ensures RuleEnd(Keyword, s, p).None? ==> forall e :: !RuleMatches(Keyword, s, p, e)
  {
    KeywordEndSpec(s, p, Keywords);
    match RuleEnd(Keyword, s, p)
    case Some(e) =>
      KeywordLetters(s[p..e]);
      forall e' | e < e' <= |s| && RuleMatches(Keyword, s, p, e') ensures false {
        KeywordLetters(s[p..e']);
      }
    case None =>
  }

  /** Each alternative, as scanned, matches the longest text its pattern describes, and
      matches nothing when it reports no match. */
  lemma RuleEndSpec(k: Kind, s: string, p: nat)
    requires p < |s|
    ensures RuleEnd(k, s, p).Some? ==> RuleMatches(k, s, p, RuleEnd(k, s, p).value)
    ensures RuleEnd(k, s, p).Some? ==>
              forall e :: RuleEnd(k, s, p).value < e <= |s| ==> !RuleMatches(k, s, p, e)
    ensures RuleEnd(k, s, p).None? ==> forall e :: !RuleMatches(k, s, p, e)
  {
    match k
    case Keyword => KeywordRule(s, p);
    case Number => NumberRule(s, p);
    case Identifier => RunRule(k, s, p);
    case Whitespace => RunRule(k, s, p);
    case _ =>
      forall e | p <= e <= |s| && RuleMatches(k, s, p, e) ensures e == p + 1 && RuleEnd(k, s, p) == Some(e) {
        assert s[p..e][0] == s[p];
      }
  }

  /** The joined pattern reports at p exactly the winner of the table there, and nothing
      exactly when no alternative can match at p. */
  lemma MatchAtSpec(s: string, p: nat)
    requires p < |s|
    ensures forall k, e :: MatchAt(s, p) == Some(Match(k, p, e)) <==> Wins(k, s, p, e)
    ensures MatchAt(s, p).None? <==> forall k, e :: !RuleMatches(k, s, p, e)
  {
    forall k { RuleEndSpec(k, s, p); }
    FirstRuleSpec(s, p, 0);
    match MatchAt(s, p)
    case Some(m) =>
      assert Wins(m.kind, s, p, m.end);
      forall k, e | Wins(k, s, p, e) ensures k == m.kind && e == m.end {
        assert Rank(m.kind) < Rank(k) ==> !RuleMatches(m.kind, s, p, m.end);
        assert Rank(k) == Rank(m.kind);
      }
    case None =>
  }

  /** No alternative matches at p exactly when the character there is none an alternative
      can start with; such a character is skipped. */
  lemma NoMatchIff(s: string, p: nat)
    requires p < |s|
    ensures MatchAt(s, p).None? <==> !StartChar(s[p])
  {
    var c := s[p];
    FirstRuleSpec(s, p, 0);
    KeywordEndSpec(s, p, Keywords);
    if StartChar(c) {
      var k :=
        if IsDigit(c) then Number
        else if IsLetter(c) || c == '_' then Identifier
        else if IsSpace(c) then Whitespace
        else if c == '=' then Assign
        else if c in OperatorChars then Operator
        else if c == '(' then LParen
        else if c == ')' then RParen
        else if c == '{' then LBrace
        else if c == '}' then RBrace
        else Semicolon;
      assert RuleEnd(k, s, p).Some?;
    } else {
      match RuleEnd(Keyword, s, p)
      case Some(e) =>
        KeywordLetters(s[p..e]);
      case None =>
      assert forall k :: RuleEnd(k, s, p).None?;
    }
  }

  /** Position q lies inside one of the matches. */
  ghost predicate Covered(ms: seq<Match>, q: nat) {
    exists i :: 0 <= i < |ms| && ms[i].start <= q < ms[i].end
  }

  /** Every character that no match covers is one that no alternative can start with. */
  lemma {:induction false} FindIterGaps(s: string, p: nat)
    requires p <= |s|
    ensures forall q :: p <= q < |s| && !Covered(FindIter(s, p), q) ==> !StartChar(s[q])
    decreases |s| - p
  {
    if p < |s| {
      NoMatchIff(s, p);
      var ms := FindIter(s, p);
      if MatchAt(s, p).None? {
        FindIterGaps(s, p + 1);
      } else {
        var m := MatchAt(s, p).value;
        var rest := FindIter(s, m.end);
        FindIterGaps(s, m.end);
        assert ms == [m] + rest;
        forall q | p <= q < |s| && !Covered(ms, q) ensures !StartChar(s[q]) {
          CoveredShift(m, rest, q);
        }
      }
    }
  }

  lemma CoveredShift(m: Match, rest: seq<Match>, q: nat)
    ensures Covered([m] + rest, q) <==> m.start <= q < m.end || Covered(rest, q)
  {
    var ms := [m] + rest;
    if Covered(rest, q) {
      var i :| 0 <= i < |rest| && rest[i].start <= q < rest[i].end;
      assert ms[i + 1] == rest[i];
    }
    if Covered(ms, q) {
      var i :| 0 <= i < |ms| && ms[i].start <= q < ms[i].end;
      if i > 0 { assert rest[i - 1] == ms[i]; }
    }
    if m.start <= q < m.end { assert ms[0] == m; }
  }

  /** The concatenated texts of a list of matches. */
  function Texts(s: string, ms: seq<Match>): (t: string)
    requires forall i :: 0 <= i < |ms| ==> ms[i].start <= ms[i].end <= |s|
  {
    if ms == [] then "" else s[ms[0].start..ms[0].end] + Texts(s, ms[1..])
  }

  /** On an input made only of characters the alternatives can start with, the matches tile
      the input: their texts, whitespace included, put together give the input back. */
  lemma {:induction false} Reconstruct(s: string, p: nat)
    requires p <= |s|
    requires forall q :: p <= q < |s| ==> StartChar(s[q])
    ensures Texts(s, FindIter(s, p)) == s[p..]
    decreases |s| - p
  {
    if p < |s| {
      NoMatchIff(s, p);
      var m := MatchAt(s, p).value;
      Reconstruct(s, m.end);
      var ms := FindIter(s, p);
      assert ms == [m] + FindIter(s, m.end);
      assert ms[1..] == FindIter(s, m.end);
      assert s[p..] == s[p..m.end] + s[m.end..];
    }
  }

  /** The non-whitespace matches: the ones `lexer` turns into tokens. */
  function Significant(ms: seq<Match>): (r: seq<Match>)
    ensures |r| <= |ms|
    ensures forall i :: 0 <= i < |r| ==> r[i].kind != Whitespace
  {
    if ms == [] then []
    else (if ms[0].kind == Whitespace then [] else [ms[0]]) + Significant(ms[1..])
  }

  /** The token `lexer` yields for a match: its kind and the exact input text it spans. */
  function TokenOf(s: string, m: Match): (t: Token)
    requires m.start <= m.end <= |s|
  {
    Token(m.kind, s[m.start..m.end])
  }

  /** Dropping the whitespace matches keeps exactly the others. */
  lemma {:induction false} SignificantSub(ms: seq<Match>)
    ensures forall x :: x in Significant(ms) ==> x in ms && x.kind != Whitespace
    ensures forall x :: x in ms && x.kind != Whitespace ==> x in Significant(ms)
  {
    if ms != [] {
      SignificantSub(ms[1..]);
      assert forall x :: x in ms[1..] ==> x in ms;
      assert forall x :: x in ms ==> x == ms[0] || x in ms[1..];
    }
  }

  /** Dropping the whitespace matches keeps the others in order. */
  lemma {:induction false} SignificantOrdered(ms: seq<Match>)
    requires Ordered(ms)
    ensures Ordered(Significant(ms))
  {
    if ms != [] {
      var tail := Significant(ms[1..]);
      assert Ordered(ms[1..]) by {
        forall i, j | 0 <= i < j < |ms[1..]| ensures ms[1..][i].end <= ms[1..][j].start {
          assert ms[1..][i] == ms[i + 1] && ms[1..][j] == ms[j + 1];
        }
      }
      SignificantOrdered(ms[1..]);
      if ms[0].kind != Whitespace {
        SignificantSub(ms[1..]);
        forall j | 0 <= j < |tail| ensures ms[0].end <= tail[j].start {
          assert tail[j] in ms[1..];
          var k :| 0 <= k < |ms[1..]| && ms[1..][k] == tail[j];
          assert ms[k + 1] == tail[j];
        }
        OrderedCons(ms[0], tail);
      }
    }
  }

  lemma SignificantBounds(s: string, ms: seq<Match>)
    requires forall i :: 0 <= i < |ms| ==> ms[i].start <= ms[i].end <= |s|
    ensures forall x :: x in Significant(ms) ==> x.start <= x.end <= |s|
  {
    SignificantSub(ms);
    forall x | x in Significant(ms) ensures x.start <= x.end <= |s| {
      var i :| 0 <= i < |ms| && ms[i] == x;
    }
  }

  /** The tokens of a list of matches are the tokens of its non-whitespace matches. */
  lemma {:induction false} EmitSignificant(s: string, ms: seq<Match>)
    requires forall i :: 0 <= i < |ms| ==> ms[i].start <= ms[i].end <= |s|
    ensures forall x :: x in Significant(ms) ==> x.start <= x.end <= |s|
    ensures |Emit(s, ms)| == |Significant(ms)|
    ensures forall i :: 0 <= i < |Emit(s, ms)| ==> Emit(s, ms)[i] == TokenOf(s, Significant(ms)[i])
  {
    SignificantBounds(s, ms);
    if ms != [] {
      var rest := ms[1..];
      assert forall i :: 0 <= i < |rest| ==> rest[i] == ms[i + 1];
      EmitSignificant(s, rest);
      if ms[0].kind != Whitespace {
        var e, sig := Emit(s, ms), Significant(ms);
        assert e == [TokenOf(s, ms[0])] + Emit(s, rest);
        assert sig == [ms[0]] + Significant(rest);
        forall i | 0 < i < |e| ensures e[i] == TokenOf(s, sig[i]) {
          assert e[i] == Emit(s, rest)[i - 1] && sig[i] == Significant(rest)[i - 1];
        }
      }
    }
  }

  /** The tokens of consecutive lists of matches are the tokens of each list in turn. */
  lemma {:induction false} EmitConcat(s: string, a: seq<Match>, b: seq<Match>)
    requires forall i :: 0 <= i < |a| ==> a[i].start <= a[i].end <= |s|
    requires forall i :: 0 <= i < |b| ==> b[i].start <= b[i].end <= |s|
    ensures Emit(s, a + b) == Emit(s, a) + Emit(s, b)
  {
    if a != [] {
      var a' := a[1..];
      assert forall i :: 0 <= i < |a'| ==> a'[i] == a[i + 1];
      assert (a + b)[1..] == a' + b;
      EmitConcat(s, a', b);
    } else {
      assert a + b == b;
    }
  }

  /** Every match of ms is what the joined pattern reports at its start. */
  ghost predicate Reported(s: string, ms: seq<Match>) {
    forall m :: m in ms ==> m.start < |s| && MatchAt(s, m.start) == Some(m)
  }

  lemma ReportedCons(s: string, m: Match, rest: seq<Match>)
    requires m.start < |s| && MatchAt(s, m.start) == Some(m) && Reported(s, rest)
    ensures Reported(s, [m] + rest)
  {
    forall m' | m' in [m] + rest ensures m'.start < |s| && MatchAt(s, m'.start) == Some(m') {
      if m' != m {
        assert m' in rest;
      }
    }
  }

  lemma ReportedConcat(s: string, a: seq<Match>, b: seq<Match>)
    requires Reported(s, a) && Reported(s, b)
    ensures Reported(s, a + b)
  {
    forall m | m in a + b ensures m.start < |s| && MatchAt(s, m.start) == Some(m) {
      if m !in a {
        assert m in b;
      }
    }
  }

  /** Every match `re.finditer` reports is what the joined pattern reports at its start. */
  lemma {:induction false} FindIterMatchAt(s: string, p: nat)
    requires p <= |s|
    ensures Reported(s, FindIter(s, p))
    decreases |s| - p
  {
    if p < |s| {
      FindIterMatchAt(s, Resume(s, p));
      ReportedStep(s, p);
    }
  }

  /** Where `re.finditer` goes on scanning after position p. */
  function Resume(s: string, p: nat): (q: nat)
    requires p < |s|
    ensures p < q <= |s|
  {
    match MatchAt(s, p)
    case None => p + 1
    case Some(m) => m.end
  }

  lemma ReportedStep(s: string, p: nat)
    requires p < |s| && Reported(s, FindIter(s, Resume(s, p)))
    ensures Reported(s, FindIter(s, p))
  {
    match MatchAt(s, p)
    case None =>
      FindIterSkip(s, p);
    case Some(m) =>
      FindIterStep(s, p, m);
      ReportedCons(s, m, FindIter(s, m.end));
  }

  /** The matches ms cover positions p to q one after the other, each starting where the previous one ends. */
  predicate Tiling(ms: seq<Match>, p: nat, q: nat)
  {
    if ms == [] then p == q else ms[0].start == p && Tiling(ms[1..], ms[0].end, q)
  }

  lemma {:induction false} TilingConcat(a: seq<Match>, b: seq<Match>, p: nat, q: nat, r: nat)
    requires Tiling(a, p, q) && Tiling(b, q, r)
    ensures Tiling(a + b, p, r)
    decreases |a|
  {
    if a == [] {
      assert a + b == b;
    } else {
      assert (a + b)[1..] == a[1..] + b;
      TilingConcat(a[1..], b, a[0].end, q, r);
    }
  }

  /** Matches the joined pattern reports, tiling the input from p to its end, are exactly
      what `re.finditer` yields from p. */
  lemma {:induction false} FindIterTiles(s: string, p: nat, ms: seq<Match>)
    requires p <= |s| && Reported(s, ms) && Tiling(ms, p, |s|)
    ensures FindIter(s, p) == ms
    decreases |ms|
  {
    if ms != [] {
      var m := ms[0];
      assert m in ms;
      FindIterStep(s, p, m);
      var rest := ms[1..];
      assert forall x :: x in rest ==> x in ms;
      FindIterTiles(s, m.end, rest);
    }
  }

  /** Every match `re.finditer` reports is the winner of the table at its start. */
  lemma FindIterMatches(s: string, p: nat)
    requires p <= |s|
    ensures forall m :: m in FindIter(s, p) ==> m.start < |s| && MatchAt(s, m.start) == Some(m)
    ensures forall m :: m in FindIter(s, p) ==> Wins(m.kind, s, m.start, m.end)
  {
    FindIterMatchAt(s, p);
    forall m | m in FindIter(s, p) ensures Wins(m.kind, s, m.start, m.end) {
      MatchAtSpec(s, m.start);
    }
  }

  /** A character no alternative can start with yields no match: scanning resumes one position on. */
  lemma SkipUnmatched(s: string, p: nat)
    requires p < |s| && !StartChar(s[p])
    ensures FindIter(s, p) == FindIter(s, p + 1)
  {
    NoMatchIff(s, p);
  }

  /** `lexer` yields no whitespace token, and each token's lexeme has the shape of its kind;
      in particular every keyword lexeme is one of the four reserved words. */
  lemma LexerKinds(s: string)
    ensures forall t :: t in Lexer(s) ==> t.kind != Whitespace && Shape(t.kind, t.lexeme)
    ensures forall t :: t in Lexer(s) && t.kind == Keyword ==> t.lexeme in Keywords
  {
    var ms := FindIter(s, 0);
    FindIterMatches(s, 0);
    EmitSignificant(s, ms);
    SignificantSub(ms);
    forall t | t in Lexer(s) ensures t.kind != Whitespace && Shape(t.kind, t.lexeme) {
      var i :| 0 <= i < |Lexer(s)| && Lexer(s)[i] == t;
      var m := Significant(ms)[i];
      assert m in Significant(ms);
      assert RuleMatches(m.kind, s, m.start, m.end);
    }
  }

  /** The tokens of `lexer` are the non-whitespace matches, left to right and not overlapping,
      each with the exact input text it spans as its lexeme. */
  lemma LexerSpans(s: string)
    ensures var sig := Significant(FindIter(s, 0));
      && |Lexer(s)| == |sig|
      && (forall i :: 0 <= i < |sig| ==> sig[i].start < sig[i].end <= |s|)
      && (forall i :: 0 <= i < |sig| ==> Lexer(s)[i] == TokenOf(s, sig[i]))
      && (forall i, j :: 0 <= i < j < |sig| ==> sig[i].end <= sig[j].start)
  {
    var ms := FindIter(s, 0);
    var sig := Significant(ms);
    FindIterOrdered(s, 0);
    SignificantOrdered(ms);
    EmitSignificant(s, ms);
    SignificantSub(ms);
    forall i | 0 <= i < |sig| ensures sig[i].start < sig[i].end <= |s| {
      assert sig[i] in ms;
    }
  }

  // ---------------------------------------------------------------- priority

  /** A reserved word standing alone is a keyword: the keyword alternative comes first. */
  lemma KeywordWins(s: string, p: nat, w: string)
    requires w in Keywords && OccursAt(s, p, w)
    requires Boundary(s, p) && Boundary(s, p + |w|)
    ensures p < |s| && MatchAt(s, p) == Some(Match(Keyword, p, p + |w|))
  {
    var e := p + |w|;
    KeywordLetters(w);
    assert s[p..e] == w && s[p] == w[0];
    KeywordEndSpec(s, p, Keywords);
    var r := KeywordEnd(s, p, Keywords);
    if r.Some? {
      KeywordUnique(s, p, r.value, e);
    }
    WordDecides(s, p);
  }

  /** Two reserved words standing at p and each followed by a boundary are the same word:
      the shorter would be followed by a letter of the longer. */
  lemma KeywordUnique(s: string, p: nat, e1: nat, e2: nat)
    requires p <= e1 <= |s| && p <= e2 <= |s|
    requires s[p..e1] in Keywords && s[p..e2] in Keywords
    requires Boundary(s, e1) && Boundary(s, e2)
    ensures e1 == e2
  {
    if e1 != e2 {
      var lo, hi := if e1 < e2 then e1 else e2, if e1 < e2 then e2 else e1;
      KeywordLetters(s[p..lo]);
      assert |s[p..lo]| > 0;
      LettersOf(s, p, hi);
      assert false;
    }
  }

  /** A reserved word is scanned as an identifier only when a word character stands right
      before it, as in `3if`, so that the leading `\b` of the keyword alternative fails. */
  lemma IdentifierNamedLikeKeyword(s: string, p: nat, e: nat)
    requires p < |s| && MatchAt(s, p) == Some(Match(Identifier, p, e))
    requires s[p..e] in Keywords
    ensures p > 0 && IsWordChar(s[p - 1])
  {
    MatchAtSpec(s, p);
    assert Wins(Identifier, s, p, e);
    KeywordLetters(s[p..e]);
    assert s[p..e][e - 1 - p] == s[e - 1];
    assert Boundary(s, e) by {
      if e < |s| {
        assert !RuleMatches(Identifier, s, p, e + 1);
        assert forall i :: 0 <= i < e - p ==> s[p..e + 1][i] == s[p..e][i];
      }
    }
    assert s[p..e][0] == s[p];
    assert Rank(Keyword) < Rank(Identifier);
    assert !RuleMatches(Keyword, s, p, e);
  }

  /** Priority: an alternative that matches at p, with every alternative before it in the
      table failing there, is the one the joined pattern reports. */
  lemma {:induction false} FirstRuleAt(s: string, p: nat, i: nat, k: Kind, e: nat)
    requires p < |s| && i <= Rank(k) && RuleEnd(k, s, p) == Some(e)
    requires forall k' :: i <= Rank(k') < Rank(k) ==> RuleEnd(k', s, p).None?
    ensures FirstRule(s, p, i) == Some(Match(k, p, e))
    decreases Rank(k) - i
  {
    if i < Rank(k) {
      assert Rank(Table[i]) == i;
      FirstRuleAt(s, p, i + 1, k, e);
    }
  }

  /** A whole word that is not reserved is an identifier, however it is delimited on its left. */
  lemma IdentifierWins(s: string, p: nat, e: nat)
    requires p < e <= |s| && (IsLetter(s[p]) || s[p] == '_')
    requires forall i :: p <= i < e ==> IsWordChar(s[i])
    requires e == |s| || !IsWordChar(s[e])
    requires s[p..e] !in Keywords
    ensures MatchAt(s, p) == Some(Match(Identifier, p, e))
  {
    KeywordEndSpec(s, p, Keywords);
    match RuleEnd(Keyword, s, p)
    case Some(e') =>
      KeywordLetters(s[p..e']);
      LettersOf(s, p, e');
      assert false;
    case None =>
      WordDecides(s, p);
  }

  lemma LettersOf(s: string, p: nat, e: nat)
    requires p <= e <= |s| && s[p..e] in Keywords
    ensures forall i :: p <= i < e ==> IsLetter(s[i])
  {
    KeywordLetters(s[p..e]);
    forall i | p <= i < e ensures IsLetter(s[i]) { assert s[p..e][i - p] == s[i]; }
  }

  // The first character decides the alternative; only a letter or `_` leaves a choice,
  // between a keyword and an identifier.

  /** A digit starts a number. */
  lemma DigitDecides(s: string, p: nat)
    requires p < |s| && IsDigit(s[p])
    ensures MatchAt(s, p) == Some(Match(Number, p, RuleEnd(Number, s, p).value))
  {
    KeywordEndSpec(s, p, Keywords);
    match RuleEnd(Keyword, s, p)
    case Some(e) =>
      KeywordLetters(s[p..e]);
    case None =>
      FirstRuleAt(s, p, 0, Number, RuleEnd(Number, s, p).value);
  }

  /** A letter or `_` starts a keyword when the keyword alternative matches, an identifier otherwise. */
  lemma WordDecides(s: string, p: nat)
    requires p < |s| && (IsLetter(s[p]) || s[p] == '_')
    ensures MatchAt(s, p) == match RuleEnd(Keyword, s, p)
                             case Some(e) => Some(Match(Keyword, p, e))
                             case None => Some(Match(Identifier, p, RuleEnd(Identifier, s, p).value))
  {
    match RuleEnd(Keyword, s, p)
    case Some(e) =>
      FirstRuleAt(s, p, 0, Keyword, e);
    case None =>
      var k := Identifier;
      forall k' | Rank(k') < Rank(k) ensures RuleEnd(k', s, p).None? {
      }
      FirstRuleAt(s, p, 0, k, RuleEnd(k, s, p).value);
  }

  /** A run of digits, optionally followed by a point and a second run of digits, is one number. */
  lemma NumberWins(s: string, p: nat, e: nat)
    requires p < e <= |s| && IsDigit(s[p])
    requires forall i :: p <= i < e ==> IsDigit(s[i]) || s[i] == '.'
    requires forall i, j :: p <= i < j < e && s[i] == '.' ==> s[j] != '.'
    requires e == |s| || (!IsDigit(s[e]) && (s[e] == '.' ==> exists i :: p <= i < e && s[i] == '.'))
    ensures MatchAt(s, p) == Some(Match(Number, p, e))
  {
    DigitDecides(s, p);
    var d := RunEnd(s, p, Digits);
    if d < e {
      assert s[d] == '.';
      assert RunEnd(s, d + 1, Digits) == e;
    }
  }

  /** A whitespace character starts a whitespace run. */
  lemma SpaceDecides(s: string, p: nat)
    requires p < |s| && IsSpace(s[p])
    ensures MatchAt(s, p) == Some(Match(Whitespace, p, RuleEnd(Whitespace, s, p).value))
  {
    KeywordEndSpec(s, p, Keywords);
    match RuleEnd(Keyword, s, p)
    case Some(e) =>
      KeywordLetters(s[p..e]);
    case None =>
      var k := Whitespace;
      forall k' | Rank(k') < Rank(k) ensures RuleEnd(k', s, p).None? {
      }
      FirstRuleAt(s, p, 0, k, RuleEnd(k, s, p).value);
  }

  /** A whole run of whitespace is one whitespace match. */
  lemma SpaceWins(s: string, p: nat, e: nat)
    requires p < e <= |s|
    requires forall i :: p <= i < e ==> IsSpace(s[i])
    requires e == |s| || !IsSpace(s[e])
    ensures MatchAt(s, p) == Some(Match(Whitespace, p, e))
  {
    SpaceDecides(s, p);
    assert InClass(s[p], Spaces);
  }

  /** The kind of a one-character token. */
  function SymbolKind(c: char): (k: Kind)
    requires c in "=+-*/<>(){};"
    ensures RuleEnd(k, [c], 0) == Some(1)
  {
    if c == '=' then Assign
    else if c in OperatorChars then Operator
    else if c == '(' then LParen
    else if c == ')' then RParen
    else if c == '{' then LBrace
    else if c == '}' then RBrace
    else Semicolon
  }

  /** An operator or punctuation character is a one-character token of its own kind. */
  lemma SymbolDecides(s: string, p: nat)
    requires p < |s| && s[p] in "=+-*/<>(){};"
    ensures MatchAt(s, p) == Some(Match(SymbolKind(s[p]), p, p + 1))
  {
    KeywordEndSpec(s, p, Keywords);
    match RuleEnd(Keyword, s, p)
    case Some(e) =>
      KeywordLetters(s[p..e]);
    case None =>
      var k := SymbolKind(s[p]);
      forall k' | Rank(k') < Rank(k) ensures RuleEnd(k', s, p).None? {
      }
      FirstRuleAt(s, p, 0, k, p + 1);
  }

  /** One step of `re.finditer` where the pattern does not match: one character is skipped. */
  lemma FindIterSkip(s: string, p: nat)
    requires p < |s| && MatchAt(s, p).None?
    ensures FindIter(s, p) == FindIter(s, p + 1)
  {
  }

  /** One step of `re.finditer`: a match at p is reported, and scanning goes on after it. */
  lemma FindIterStep(s: string, p: nat, m: Match)
    requires p < |s| && MatchAt(s, p) == Some(m)
    ensures FindIter(s, p) == [m] + FindIter(s, m.end)
  {
  }
}

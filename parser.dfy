/**
  The syntactic analyser of analisador.py: class `Parser`, a predictive
  recursive-descent recogniser that builds no tree and either returns or raises.

  The source keeps the unread tokens in a list and pops its head into
  `current_token`. Here the token list is fixed and a cursor `pos` indexes the
  current token; `pos == |tokens|` is the exhausted stream, where
  `current_token` is None.

  Each production has two forms. A state-passing function (`ProgramEnd`,
  `DeclarationEnd`, ...) maps the cursor before the production to an
  `Outcome`: the cursor after it, or the cursor at the token on which it
  raised. A method of the class runs the production on the shared cursor and
  is proved to do what the function says. Every exception of the source is one
  failure outcome.
*/
module Syntax {
  import opened Wrappers
  import opened Lexical

  /** How a production ends: it returned (`Done`) or raised (`Failed`); `pos` is the cursor then. */
  datatype Outcome = Done(pos: nat) | Failed(pos: nat) {
    predicate IsFailure() { Failed? }

    function PropagateFailure(): (r: Outcome)
      requires Failed?
    {
      this
    }

    function Extract(): (p: nat)
      requires Done?
    {
      pos
    }
  }

  /** The outcome a method reports through its success flag and the cursor it leaves. */
  function Status(ok: bool, pos: nat): (o: Outcome) {
    if ok then Done(pos) else Failed(pos)
  }

  /** `current_token` when the cursor is at p. */
  function CurrentAt(ts: seq<Token>, p: nat): (t: Option<Token>) {
    if p < |ts| then Some(ts[p]) else None
  }

  /** A token `expression` accepts as an operand. */
  predicate IsOperand(t: Token) {
    t.kind == Identifier || t.kind == Number
  }

  // ---------------------------------------------------------------- fixed token sequences

  /** A fixed token sequence: at each place, the kinds allowed there. */
  type Pattern = seq<set<Kind>>

  const DeclarationPattern: Pattern := [{Keyword}, {Identifier}, {Assign}, {Number}, {Semicolon}]

  const ExpressionPattern: Pattern := [{Identifier, Number}, {Operator}, {Identifier, Number}]

  const AssignmentPattern: Pattern := [{Identifier}, {Assign}] + ExpressionPattern + [{Semicolon}]

  /** The tokens `conditional` matches before the block: `KEYWORD ( IDENTIFIER OPERATOR NUMBER ) {`.
      Any keyword passes here; that it is `if` comes from the dispatch of `program`. */
  const ConditionHeadPattern: Pattern := [{Keyword}, {LParen}, {Identifier}, {Operator}, {Number}, {RParen}, {LBrace}]

  /** The tokens from p on follow the pattern. */
  ghost predicate Fits(ts: seq<Token>, p: nat, pat: Pattern) {
    p + |pat| <= |ts| && forall i :: p <= i < p + |pat| ==> ts[i].kind in pat[i - p]
  }

  /** Position q is where the tokens from p on first leave the pattern: the tokens before q
      fit, and at q the stream is exhausted or the token has a kind the pattern does not allow. */
  ghost predicate LeavesAt(ts: seq<Token>, p: nat, pat: Pattern, q: nat) {
    && p <= q < p + |pat| && q <= |ts|
    && (forall i :: p <= i < q ==> ts[i].kind in pat[i - p])
    && (q == |ts| || ts[q].kind !in pat[q - p])
  }

  // ---------------------------------------------------------------- the productions as functions

  /** `match(k)` with the cursor at p. */
  function MatchEnd(ts: seq<Token>, p: nat, k: Kind): (r: Outcome)
    requires p <= |ts|
    ensures p <= r.pos <= |ts|
    ensures r.Done? ==> r.pos == p + 1
  {
    if p < |ts| && ts[p].kind == k then Done(p + 1) else Failed(p)
  }

  /** `declaration`: KEYWORD IDENTIFIER ASSIGN NUMBER SEMICOLON. */
  function DeclarationEnd(ts: seq<Token>, p: nat): (r: Outcome)
    requires p <= |ts|
    ensures r.Done? <==> Fits(ts, p, DeclarationPattern)
    ensures r.Done? ==> r.pos == p + 5
    ensures r.Failed? ==> LeavesAt(ts, p, DeclarationPattern, r.pos)
  {
    var p1 :- MatchEnd(ts, p, Keyword);
    var p2 :- MatchEnd(ts, p1, Identifier);
    var p3 :- MatchEnd(ts, p2, Assign);
    var p4 :- MatchEnd(ts, p3, Number);
    MatchEnd(ts, p4, Semicolon)
  }

  /** `expression`: an operand, an operator, and an operand. */
  function ExpressionEnd(ts: seq<Token>, p: nat): (r: Outcome)
    requires p <= |ts|
    ensures r.Done? <==> Fits(ts, p, ExpressionPattern)
    ensures r.Done? ==> r.pos == p + 3
    ensures r.Failed? ==> LeavesAt(ts, p, ExpressionPattern, r.pos)
  {
    if p < |ts| && IsOperand(ts[p]) then
      var q :- MatchEnd(ts, p + 1, Operator);
      if q < |ts| && IsOperand(ts[q]) then Done(q + 1) else Failed(q)
    else
      Failed(p)
  }

  /** `assignment`: IDENTIFIER ASSIGN, an expression, SEMICOLON. */
  function AssignmentEnd(ts: seq<Token>, p: nat): (r: Outcome)
    requires p <= |ts|
    ensures r.Done? <==> Fits(ts, p, AssignmentPattern)
    ensures r.Done? ==> r.pos == p + 6
    ensures r.Failed? ==> LeavesAt(ts, p, AssignmentPattern, r.pos)
  {
    var p1 :- MatchEnd(ts, p, Identifier);
    var p2 :- MatchEnd(ts, p1, Assign);
    var p3 :- ExpressionEnd(ts, p2);
    MatchEnd(ts, p3, Semicolon)
  }

  /** `conditional`: `KEYWORD ( IDENTIFIER OPERATOR NUMBER ) {`, a block, and the closing brace. */
  function ConditionalEnd(ts: seq<Token>, p: nat): (r: Outcome)
    requires p <= |ts|
    ensures p <= r.pos <= |ts|
    ensures r.Done? ==> Fits(ts, p, ConditionHeadPattern) && p + 8 <= r.pos && ts[r.pos - 1].kind == RBrace
    decreases |ts| - p, 0
  {
    var p1 :- MatchEnd(ts, p, Keyword);
    var p2 :- MatchEnd(ts, p1, LParen);
    var p3 :- MatchEnd(ts, p2, Identifier);
    var p4 :- MatchEnd(ts, p3, Operator);
    var p5 :- MatchEnd(ts, p4, Number);
    var p6 :- MatchEnd(ts, p5, RParen);
    var p7 :- MatchEnd(ts, p6, LBrace);
    var b :- ProgramEnd(ts, p7);
    MatchEnd(ts, b, RBrace)
  }

  /** The token starts a declaration in the dispatch of `program`. */
  predicate StartsDeclaration(t: Token) {
    t.kind == Keyword && t.lexeme in ["int", "float"]
  }

  /** The token starts a conditional in the dispatch of `program`. */
  predicate StartsConditional(t: Token) {
    t.kind == Keyword && t.lexeme == "if"
  }

  /** `program`: statements, dispatched on the current token, until a closing brace or the
      end of the stream. */
  function ProgramEnd(ts: seq<Token>, p: nat): (r: Outcome)
    requires p <= |ts|
    ensures p <= r.pos <= |ts|
    ensures r.Done? ==> r.pos == |ts| || ts[r.pos].kind == RBrace
    decreases |ts| - p, 1
  {
    if p == |ts| then Done(p)
    else
      var t := ts[p];
      if StartsDeclaration(t) then
        var q :- DeclarationEnd(ts, p);
        ProgramEnd(ts, q)
      else if t.kind == Identifier then
        var q :- AssignmentEnd(ts, p);
        ProgramEnd(ts, q)
      else if StartsConditional(t) then
        var q :- ConditionalEnd(ts, p);
        ProgramEnd(ts, q)
      else if t.kind == RBrace then Done(p)
      else Failed(p)
  }

  /** `parse`: the outcome of `program` on a fresh cursor. */
  function Recognizes(ts: seq<Token>): (accepted: bool) {
    ProgramEnd(ts, 0).Done?
  }

  // ---------------------------------------------------------------- class Parser

  class Parser {
    /** The tokens handed to the constructor. */
    const tokens: seq<Token>
    /** The index of the current token; |tokens| once the stream is exhausted. */
    var pos: nat
    /** `current_token`. */
    var current: Option<Token>

    ghost predicate Valid()
      reads this
    {
      pos <= |tokens| && current == CurrentAt(tokens, pos)
    }

    /** The list `self.tokens` of the source: the tokens after the current one. */
    ghost function Rest(): (rest: seq<Token>)
      reads this
      requires Valid()
    {
      if pos < |tokens| then tokens[pos + 1..] else []
    }

    /** `__init__`: keeps the tokens and moves to the first one. */
    constructor (ts: seq<Token>)
      ensures Valid() && tokens == ts && pos == 0
    {
      tokens := ts;
      pos := 0;
      current := CurrentAt(ts, 0);
    }

    /** `next_token`: pops the head of the remaining list into the current token, or sets it
        to None when the list is empty. */
    method NextToken()
      requires Valid()
      modifies this
      ensures Valid()
      ensures pos == if old(pos) < |tokens| then old(pos) + 1 else old(pos)
      ensures current == if old(Rest()) == [] then None else Some(old(Rest())[0])
    {
      if pos + 1 < |tokens| {
        pos := pos + 1;
        current := Some(tokens[pos]);
      } else {
        pos := |tokens|;
        current := None;
      }
    }

    /** `match(k)`: consumes the current token when it has kind k, and raises otherwise,
        in particular when the stream is exhausted. */
    method Match(k: Kind) returns (ok: bool)
      requires Valid()
      modifies this
      ensures Valid()
      ensures ok <==> old(current).Some? && old(current).value.kind == k
      ensures pos == if ok then old(pos) + 1 else old(pos)
      ensures Status(ok, pos) == MatchEnd(tokens, old(pos), k)
    {
      if current.Some? && current.value.kind == k {
        NextToken();
        ok := true;
      } else {
        ok := false;
      }
    }

    /** `declaration`. */
    method Declaration() returns (ok: bool)
      requires Valid()
      modifies this
      ensures Valid()
      ensures Status(ok, pos) == DeclarationEnd(tokens, old(pos))
    {
      ok := Match(Keyword);
      if !ok { return; }
      ok := Match(Identifier);
      if !ok { return; }
      ok := Match(Assign);
      if !ok { return; }
      ok := Match(Number);
      if !ok { return; }
      ok := Match(Semicolon);
    }

    /** `assignment`. */
    method Assignment() returns (ok: bool)
      requires Valid()
      modifies this
      ensures Valid()
      ensures Status(ok, pos) == AssignmentEnd(tokens, old(pos))
    {
      ok := Match(Identifier);
      if !ok { return; }
      ok := Match(Assign);
      if !ok { return; }
      ok := Expression();
      if !ok { return; }
      ok := Match(Semicolon);
    }

    /** `expression`: reading the kind of a missing current token raises in the source,
        which is a failure here like every other raise. */
    method Expression() returns (ok: bool)
      requires Valid()
      modifies this
      ensures Valid()
      ensures Status(ok, pos) == ExpressionEnd(tokens, old(pos))
    {
      if current.Some? && IsOperand(current.value) {
        NextToken();
        ok := Match(Operator);
        if !ok { return; }
        if current.Some? && IsOperand(current.value) {
          NextToken();
        } else {
          ok := false;
        }
      } else {
        ok := false;
      }
    }

    /** `conditional`. */
    method Conditional() returns (ok: bool)
      requires Valid()
      modifies this
      ensures Valid()
      ensures Status(ok, pos) == ConditionalEnd(tokens, old(pos))
      decreases |tokens| - pos, 0
    {
      ok := Match(Keyword);
      if !ok { return; }
      ok := Match(LParen);
      if !ok { return; }
      ok := Match(Identifier);
      if !ok { return; }
      ok := Match(Operator);
      if !ok { return; }
      ok := Match(Number);
      if !ok { return; }
      ok := Match(RParen);
      if !ok { return; }
      ok := Match(LBrace);
      if !ok { return; }
      ok := Program();
      if !ok { return; }
      ok := Match(RBrace);
    }

    /** `program`: the dispatch loop, which stops at a closing brace or the end of the stream. */
    method Program() returns (ok: bool)
      requires Valid()
      modifies this
      ensures Valid()
      ensures Status(ok, pos) == ProgramEnd(tokens, old(pos))
      decreases |tokens| - pos, 1
    {
      while current.Some?
        invariant Valid()
        invariant old(pos) <= pos
        invariant ProgramEnd(tokens, pos) == ProgramEnd(tokens, old(pos))
        decreases |tokens| - pos
      {
        var t := current.value;
        if StartsDeclaration(t) {
          ok := Declaration();
        } else if t.kind == Identifier {
          ok := Assignment();
        } else if StartsConditional(t) {
          ok := Conditional();
        } else if t.kind == RBrace {
          break;
        } else {
          return false;
        }
        if !ok { return; }
      }
      return true;
    }

    /** `parse`. */
    method Parse() returns (ok: bool)
      requires Valid()
      modifies this
      ensures Valid()
      ensures Status(ok, pos) == ProgramEnd(tokens, old(pos))
    {
      ok := Program();
    }
  }

  /** Lexing a text and parsing its tokens with a fresh parser, as the examples of the source
      do: the outcome depends on the text alone, so running it again gives the same answer. */
  method Analyze(source: string) returns (ok: bool)
    ensures ok == Recognizes(Lexer(source))
  {
    var parser := new Parser(Lexer(source));
    ok := parser.Parse();
  }
}

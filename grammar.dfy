/**
  The grammar the recogniser of analisador.py accepts, written as predicates on
  token sequences independently of the recogniser, and the proof that `program`
  accepts exactly the blocks of this grammar and stops right after them.
*/
module Grammar {
  import opened Lexical
  import opened Syntax

  /** `int NAME = NUMBER ;` (or `float ...`). */
  ghost predicate IsDeclaration(ts: seq<Token>) {
    && |ts| == 5 && StartsDeclaration(ts[0]) && ts[1].kind == Identifier
    && ts[2].kind == Assign && ts[3].kind == Number && ts[4].kind == Semicolon
  }

  /** `NAME = OPERAND OPERATOR OPERAND ;`, an operand being a name or a number. */
  ghost predicate IsAssignment(ts: seq<Token>) {
    && |ts| == 6 && ts[0].kind == Identifier && ts[1].kind == Assign
    && IsOperand(ts[2]) && ts[3].kind == Operator && IsOperand(ts[4]) && ts[5].kind == Semicolon
  }

  /** `if ( NAME OPERATOR NUMBER ) { BLOCK }`. */
  ghost predicate IsConditional(ts: seq<Token>)
    decreases |ts|, 0
  {
    && |ts| >= 8 && StartsConditional(ts[0]) && ts[1].kind == LParen && ts[2].kind == Identifier
    && ts[3].kind == Operator && ts[4].kind == Number && ts[5].kind == RParen && ts[6].kind == LBrace
    && IsBlock(ts[7..|ts| - 1]) && ts[|ts| - 1].kind == RBrace
  }

  ghost predicate IsStatement(ts: seq<Token>)
    decreases |ts|, 1
  {
    IsDeclaration(ts) || IsAssignment(ts) || IsConditional(ts)
  }

  /** A block: zero or more statements one after another. */
  ghost predicate IsBlock(ts: seq<Token>)
    decreases |ts|, 2
  {
    ts == [] || exists k :: 0 < k <= |ts| && IsStatement(ts[..k]) && IsBlock(ts[k..])
  }

  /** A block is a statement followed by a block. */
  lemma BlockCons(ts: seq<Token>, p: nat, m: nat, q: nat)
    requires p < m <= q <= |ts|
    requires IsStatement(ts[p..m]) && IsBlock(ts[m..q])
    ensures IsBlock(ts[p..q])
  {
    var b := ts[p..q];
    assert b[..m - p] == ts[p..m];
    assert b[m - p..] == ts[m..q];
  }

  /** `conditional` matches its head, runs `program` right after it, and then needs the brace. */
  lemma ConditionalSteps(ts: seq<Token>, p: nat)
    requires p <= |ts|
    ensures ConditionalEnd(ts, p).Done? ==>
              && Fits(ts, p, ConditionHeadPattern) && ProgramEnd(ts, p + 7).Done?
              && ConditionalEnd(ts, p).pos == ProgramEnd(ts, p + 7).pos + 1
              && ts[ProgramEnd(ts, p + 7).pos].kind == RBrace
    ensures Fits(ts, p, ConditionHeadPattern) && ProgramEnd(ts, p + 7).Done?
            && ProgramEnd(ts, p + 7).pos < |ts| && ts[ProgramEnd(ts, p + 7).pos].kind == RBrace
            ==> ConditionalEnd(ts, p) == Done(ProgramEnd(ts, p + 7).pos + 1)
  {
  }

  // ---------------------------------------------------------------- soundness

  /** What `program` accepts is a block. */
  lemma {:induction false} ProgramSound(ts: seq<Token>, p: nat)
    requires p <= |ts|
    ensures ProgramEnd(ts, p).Done? ==> IsBlock(ts[p..ProgramEnd(ts, p).pos])
    decreases |ts| - p, 1
  {
    var r := ProgramEnd(ts, p);
    if p < |ts| && r.Done? {
      var t := ts[p];
      if StartsDeclaration(t) {
        var m := DeclarationEnd(ts, p).pos;
        ProgramSound(ts, m);
        assert IsDeclaration(ts[p..m]);
        BlockCons(ts, p, m, r.pos);
      } else if t.kind == Identifier {
        var m := AssignmentEnd(ts, p).pos;
        ProgramSound(ts, m);
        assert IsAssignment(ts[p..m]) by {
          assert ts[p + 2].kind in AssignmentPattern[2] && ts[p + 4].kind in AssignmentPattern[4];
        }
        BlockCons(ts, p, m, r.pos);
      } else if StartsConditional(t) {
        var m := ConditionalEnd(ts, p).pos;
        ConditionalSound(ts, p);
        ProgramSound(ts, m);
        BlockCons(ts, p, m, r.pos);
      } else {
        assert ts[p..r.pos] == [];
      }
    } else if r.Done? {
      assert ts[p..r.pos] == [];
    }
  }

  /** What `conditional` accepts, started on an `if`, is a conditional statement. */
  lemma {:induction false} ConditionalSound(ts: seq<Token>, p: nat)
    requires p < |ts| && StartsConditional(ts[p])
    ensures ConditionalEnd(ts, p).Done? ==> IsConditional(ts[p..ConditionalEnd(ts, p).pos])
    decreases |ts| - p, 0
  {
    ConditionalSteps(ts, p);
    if ConditionalEnd(ts, p).Done? {
      var q := ConditionalEnd(ts, p).pos;
      ProgramSound(ts, p + 7);
      HeadKinds(ts, p);
      ConditionalShape(ts, p, q);
    }
  }

  /** A conditional statement laid out in place. */
  lemma ConditionalShape(ts: seq<Token>, p: nat, q: nat)
    requires p + 8 <= q <= |ts| && StartsConditional(ts[p])
    requires ts[p + 1].kind == LParen && ts[p + 2].kind == Identifier && ts[p + 3].kind == Operator
    requires ts[p + 4].kind == Number && ts[p + 5].kind == RParen && ts[p + 6].kind == LBrace
    requires IsBlock(ts[p + 7..q - 1]) && ts[q - 1].kind == RBrace
    ensures IsConditional(ts[p..q])
  {
    var c := ts[p..q];
    SliceOfSlice(ts, p, q, 7, q - p - 1);
    assert c[0] == ts[p] && c[1] == ts[p + 1] && c[2] == ts[p + 2] && c[3] == ts[p + 3];
    assert c[4] == ts[p + 4] && c[5] == ts[p + 5] && c[6] == ts[p + 6] && c[|c| - 1] == ts[q - 1];
  }

  lemma HeadKinds(ts: seq<Token>, p: nat)
    requires Fits(ts, p, ConditionHeadPattern)
    ensures ts[p + 1].kind == LParen && ts[p + 2].kind == Identifier && ts[p + 3].kind == Operator
    ensures ts[p + 4].kind == Number && ts[p + 5].kind == RParen && ts[p + 6].kind == LBrace
  {
    assert ts[p + 1].kind in ConditionHeadPattern[1] && ts[p + 2].kind in ConditionHeadPattern[2];
    assert ts[p + 3].kind in ConditionHeadPattern[3] && ts[p + 4].kind in ConditionHeadPattern[4];
    assert ts[p + 5].kind in ConditionHeadPattern[5] && ts[p + 6].kind in ConditionHeadPattern[6];
  }

  // ---------------------------------------------------------------- completeness

  /** `program` accepts every block that is followed by a closing brace or the end of the
      stream, and stops exactly there. */
  lemma {:induction false} ProgramComplete(ts: seq<Token>, p: nat, q: nat)
    requires p <= q <= |ts| && IsBlock(ts[p..q])
    requires q == |ts| || ts[q].kind == RBrace
    ensures ProgramEnd(ts, p) == Done(q)
    decreases q - p, 2
  {
    if p < q {
      var m := BlockHead(ts, p, q);
      ProgramComplete(ts, m, q);
      StatementComplete(ts, p, m);
    }
  }

  /** A non-empty block starts with a statement. */
  lemma BlockHead(ts: seq<Token>, p: nat, q: nat) returns (m: nat)
    requires p < q <= |ts| && IsBlock(ts[p..q])
    ensures p < m <= q && IsStatement(ts[p..m]) && IsBlock(ts[m..q])
  {
    var b := ts[p..q];
    var k :| 0 < k <= |b| && IsStatement(b[..k]) && IsBlock(b[k..]);
    m := p + k;
    SliceOfSlice(ts, p, q, 0, k);
    SliceOfSlice(ts, p, q, k, q - p);
  }

  /** The dispatch of `program` runs a whole statement: from its first token the cursor
      reaches the token after it. */
  lemma {:induction false} StatementComplete(ts: seq<Token>, p: nat, m: nat)
    requires p < m <= |ts| && IsStatement(ts[p..m])
    ensures ProgramEnd(ts, p) == ProgramEnd(ts, m)
    decreases m - p, 1
  {
    var st := ts[p..m];
    assert forall i :: 0 <= i < |st| ==> st[i] == ts[p + i];
    if IsDeclaration(st) {
      assert DeclarationEnd(ts, p) == Done(m);
    } else if IsAssignment(st) {
      assert AssignmentEnd(ts, p) == Done(m);
    } else {
      ConditionalComplete(ts, p, m);
    }
  }

  /** `conditional` accepts every conditional statement and stops right after its brace. */
  lemma {:induction false} ConditionalComplete(ts: seq<Token>, p: nat, q: nat)
    requires p <= q <= |ts| && IsConditional(ts[p..q])
    ensures ConditionalEnd(ts, p) == Done(q)
    decreases q - p, 0
  {
    var c := ts[p..q];
    SliceOfSlice(ts, p, q, 7, q - p - 1);
    assert forall i :: 0 <= i < |c| ==> c[i] == ts[p + i];
    ProgramComplete(ts, p + 7, q - 1);
    ConditionalSteps(ts, p);
  }

  // ---------------------------------------------------------------- what `parse` accepts

  /** `parse` returns exactly on the token streams that start with a block followed by a
      closing brace or by the end of the stream; anything after such a brace is never read. */
  lemma ParseAccepts(ts: seq<Token>)
    ensures Recognizes(ts) <==>
              exists q :: 0 <= q <= |ts| && IsBlock(ts[..q]) && (q == |ts| || ts[q].kind == RBrace)
  {
    if Recognizes(ts) {
      var q := ProgramEnd(ts, 0).pos;
      ProgramSound(ts, 0);
      assert ts[0..q] == ts[..q];
    }
    if exists q :: 0 <= q <= |ts| && IsBlock(ts[..q]) && (q == |ts| || ts[q].kind == RBrace) {
      var q :| 0 <= q <= |ts| && IsBlock(ts[..q]) && (q == |ts| || ts[q].kind == RBrace);
      assert ts[0..q] == ts[..q];
      ProgramComplete(ts, 0, q);
    }
  }

  lemma SliceOfSlice(ts: seq<Token>, p: nat, q: nat, i: nat, j: nat)
    requires p <= q <= |ts| && i <= j <= q - p
    ensures ts[p..q][i..j] == ts[p + i..p + j]
  {
    var a, b := ts[p..q][i..j], ts[p + i..p + j];
    assert |a| == |b|;
    forall k | 0 <= k < |a| ensures a[k] == b[k] {
      assert a[k] == ts[p..q][i + k] == ts[p + i + k];
    }
  }
}

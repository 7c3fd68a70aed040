/*
  The demonstration inputs at the end of analisador.py and the small inputs
  its token table is about, worked through the model.

  For each input the lemmas go one match at a time: `At…` says what the
  joined pattern reports at one position, `Reported…`, `Tiling…` and
  `Emit…` collect a few matches at a time, and `Lex…` concludes what
  `re.finditer` reports and what `lexer` yields for the whole input. The
  parsing lemmas at the end then evaluate the productions on those tokens.
*/
module Examples {
  import opened Wrappers
  import opened Lexical
  import opened Syntax
  import opened Grammar

  const Source1 := "int x = 10; x = x + 5;"
  /** The tokens of Source1, as `lexer` yields them. */
  const Tokens1: seq<Token> := [Token(Keyword, "int"), Token(Identifier, "x"), Token(Assign, "="), Token(Number, "10"), Token(Semicolon, ";"), Token(Identifier, "x"), Token(Assign, "="), Token(Identifier, "x"), Token(Operator, "+"), Token(Number, "5"), Token(Semicolon, ";")]

  // The matches of `re.finditer` on Source1, in groups of at most 5.
  const Scan1_0: seq<Match> := [Match(Keyword, 0, 3), Match(Whitespace, 3, 4), Match(Identifier, 4, 5), Match(Whitespace, 5, 6), Match(Assign, 6, 7)]
  const Scan1_1: seq<Match> := [Match(Whitespace, 7, 8), Match(Number, 8, 10), Match(Semicolon, 10, 11), Match(Whitespace, 11, 12), Match(Identifier, 12, 13)]
  const Scan1_2: seq<Match> := [Match(Whitespace, 13, 14), Match(Assign, 14, 15), Match(Whitespace, 15, 16), Match(Identifier, 16, 17), Match(Whitespace, 17, 18)]
  const Scan1_3: seq<Match> := [Match(Operator, 18, 19), Match(Whitespace, 19, 20), Match(Number, 20, 21), Match(Semicolon, 21, 22)]
  const Scan1: seq<Match> := Scan1_0 + Scan1_1 + Scan1_2 + Scan1_3

  // What the joined pattern reports at each match start of Source1.
  lemma At1_0(s: string) requires s == Source1 ensures MatchAt(s, 0) == Some(Match(Keyword, 0, 3)) { KeywordWins(s, 0, "int"); }
  lemma At1_3(s: string) requires s == Source1 ensures MatchAt(s, 3) == Some(Match(Whitespace, 3, 4)) { SpaceWins(s, 3, 4); }
  lemma At1_4(s: string) requires s == Source1 ensures MatchAt(s, 4) == Some(Match(Identifier, 4, 5)) { IdentifierWins(s, 4, 5); }
  lemma At1_5(s: string) requires s == Source1 ensures MatchAt(s, 5) == Some(Match(Whitespace, 5, 6)) { SpaceWins(s, 5, 6); }
  lemma At1_6(s: string) requires s == Source1 ensures MatchAt(s, 6) == Some(Match(Assign, 6, 7)) { SymbolDecides(s, 6); }
  lemma At1_7(s: string) requires s == Source1 ensures MatchAt(s, 7) == Some(Match(Whitespace, 7, 8)) { SpaceWins(s, 7, 8); }
  lemma At1_8(s: string) requires s == Source1 ensures MatchAt(s, 8) == Some(Match(Number, 8, 10)) { NumberWins(s, 8, 10); }
  lemma At1_10(s: string) requires s == Source1 ensures MatchAt(s, 10) == Some(Match(Semicolon, 10, 11)) { SymbolDecides(s, 10); }
  lemma At1_11(s: string) requires s == Source1 ensures MatchAt(s, 11) == Some(Match(Whitespace, 11, 12)) { SpaceWins(s, 11, 12); }
  lemma At1_12(s: string) requires s == Source1 ensures MatchAt(s, 12) == Some(Match(Identifier, 12, 13)) { IdentifierWins(s, 12, 13); }
  lemma At1_13(s: string) requires s == Source1 ensures MatchAt(s, 13) == Some(Match(Whitespace, 13, 14)) { SpaceWins(s, 13, 14); }
  lemma At1_14(s: string) requires s == Source1 ensures MatchAt(s, 14) == Some(Match(Assign, 14, 15)) { SymbolDecides(s, 14); }
  lemma At1_15(s: string) requires s == Source1 ensures MatchAt(s, 15) == Some(Match(Whitespace, 15, 16)) { SpaceWins(s, 15, 16); }
  lemma At1_16(s: string) requires s == Source1 ensures MatchAt(s, 16) == Some(Match(Identifier, 16, 17)) { IdentifierWins(s, 16, 17); }
  lemma At1_17(s: string) requires s == Source1 ensures MatchAt(s, 17) == Some(Match(Whitespace, 17, 18)) { SpaceWins(s, 17, 18); }
  lemma At1_18(s: string) requires s == Source1 ensures MatchAt(s, 18) == Some(Match(Operator, 18, 19)) { SymbolDecides(s, 18); }
  lemma At1_19(s: string) requires s == Source1 ensures MatchAt(s, 19) == Some(Match(Whitespace, 19, 20)) { SpaceWins(s, 19, 20); }
  lemma At1_20(s: string) requires s == Source1 ensures MatchAt(s, 20) == Some(Match(Number, 20, 21)) { NumberWins(s, 20, 21); }
  lemma At1_21(s: string) requires s == Source1 ensures MatchAt(s, 21) == Some(Match(Semicolon, 21, 22)) { SymbolDecides(s, 21); }

  lemma Reported1_0(s: string) requires s == Source1 ensures Reported(s, Scan1_0) { At1_0(s); At1_3(s); At1_4(s); At1_5(s); At1_6(s); }
  lemma Reported1_1(s: string) requires s == Source1 ensures Reported(s, Scan1_1) { At1_7(s); At1_8(s); At1_10(s); At1_11(s); At1_12(s); }
  lemma Reported1_2(s: string) requires s == Source1 ensures Reported(s, Scan1_2) { At1_13(s); At1_14(s); At1_15(s); At1_16(s); At1_17(s); }
  lemma Reported1_3(s: string) requires s == Source1 ensures Reported(s, Scan1_3) { At1_18(s); At1_19(s); At1_20(s); At1_21(s); }

  lemma Tiling1_0() ensures Tiling(Scan1_0, 0, 7) { }
  lemma Tiling1_1() ensures Tiling(Scan1_1, 7, 13) { }
  lemma Tiling1_2() ensures Tiling(Scan1_2, 13, 18) { }
  lemma Tiling1_3() ensures Tiling(Scan1_3, 18, 22) { }

  const Tokens1_0: seq<Token> := [Token(Keyword, "int"), Token(Identifier, "x"), Token(Assign, "=")]
  lemma Emit1_0() ensures Emit(Source1, Scan1_0) == Tokens1_0 {
    assert Source1[0..3] == "int";
    assert Source1[4] == 'x';
    assert Source1[4..5] == "x";
    assert Source1[6] == '=';
    assert Source1[6..7] == "=";
  }
  const Tokens1_1: seq<Token> := [Token(Number, "10"), Token(Semicolon, ";"), Token(Identifier, "x")]
  lemma Emit1_1() ensures Emit(Source1, Scan1_1) == Tokens1_1 {
    assert Source1[8..10] == "10";
    assert Source1[10] == ';';
    assert Source1[10..11] == ";";
    assert Source1[12] == 'x';
    assert Source1[12..13] == "x";
  }
  const Tokens1_2: seq<Token> := [Token(Assign, "="), Token(Identifier, "x")]
  lemma Emit1_2() ensures Emit(Source1, Scan1_2) == Tokens1_2 {
    assert Source1[14] == '=';
    assert Source1[14..15] == "=";
    assert Source1[16] == 'x';
    assert Source1[16..17] == "x";
  }
  const Tokens1_3: seq<Token> := [Token(Operator, "+"), Token(Number, "5"), Token(Semicolon, ";")]
  lemma Emit1_3() ensures Emit(Source1, Scan1_3) == Tokens1_3 {
    assert Source1[18] == '+';
    assert Source1[18..19] == "+";
    assert Source1[20] == '5';
    assert Source1[20..21] == "5";
    assert Source1[21] == ';';
    assert Source1[21..22] == ";";
  }

  lemma ReportedUpTo1_1()
    ensures Reported(Source1, Scan1_0 + Scan1_1)
  {
    Reported1_0(Source1);
    Reported1_1(Source1);
    ReportedConcat(Source1, Scan1_0, Scan1_1);
  }
  lemma TilingUpTo1_1()
    ensures Tiling(Scan1_0 + Scan1_1, 0, 13)
  {
    Tiling1_0();
    Tiling1_1();
    TilingConcat(Scan1_0, Scan1_1, 0, 7, 13);
  }
  lemma EmitUpTo1_1()
    ensures Emit(Source1, Scan1_0 + Scan1_1) == Tokens1_0 + Tokens1_1
  {
    Emit1_0();
    Emit1_1();
    EmitConcat(Source1, Scan1_0, Scan1_1);
  }
  lemma ReportedUpTo1_2()
    ensures Reported(Source1, Scan1_0 + Scan1_1 + Scan1_2)
  {
    ReportedUpTo1_1();
    Reported1_2(Source1);
    ReportedConcat(Source1, Scan1_0 + Scan1_1, Scan1_2);
  }
  lemma TilingUpTo1_2()
    ensures Tiling(Scan1_0 + Scan1_1 + Scan1_2, 0, 18)
  {
    TilingUpTo1_1();
    Tiling1_2();
    TilingConcat(Scan1_0 + Scan1_1, Scan1_2, 0, 13, 18);
  }
  lemma EmitUpTo1_2()
    ensures Emit(Source1, Scan1_0 + Scan1_1 + Scan1_2) == Tokens1_0 + Tokens1_1 + Tokens1_2
  {
    EmitUpTo1_1();
    Emit1_2();
    EmitConcat(Source1, Scan1_0 + Scan1_1, Scan1_2);
  }
  lemma ReportedUpTo1_3()
    ensures Reported(Source1, Scan1_0 + Scan1_1 + Scan1_2 + Scan1_3)
  {
    ReportedUpTo1_2();
    Reported1_3(Source1);
    ReportedConcat(Source1, Scan1_0 + Scan1_1 + Scan1_2, Scan1_3);
  }
  lemma TilingUpTo1_3()
    ensures Tiling(Scan1_0 + Scan1_1 + Scan1_2 + Scan1_3, 0, 22)
  {
    TilingUpTo1_2();
    Tiling1_3();
    TilingConcat(Scan1_0 + Scan1_1 + Scan1_2, Scan1_3, 0, 18, 22);
  }
  lemma EmitUpTo1_3()
    ensures Emit(Source1, Scan1_0 + Scan1_1 + Scan1_2 + Scan1_3) == Tokens1_0 + Tokens1_1 + Tokens1_2 + Tokens1_3
  {
    EmitUpTo1_2();
    Emit1_3();
    EmitConcat(Source1, Scan1_0 + Scan1_1 + Scan1_2, Scan1_3);
  }

  lemma TokenGroups1() ensures Tokens1 == Tokens1_0 + Tokens1_1 + Tokens1_2 + Tokens1_3 { }

  lemma Tiles1(s: string)
    requires |s| == 22 && Reported(s, Scan1)
    ensures FindIter(s, 0) == Scan1
  {
    TilingUpTo1_3();
    FindIterTiles(s, 0, Scan1);
  }

  /** `re.finditer` on Source1 reports Scan1, so `lexer` yields Tokens1. */
  lemma Lex1()
    ensures FindIter(Source1, 0) == Scan1
    ensures Lexer(Source1) == Tokens1
  {
    ReportedUpTo1_3();
    Tiles1(Source1);
    EmitUpTo1_3();
    TokenGroups1();
  }

  const Source2 := "if (x > 0) { x = x - 1; }"
  /** The tokens of Source2, as `lexer` yields them. */
  const Tokens2: seq<Token> := [Token(Keyword, "if"), Token(LParen, "("), Token(Identifier, "x"), Token(Operator, ">"), Token(Number, "0"), Token(RParen, ")"), Token(LBrace, "{"), Token(Identifier, "x"), Token(Assign, "="), Token(Identifier, "x"), Token(Operator, "-"), Token(Number, "1"), Token(Semicolon, ";"), Token(RBrace, "}")]

  // The matches of `re.finditer` on Source2, in groups of at most 5.
  const Scan2_0: seq<Match> := [Match(Keyword, 0, 2), Match(Whitespace, 2, 3), Match(LParen, 3, 4), Match(Identifier, 4, 5), Match(Whitespace, 5, 6)]
  const Scan2_1: seq<Match> := [Match(Operator, 6, 7), Match(Whitespace, 7, 8), Match(Number, 8, 9), Match(RParen, 9, 10), Match(Whitespace, 10, 11)]
  const Scan2_2: seq<Match> := [Match(LBrace, 11, 12), Match(Whitespace, 12, 13), Match(Identifier, 13, 14), Match(Whitespace, 14, 15), Match(Assign, 15, 16)]
  const Scan2_3: seq<Match> := [Match(Whitespace, 16, 17), Match(Identifier, 17, 18), Match(Whitespace, 18, 19), Match(Operator, 19, 20), Match(Whitespace, 20, 21)]
  const Scan2_4: seq<Match> := [Match(Number, 21, 22), Match(Semicolon, 22, 23), Match(Whitespace, 23, 24), Match(RBrace, 24, 25)]
  const Scan2: seq<Match> := Scan2_0 + Scan2_1 + Scan2_2 + Scan2_3 + Scan2_4

  // What the joined pattern reports at each match start of Source2.
  lemma At2_0(s: string) requires s == Source2 ensures MatchAt(s, 0) == Some(Match(Keyword, 0, 2)) { KeywordWins(s, 0, "if"); }
  lemma At2_2(s: string) requires s == Source2 ensures MatchAt(s, 2) == Some(Match(Whitespace, 2, 3)) { SpaceWins(s, 2, 3); }
  lemma At2_3(s: string) requires s == Source2 ensures MatchAt(s, 3) == Some(Match(LParen, 3, 4)) { SymbolDecides(s, 3); }
  lemma At2_4(s: string) requires s == Source2 ensures MatchAt(s, 4) == Some(Match(Identifier, 4, 5)) { IdentifierWins(s, 4, 5); }
  lemma At2_5(s: string) requires s == Source2 ensures MatchAt(s, 5) == Some(Match(Whitespace, 5, 6)) { SpaceWins(s, 5, 6); }
  lemma At2_6(s: string) requires s == Source2 ensures MatchAt(s, 6) == Some(Match(Operator, 6, 7)) { SymbolDecides(s, 6); }
  lemma At2_7(s: string) requires s == Source2 ensures MatchAt(s, 7) == Some(Match(Whitespace, 7, 8)) { SpaceWins(s, 7, 8); }
  lemma At2_8(s: string) requires s == Source2 ensures MatchAt(s, 8) == Some(Match(Number, 8, 9)) { NumberWins(s, 8, 9); }
  lemma At2_9(s: string) requires s == Source2 ensures MatchAt(s, 9) == Some(Match(RParen, 9, 10)) { SymbolDecides(s, 9); }
  lemma At2_10(s: string) requires s == Source2 ensures MatchAt(s, 10) == Some(Match(Whitespace, 10, 11)) { SpaceWins(s, 10, 11); }
  lemma At2_11(s: string) requires s == Source2 ensures MatchAt(s, 11) == Some(Match(LBrace, 11, 12)) { SymbolDecides(s, 11); }
  lemma At2_12(s: string) requires s == Source2 ensures MatchAt(s, 12) == Some(Match(Whitespace, 12, 13)) { SpaceWins(s, 12, 13); }
  lemma At2_13(s: string) requires s == Source2 ensures MatchAt(s, 13) == Some(Match(Identifier, 13, 14)) { IdentifierWins(s, 13, 14); }
  lemma At2_14(s: string) requires s == Source2 ensures MatchAt(s, 14) == Some(Match(Whitespace, 14, 15)) { SpaceWins(s, 14, 15); }
  lemma At2_15(s: string) requires s == Source2 ensures MatchAt(s, 15) == Some(Match(Assign, 15, 16)) { SymbolDecides(s, 15); }
  lemma At2_16(s: string) requires s == Source2 ensures MatchAt(s, 16) == Some(Match(Whitespace, 16, 17)) { SpaceWins(s, 16, 17); }
  lemma At2_17(s: string) requires s == Source2 ensures MatchAt(s, 17) == Some(Match(Identifier, 17, 18)) { IdentifierWins(s, 17, 18); }
  lemma At2_18(s: string) requires s == Source2 ensures MatchAt(s, 18) == Some(Match(Whitespace, 18, 19)) { SpaceWins(s, 18, 19); }
  lemma At2_19(s: string) requires s == Source2 ensures MatchAt(s, 19) == Some(Match(Operator, 19, 20)) { SymbolDecides(s, 19); }
  lemma At2_20(s: string) requires s == Source2 ensures MatchAt(s, 20) == Some(Match(Whitespace, 20, 21)) { SpaceWins(s, 20, 21); }
  lemma At2_21(s: string) requires s == Source2 ensures MatchAt(s, 21) == Some(Match(Number, 21, 22)) { NumberWins(s, 21, 22); }
  lemma At2_22(s: string) requires s == Source2 ensures MatchAt(s, 22) == Some(Match(Semicolon, 22, 23)) { SymbolDecides(s, 22); }
  lemma At2_23(s: string) requires s == Source2 ensures MatchAt(s, 23) == Some(Match(Whitespace, 23, 24)) { SpaceWins(s, 23, 24); }
  lemma At2_24(s: string) requires s == Source2 ensures MatchAt(s, 24) == Some(Match(RBrace, 24, 25)) { SymbolDecides(s, 24); }

  lemma Reported2_0(s: string) requires s == Source2 ensures Reported(s, Scan2_0) { At2_0(s); At2_2(s); At2_3(s); At2_4(s); At2_5(s); }
  lemma Reported2_1(s: string) requires s == Source2 ensures Reported(s, Scan2_1) { At2_6(s); At2_7(s); At2_8(s); At2_9(s); At2_10(s); }
  lemma Reported2_2(s: string) requires s == Source2 ensures Reported(s, Scan2_2) { At2_11(s); At2_12(s); At2_13(s); At2_14(s); At2_15(s); }
  lemma Reported2_3(s: string) requires s == Source2 ensures Reported(s, Scan2_3) { At2_16(s); At2_17(s); At2_18(s); At2_19(s); At2_20(s); }
  lemma Reported2_4(s: string) requires s == Source2 ensures Reported(s, Scan2_4) { At2_21(s); At2_22(s); At2_23(s); At2_24(s); }

  lemma Tiling2_0() ensures Tiling(Scan2_0, 0, 6) { }
  lemma Tiling2_1() ensures Tiling(Scan2_1, 6, 11) { }
  lemma Tiling2_2() ensures Tiling(Scan2_2, 11, 16) { }
  lemma Tiling2_3() ensures Tiling(Scan2_3, 16, 21) { }
  lemma Tiling2_4() ensures Tiling(Scan2_4, 21, 25) { }

  const Tokens2_0: seq<Token> := [Token(Keyword, "if"), Token(LParen, "("), Token(Identifier, "x")]
  lemma Emit2_0() ensures Emit(Source2, Scan2_0) == Tokens2_0 {
    assert Source2[0..2] == "if";
    assert Source2[3] == '(';
    assert Source2[3..4] == "(";
    assert Source2[4] == 'x';
    assert Source2[4..5] == "x";
  }
  const Tokens2_1: seq<Token> := [Token(Operator, ">"), Token(Number, "0"), Token(RParen, ")")]
  lemma Emit2_1() ensures Emit(Source2, Scan2_1) == Tokens2_1 {
    assert Source2[6] == '>';
    assert Source2[6..7] == ">";
    assert Source2[8] == '0';
    assert Source2[8..9] == "0";
    assert Source2[9] == ')';
    assert Source2[9..10] == ")";
  }
  const Tokens2_2: seq<Token> := [Token(LBrace, "{"), Token(Identifier, "x"), Token(Assign, "=")]
  lemma Emit2_2() ensures Emit(Source2, Scan2_2) == Tokens2_2 {
    assert Source2[11] == '{';
    assert Source2[11..12] == "{";
    assert Source2[13] == 'x';
    assert Source2[13..14] == "x";
    assert Source2[15] == '=';
    assert Source2[15..16] == "=";
  }
  const Tokens2_3: seq<Token> := [Token(Identifier, "x"), Token(Operator, "-")]
  lemma Emit2_3() ensures Emit(Source2, Scan2_3) == Tokens2_3 {
    assert Source2[17] == 'x';
    assert Source2[17..18] == "x";
    assert Source2[19] == '-';
    assert Source2[19..20] == "-";
  }
  const Tokens2_4: seq<Token> := [Token(Number, "1"), Token(Semicolon, ";"), Token(RBrace, "}")]
  lemma Emit2_4() ensures Emit(Source2, Scan2_4) == Tokens2_4 {
    assert Source2[21] == '1';
    assert Source2[21..22] == "1";
    assert Source2[22] == ';';
    assert Source2[22..23] == ";";
    assert Source2[24] == '}';
    assert Source2[24..25] == "}";
  }

  lemma ReportedUpTo2_1()
    ensures Reported(Source2, Scan2_0 + Scan2_1)
  {
    Reported2_0(Source2);
    Reported2_1(Source2);
    ReportedConcat(Source2, Scan2_0, Scan2_1);
  }
  lemma TilingUpTo2_1()
    ensures Tiling(Scan2_0 + Scan2_1, 0, 11)
  {
    Tiling2_0();
    Tiling2_1();
    TilingConcat(Scan2_0, Scan2_1, 0, 6, 11);
  }
  lemma EmitUpTo2_1()
    ensures Emit(Source2, Scan2_0 + Scan2_1) == Tokens2_0 + Tokens2_1
  {
    Emit2_0();
    Emit2_1();
    EmitConcat(Source2, Scan2_0, Scan2_1);
  }
  lemma ReportedUpTo2_2()
    ensures Reported(Source2, Scan2_0 + Scan2_1 + Scan2_2)
  {
    ReportedUpTo2_1();
    Reported2_2(Source2);
    ReportedConcat(Source2, Scan2_0 + Scan2_1, Scan2_2);
  }
  lemma TilingUpTo2_2()
    ensures Tiling(Scan2_0 + Scan2_1 + Scan2_2, 0, 16)
  {
    TilingUpTo2_1();
    Tiling2_2();
    TilingConcat(Scan2_0 + Scan2_1, Scan2_2, 0, 11, 16);
  }
  lemma EmitUpTo2_2()
    ensures Emit(Source2, Scan2_0 + Scan2_1 + Scan2_2) == Tokens2_0 + Tokens2_1 + Tokens2_2
  {
    EmitUpTo2_1();
    Emit2_2();
    EmitConcat(Source2, Scan2_0 + Scan2_1, Scan2_2);
  }
  lemma ReportedUpTo2_3()
    ensures Reported(Source2, Scan2_0 + Scan2_1 + Scan2_2 + Scan2_3)
  {
    ReportedUpTo2_2();
    Reported2_3(Source2);
    ReportedConcat(Source2, Scan2_0 + Scan2_1 + Scan2_2, Scan2_3);
  }
  lemma TilingUpTo2_3()
    ensures Tiling(Scan2_0 + Scan2_1 + Scan2_2 + Scan2_3, 0, 21)
  {
    TilingUpTo2_2();
    Tiling2_3();
    TilingConcat(Scan2_0 + Scan2_1 + Scan2_2, Scan2_3, 0, 16, 21);
  }
  lemma EmitUpTo2_3()
    ensures Emit(Source2, Scan2_0 + Scan2_1 + Scan2_2 + Scan2_3) == Tokens2_0 + Tokens2_1 + Tokens2_2 + Tokens2_3
  {
    EmitUpTo2_2();
    Emit2_3();
    EmitConcat(Source2, Scan2_0 + Scan2_1 + Scan2_2, Scan2_3);
  }
  lemma ReportedUpTo2_4()
    ensures Reported(Source2, Scan2_0 + Scan2_1 + Scan2_2 + Scan2_3 + Scan2_4)
  {
    ReportedUpTo2_3();
    Reported2_4(Source2);
    ReportedConcat(Source2, Scan2_0 + Scan2_1 + Scan2_2 + Scan2_3, Scan2_4);
  }
  lemma TilingUpTo2_4()
    ensures Tiling(Scan2_0 + Scan2_1 + Scan2_2 + Scan2_3 + Scan2_4, 0, 25)
  {
    TilingUpTo2_3();
    Tiling2_4();
    TilingConcat(Scan2_0 + Scan2_1 + Scan2_2 + Scan2_3, Scan2_4, 0, 21, 25);
  }
  lemma EmitUpTo2_4()
    ensures Emit(Source2, Scan2_0 + Scan2_1 + Scan2_2 + Scan2_3 + Scan2_4) == Tokens2_0 + Tokens2_1 + Tokens2_2 + Tokens2_3 + Tokens2_4
  {
    EmitUpTo2_3();
    Emit2_4();
    EmitConcat(Source2, Scan2_0 + Scan2_1 + Scan2_2 + Scan2_3, Scan2_4);
  }

  lemma TokenGroups2() ensures Tokens2 == Tokens2_0 + Tokens2_1 + Tokens2_2 + Tokens2_3 + Tokens2_4 { }

  lemma Tiles2(s: string)
    requires |s| == 25 && Reported(s, Scan2)
    ensures FindIter(s, 0) == Scan2
  {
    TilingUpTo2_4();
    FindIterTiles(s, 0, Scan2);
  }

  /** `re.finditer` on Source2 reports Scan2, so `lexer` yields Tokens2. */
  lemma Lex2()
    ensures FindIter(Source2, 0) == Scan2
    ensures Lexer(Source2) == Tokens2
  {
    ReportedUpTo2_4();
    Tiles2(Source2);
    EmitUpTo2_4();
    TokenGroups2();
  }

  const Source3 := "float y = 3.14;"
  /** The tokens of Source3, as `lexer` yields them. */
  const Tokens3: seq<Token> := [Token(Keyword, "float"), Token(Identifier, "y"), Token(Assign, "="), Token(Number, "3.14"), Token(Semicolon, ";")]

  // The matches of `re.finditer` on Source3, in groups of at most 5.
  const Scan3_0: seq<Match> := [Match(Keyword, 0, 5), Match(Whitespace, 5, 6), Match(Identifier, 6, 7), Match(Whitespace, 7, 8), Match(Assign, 8, 9)]
  const Scan3_1: seq<Match> := [Match(Whitespace, 9, 10), Match(Number, 10, 14), Match(Semicolon, 14, 15)]
  const Scan3: seq<Match> := Scan3_0 + Scan3_1

  // What the joined pattern reports at each match start of Source3.
  lemma At3_0(s: string) requires s == Source3 ensures MatchAt(s, 0) == Some(Match(Keyword, 0, 5)) { KeywordWins(s, 0, "float"); }
  lemma At3_5(s: string) requires s == Source3 ensures MatchAt(s, 5) == Some(Match(Whitespace, 5, 6)) { SpaceWins(s, 5, 6); }
  lemma At3_6(s: string) requires s == Source3 ensures MatchAt(s, 6) == Some(Match(Identifier, 6, 7)) { IdentifierWins(s, 6, 7); }
  lemma At3_7(s: string) requires s == Source3 ensures MatchAt(s, 7) == Some(Match(Whitespace, 7, 8)) { SpaceWins(s, 7, 8); }
  lemma At3_8(s: string) requires s == Source3 ensures MatchAt(s, 8) == Some(Match(Assign, 8, 9)) { SymbolDecides(s, 8); }
  lemma At3_9(s: string) requires s == Source3 ensures MatchAt(s, 9) == Some(Match(Whitespace, 9, 10)) { SpaceWins(s, 9, 10); }
  lemma At3_10(s: string) requires s == Source3 ensures MatchAt(s, 10) == Some(Match(Number, 10, 14)) { NumberWins(s, 10, 14); }
  lemma At3_14(s: string) requires s == Source3 ensures MatchAt(s, 14) == Some(Match(Semicolon, 14, 15)) { SymbolDecides(s, 14); }

  lemma Reported3_0(s: string) requires s == Source3 ensures Reported(s, Scan3_0) { At3_0(s); At3_5(s); At3_6(s); At3_7(s); At3_8(s); }
  lemma Reported3_1(s: string) requires s == Source3 ensures Reported(s, Scan3_1) { At3_9(s); At3_10(s); At3_14(s); }

  lemma Tiling3_0() ensures Tiling(Scan3_0, 0, 9) { }
  lemma Tiling3_1() ensures Tiling(Scan3_1, 9, 15) { }

  const Tokens3_0: seq<Token> := [Token(Keyword, "float"), Token(Identifier, "y"), Token(Assign, "=")]
  lemma Emit3_0() ensures Emit(Source3, Scan3_0) == Tokens3_0 {
    assert Source3[0..5] == "float";
    assert Source3[6] == 'y';
    assert Source3[6..7] == "y";
    assert Source3[8] == '=';
    assert Source3[8..9] == "=";
  }
  const Tokens3_1: seq<Token> := [Token(Number, "3.14"), Token(Semicolon, ";")]
  lemma Emit3_1() ensures Emit(Source3, Scan3_1) == Tokens3_1 {
    assert Source3[10..14] == "3.14";
    assert Source3[14] == ';';
    assert Source3[14..15] == ";";
  }

  lemma ReportedUpTo3_1()
    ensures Reported(Source3, Scan3_0 + Scan3_1)
  {
    Reported3_0(Source3);
    Reported3_1(Source3);
    ReportedConcat(Source3, Scan3_0, Scan3_1);
  }
  lemma TilingUpTo3_1()
    ensures Tiling(Scan3_0 + Scan3_1, 0, 15)
  {
    Tiling3_0();
    Tiling3_1();
    TilingConcat(Scan3_0, Scan3_1, 0, 9, 15);
  }
  lemma EmitUpTo3_1()
    ensures Emit(Source3, Scan3_0 + Scan3_1) == Tokens3_0 + Tokens3_1
  {
    Emit3_0();
    Emit3_1();
    EmitConcat(Source3, Scan3_0, Scan3_1);
  }

  lemma TokenGroups3() ensures Tokens3 == Tokens3_0 + Tokens3_1 { }

  lemma Tiles3(s: string)
    requires |s| == 15 && Reported(s, Scan3)
    ensures FindIter(s, 0) == Scan3
  {
    TilingUpTo3_1();
    FindIterTiles(s, 0, Scan3);
  }

  /** `re.finditer` on Source3 reports Scan3, so `lexer` yields Tokens3. */
  lemma Lex3()
    ensures FindIter(Source3, 0) == Scan3
    ensures Lexer(Source3) == Tokens3
  {
    ReportedUpTo3_1();
    Tiles3(Source3);
    EmitUpTo3_1();
    TokenGroups3();
  }

  const SourceInt := "int"
  /** The tokens of SourceInt, as `lexer` yields them. */
  const TokensInt: seq<Token> := [Token(Keyword, "int")]

  // The matches of `re.finditer` on SourceInt, in groups of at most 5.
  const ScanInt_0: seq<Match> := [Match(Keyword, 0, 3)]
  const ScanInt: seq<Match> := ScanInt_0

  // What the joined pattern reports at each match start of SourceInt.
  lemma AtInt_0(s: string) requires s == SourceInt ensures MatchAt(s, 0) == Some(Match(Keyword, 0, 3)) { KeywordWins(s, 0, "int"); }

  lemma ReportedInt_0(s: string) requires s == SourceInt ensures Reported(s, ScanInt_0) { AtInt_0(s); }

  lemma TilingInt_0() ensures Tiling(ScanInt_0, 0, 3) { }

  const TokensInt_0: seq<Token> := [Token(Keyword, "int")]
  lemma EmitInt_0() ensures Emit(SourceInt, ScanInt_0) == TokensInt_0 {
    assert SourceInt[0..3] == "int";
  }


  lemma TokenGroupsInt() ensures TokensInt == TokensInt_0 { }

  lemma TilesInt(s: string)
    requires |s| == 3 && Reported(s, ScanInt)
    ensures FindIter(s, 0) == ScanInt
  {
    TilingInt_0();
    FindIterTiles(s, 0, ScanInt);
  }

  /** `re.finditer` on SourceInt reports ScanInt, so `lexer` yields TokensInt. */
  lemma LexInt()
    ensures FindIter(SourceInt, 0) == ScanInt
    ensures Lexer(SourceInt) == TokensInt
  {
    ReportedInt_0(SourceInt);
    TilesInt(SourceInt);
    EmitInt_0();
    TokenGroupsInt();
  }

  const SourceInteger := "integer"
  /** The tokens of SourceInteger, as `lexer` yields them. */
  const TokensInteger: seq<Token> := [Token(Identifier, "integer")]

  // The matches of `re.finditer` on SourceInteger, in groups of at most 5.
  const ScanInteger_0: seq<Match> := [Match(Identifier, 0, 7)]
  const ScanInteger: seq<Match> := ScanInteger_0

  // What the joined pattern reports at each match start of SourceInteger.
  lemma AtInteger_0(s: string) requires s == SourceInteger ensures MatchAt(s, 0) == Some(Match(Identifier, 0, 7)) { IdentifierWins(s, 0, 7); }

  lemma ReportedInteger_0(s: string) requires s == SourceInteger ensures Reported(s, ScanInteger_0) { AtInteger_0(s); }

  lemma TilingInteger_0() ensures Tiling(ScanInteger_0, 0, 7) { }

  const TokensInteger_0: seq<Token> := [Token(Identifier, "integer")]
  lemma EmitInteger_0() ensures Emit(SourceInteger, ScanInteger_0) == TokensInteger_0 {
    assert SourceInteger[0..7] == "integer";
  }


  lemma TokenGroupsInteger() ensures TokensInteger == TokensInteger_0 { }

  lemma TilesInteger(s: string)
    requires |s| == 7 && Reported(s, ScanInteger)
    ensures FindIter(s, 0) == ScanInteger
  {
    TilingInteger_0();
    FindIterTiles(s, 0, ScanInteger);
  }

  /** `re.finditer` on SourceInteger reports ScanInteger, so `lexer` yields TokensInteger. */
  lemma LexInteger()
    ensures FindIter(SourceInteger, 0) == ScanInteger
    ensures Lexer(SourceInteger) == TokensInteger
  {
    ReportedInteger_0(SourceInteger);
    TilesInteger(SourceInteger);
    EmitInteger_0();
    TokenGroupsInteger();
  }

  const SourceTen := "10"
  /** The tokens of SourceTen, as `lexer` yields them. */
  const TokensTen: seq<Token> := [Token(Number, "10")]

  // The matches of `re.finditer` on SourceTen, in groups of at most 5.
  const ScanTen_0: seq<Match> := [Match(Number, 0, 2)]
  const ScanTen: seq<Match> := ScanTen_0

  // What the joined pattern reports at each match start of SourceTen.
  lemma AtTen_0(s: string) requires s == SourceTen ensures MatchAt(s, 0) == Some(Match(Number, 0, 2)) { NumberWins(s, 0, 2); }

  lemma ReportedTen_0(s: string) requires s == SourceTen ensures Reported(s, ScanTen_0) { AtTen_0(s); }

  lemma TilingTen_0() ensures Tiling(ScanTen_0, 0, 2) { }

  const TokensTen_0: seq<Token> := [Token(Number, "10")]
  lemma EmitTen_0() ensures Emit(SourceTen, ScanTen_0) == TokensTen_0 {
    assert SourceTen[0..2] == "10";
  }


  lemma TokenGroupsTen() ensures TokensTen == TokensTen_0 { }

  lemma TilesTen(s: string)
    requires |s| == 2 && Reported(s, ScanTen)
    ensures FindIter(s, 0) == ScanTen
  {
    TilingTen_0();
    FindIterTiles(s, 0, ScanTen);
  }

  /** `re.finditer` on SourceTen reports ScanTen, so `lexer` yields TokensTen. */
  lemma LexTen()
    ensures FindIter(SourceTen, 0) == ScanTen
    ensures Lexer(SourceTen) == TokensTen
  {
    ReportedTen_0(SourceTen);
    TilesTen(SourceTen);
    EmitTen_0();
    TokenGroupsTen();
  }

  const SourcePi := "3.14"
  /** The tokens of SourcePi, as `lexer` yields them. */
  const TokensPi: seq<Token> := [Token(Number, "3.14")]

  // The matches of `re.finditer` on SourcePi, in groups of at most 5.
  const ScanPi_0: seq<Match> := [Match(Number, 0, 4)]
  const ScanPi: seq<Match> := ScanPi_0

  // What the joined pattern reports at each match start of SourcePi.
  lemma AtPi_0(s: string) requires s == SourcePi ensures MatchAt(s, 0) == Some(Match(Number, 0, 4)) { NumberWins(s, 0, 4); }

  lemma ReportedPi_0(s: string) requires s == SourcePi ensures Reported(s, ScanPi_0) { AtPi_0(s); }

  lemma TilingPi_0() ensures Tiling(ScanPi_0, 0, 4) { }

  const TokensPi_0: seq<Token> := [Token(Number, "3.14")]
  lemma EmitPi_0() ensures Emit(SourcePi, ScanPi_0) == TokensPi_0 {
    assert SourcePi[0..4] == "3.14";
  }


  lemma TokenGroupsPi() ensures TokensPi == TokensPi_0 { }

  lemma TilesPi(s: string)
    requires |s| == 4 && Reported(s, ScanPi)
    ensures FindIter(s, 0) == ScanPi
  {
    TilingPi_0();
    FindIterTiles(s, 0, ScanPi);
  }

  /** `re.finditer` on SourcePi reports ScanPi, so `lexer` yields TokensPi. */
  lemma LexPi()
    ensures FindIter(SourcePi, 0) == ScanPi
    ensures Lexer(SourcePi) == TokensPi
  {
    ReportedPi_0(SourcePi);
    TilesPi(SourcePi);
    EmitPi_0();
    TokenGroupsPi();
  }

  const SourceThree := "3."
  /** The tokens of SourceThree, as `lexer` yields them. */
  const TokensThree: seq<Token> := [Token(Number, "3.")]

  // The matches of `re.finditer` on SourceThree, in groups of at most 5.
  const ScanThree_0: seq<Match> := [Match(Number, 0, 2)]
  const ScanThree: seq<Match> := ScanThree_0

  // What the joined pattern reports at each match start of SourceThree.
  lemma AtThree_0(s: string) requires s == SourceThree ensures MatchAt(s, 0) == Some(Match(Number, 0, 2)) { NumberWins(s, 0, 2); }

  lemma ReportedThree_0(s: string) requires s == SourceThree ensures Reported(s, ScanThree_0) { AtThree_0(s); }

  lemma TilingThree_0() ensures Tiling(ScanThree_0, 0, 2) { }

  const TokensThree_0: seq<Token> := [Token(Number, "3.")]
  lemma EmitThree_0() ensures Emit(SourceThree, ScanThree_0) == TokensThree_0 {
    assert SourceThree[0..2] == "3.";
  }


  lemma TokenGroupsThree() ensures TokensThree == TokensThree_0 { }

  lemma TilesThree(s: string)
    requires |s| == 2 && Reported(s, ScanThree)
    ensures FindIter(s, 0) == ScanThree
  {
    TilingThree_0();
    FindIterTiles(s, 0, ScanThree);
  }

  /** `re.finditer` on SourceThree reports ScanThree, so `lexer` yields TokensThree. */
  lemma LexThree()
    ensures FindIter(SourceThree, 0) == ScanThree
    ensures Lexer(SourceThree) == TokensThree
  {
    ReportedThree_0(SourceThree);
    TilesThree(SourceThree);
    EmitThree_0();
    TokenGroupsThree();
  }

  const SourceThreeIf := "3if"
  /** The tokens of SourceThreeIf, as `lexer` yields them. */
  const TokensThreeIf: seq<Token> := [Token(Number, "3"), Token(Identifier, "if")]

  // The matches of `re.finditer` on SourceThreeIf, in groups of at most 5.
  const ScanThreeIf_0: seq<Match> := [Match(Number, 0, 1), Match(Identifier, 1, 3)]
  const ScanThreeIf: seq<Match> := ScanThreeIf_0

  // What the joined pattern reports at each match start of SourceThreeIf.
  lemma AtThreeIf_0(s: string) requires s == SourceThreeIf ensures MatchAt(s, 0) == Some(Match(Number, 0, 1)) { NumberWins(s, 0, 1); }
  lemma AtThreeIf_1(s: string) requires s == SourceThreeIf ensures MatchAt(s, 1) == Some(Match(Identifier, 1, 3)) { WordDecides(s, 1); }

  lemma ReportedThreeIf_0(s: string) requires s == SourceThreeIf ensures Reported(s, ScanThreeIf_0) { AtThreeIf_0(s); AtThreeIf_1(s); }

  lemma TilingThreeIf_0() ensures Tiling(ScanThreeIf_0, 0, 3) { }

  const TokensThreeIf_0: seq<Token> := [Token(Number, "3"), Token(Identifier, "if")]
  lemma EmitThreeIf_0() ensures Emit(SourceThreeIf, ScanThreeIf_0) == TokensThreeIf_0 {
    assert SourceThreeIf[0] == '3';
    assert SourceThreeIf[0..1] == "3";
    assert SourceThreeIf[1..3] == "if";
  }


  lemma TokenGroupsThreeIf() ensures TokensThreeIf == TokensThreeIf_0 { }

  lemma TilesThreeIf(s: string)
    requires |s| == 3 && Reported(s, ScanThreeIf)
    ensures FindIter(s, 0) == ScanThreeIf
  {
    TilingThreeIf_0();
    FindIterTiles(s, 0, ScanThreeIf);
  }

  /** `re.finditer` on SourceThreeIf reports ScanThreeIf, so `lexer` yields TokensThreeIf. */
  lemma LexThreeIf()
    ensures FindIter(SourceThreeIf, 0) == ScanThreeIf
    ensures Lexer(SourceThreeIf) == TokensThreeIf
  {
    ReportedThreeIf_0(SourceThreeIf);
    TilesThreeIf(SourceThreeIf);
    EmitThreeIf_0();
    TokenGroupsThreeIf();
  }

  const SourceNoName := "int = 10;"
  /** The tokens of SourceNoName, as `lexer` yields them. */
  const TokensNoName: seq<Token> := [Token(Keyword, "int"), Token(Assign, "="), Token(Number, "10"), Token(Semicolon, ";")]

  // The matches of `re.finditer` on SourceNoName, in groups of at most 5.
  const ScanNoName_0: seq<Match> := [Match(Keyword, 0, 3), Match(Whitespace, 3, 4), Match(Assign, 4, 5), Match(Whitespace, 5, 6), Match(Number, 6, 8)]
  const ScanNoName_1: seq<Match> := [Match(Semicolon, 8, 9)]
  const ScanNoName: seq<Match> := ScanNoName_0 + ScanNoName_1

  // What the joined pattern reports at each match start of SourceNoName.
  lemma AtNoName_0(s: string) requires s == SourceNoName ensures MatchAt(s, 0) == Some(Match(Keyword, 0, 3)) { KeywordWins(s, 0, "int"); }
  lemma AtNoName_3(s: string) requires s == SourceNoName ensures MatchAt(s, 3) == Some(Match(Whitespace, 3, 4)) { SpaceWins(s, 3, 4); }
  lemma AtNoName_4(s: string) requires s == SourceNoName ensures MatchAt(s, 4) == Some(Match(Assign, 4, 5)) { SymbolDecides(s, 4); }
  lemma AtNoName_5(s: string) requires s == SourceNoName ensures MatchAt(s, 5) == Some(Match(Whitespace, 5, 6)) { SpaceWins(s, 5, 6); }
  lemma AtNoName_6(s: string) requires s == SourceNoName ensures MatchAt(s, 6) == Some(Match(Number, 6, 8)) { NumberWins(s, 6, 8); }
  lemma AtNoName_8(s: string) requires s == SourceNoName ensures MatchAt(s, 8) == Some(Match(Semicolon, 8, 9)) { SymbolDecides(s, 8); }

  lemma ReportedNoName_0(s: string) requires s == SourceNoName ensures Reported(s, ScanNoName_0) { AtNoName_0(s); AtNoName_3(s); AtNoName_4(s); AtNoName_5(s); AtNoName_6(s); }
  lemma ReportedNoName_1(s: string) requires s == SourceNoName ensures Reported(s, ScanNoName_1) { AtNoName_8(s); }

  lemma TilingNoName_0() ensures Tiling(ScanNoName_0, 0, 8) { }
  lemma TilingNoName_1() ensures Tiling(ScanNoName_1, 8, 9) { }

  const TokensNoName_0: seq<Token> := [Token(Keyword, "int"), Token(Assign, "="), Token(Number, "10")]
  lemma EmitNoName_0() ensures Emit(SourceNoName, ScanNoName_0) == TokensNoName_0 {
    assert SourceNoName[0..3] == "int";
    assert SourceNoName[4] == '=';
    assert SourceNoName[4..5] == "=";
    assert SourceNoName[6..8] == "10";
  }
  const TokensNoName_1: seq<Token> := [Token(Semicolon, ";")]
  lemma EmitNoName_1() ensures Emit(SourceNoName, ScanNoName_1) == TokensNoName_1 {
    assert SourceNoName[8] == ';';
    assert SourceNoName[8..9] == ";";
  }

  lemma ReportedUpToNoName_1()
    ensures Reported(SourceNoName, ScanNoName_0 + ScanNoName_1)
  {
    ReportedNoName_0(SourceNoName);
    ReportedNoName_1(SourceNoName);
    ReportedConcat(SourceNoName, ScanNoName_0, ScanNoName_1);
  }
  lemma TilingUpToNoName_1()
    ensures Tiling(ScanNoName_0 + ScanNoName_1, 0, 9)
  {
    TilingNoName_0();
    TilingNoName_1();
    TilingConcat(ScanNoName_0, ScanNoName_1, 0, 8, 9);
  }
  lemma EmitUpToNoName_1()
    ensures Emit(SourceNoName, ScanNoName_0 + ScanNoName_1) == TokensNoName_0 + TokensNoName_1
  {
    EmitNoName_0();
    EmitNoName_1();
    EmitConcat(SourceNoName, ScanNoName_0, ScanNoName_1);
  }

  lemma TokenGroupsNoName() ensures TokensNoName == TokensNoName_0 + TokensNoName_1 { }

  lemma TilesNoName(s: string)
    requires |s| == 9 && Reported(s, ScanNoName)
    ensures FindIter(s, 0) == ScanNoName
  {
    TilingUpToNoName_1();
    FindIterTiles(s, 0, ScanNoName);
  }

  /** `re.finditer` on SourceNoName reports ScanNoName, so `lexer` yields TokensNoName. */
  lemma LexNoName()
    ensures FindIter(SourceNoName, 0) == ScanNoName
    ensures Lexer(SourceNoName) == TokensNoName
  {
    ReportedUpToNoName_1();
    TilesNoName(SourceNoName);
    EmitUpToNoName_1();
    TokenGroupsNoName();
  }

  const SourceNoOperator := "x = 5;"
  /** The tokens of SourceNoOperator, as `lexer` yields them. */
  const TokensNoOperator: seq<Token> := [Token(Identifier, "x"), Token(Assign, "="), Token(Number, "5"), Token(Semicolon, ";")]

  // The matches of `re.finditer` on SourceNoOperator, in groups of at most 5.
  const ScanNoOperator_0: seq<Match> := [Match(Identifier, 0, 1), Match(Whitespace, 1, 2), Match(Assign, 2, 3), Match(Whitespace, 3, 4), Match(Number, 4, 5)]
  const ScanNoOperator_1: seq<Match> := [Match(Semicolon, 5, 6)]
  const ScanNoOperator: seq<Match> := ScanNoOperator_0 + ScanNoOperator_1

  // What the joined pattern reports at each match start of SourceNoOperator.
  lemma AtNoOperator_0(s: string) requires s == SourceNoOperator ensures MatchAt(s, 0) == Some(Match(Identifier, 0, 1)) { IdentifierWins(s, 0, 1); }
  lemma AtNoOperator_1(s: string) requires s == SourceNoOperator ensures MatchAt(s, 1) == Some(Match(Whitespace, 1, 2)) { SpaceWins(s, 1, 2); }
  lemma AtNoOperator_2(s: string) requires s == SourceNoOperator ensures MatchAt(s, 2) == Some(Match(Assign, 2, 3)) { SymbolDecides(s, 2); }
  lemma AtNoOperator_3(s: string) requires s == SourceNoOperator ensures MatchAt(s, 3) == Some(Match(Whitespace, 3, 4)) { SpaceWins(s, 3, 4); }
  lemma AtNoOperator_4(s: string) requires s == SourceNoOperator ensures MatchAt(s, 4) == Some(Match(Number, 4, 5)) { NumberWins(s, 4, 5); }
  lemma AtNoOperator_5(s: string) requires s == SourceNoOperator ensures MatchAt(s, 5) == Some(Match(Semicolon, 5, 6)) { SymbolDecides(s, 5); }

  lemma ReportedNoOperator_0(s: string) requires s == SourceNoOperator ensures Reported(s, ScanNoOperator_0) { AtNoOperator_0(s); AtNoOperator_1(s); AtNoOperator_2(s); AtNoOperator_3(s); AtNoOperator_4(s); }
  lemma ReportedNoOperator_1(s: string) requires s == SourceNoOperator ensures Reported(s, ScanNoOperator_1) { AtNoOperator_5(s); }

  lemma TilingNoOperator_0() ensures Tiling(ScanNoOperator_0, 0, 5) { }
  lemma TilingNoOperator_1() ensures Tiling(ScanNoOperator_1, 5, 6) { }

  const TokensNoOperator_0: seq<Token> := [Token(Identifier, "x"), Token(Assign, "="), Token(Number, "5")]
  lemma EmitNoOperator_0() ensures Emit(SourceNoOperator, ScanNoOperator_0) == TokensNoOperator_0 {
    assert SourceNoOperator[0] == 'x';
    assert SourceNoOperator[0..1] == "x";
    assert SourceNoOperator[2] == '=';
    assert SourceNoOperator[2..3] == "=";
    assert SourceNoOperator[4] == '5';
    assert SourceNoOperator[4..5] == "5";
  }
  const TokensNoOperator_1: seq<Token> := [Token(Semicolon, ";")]
  lemma EmitNoOperator_1() ensures Emit(SourceNoOperator, ScanNoOperator_1) == TokensNoOperator_1 {
    assert SourceNoOperator[5] == ';';
    assert SourceNoOperator[5..6] == ";";
  }

  lemma ReportedUpToNoOperator_1()
    ensures Reported(SourceNoOperator, ScanNoOperator_0 + ScanNoOperator_1)
  {
    ReportedNoOperator_0(SourceNoOperator);
    ReportedNoOperator_1(SourceNoOperator);
    ReportedConcat(SourceNoOperator, ScanNoOperator_0, ScanNoOperator_1);
  }
  lemma TilingUpToNoOperator_1()
    ensures Tiling(ScanNoOperator_0 + ScanNoOperator_1, 0, 6)
  {
    TilingNoOperator_0();
    TilingNoOperator_1();
    TilingConcat(ScanNoOperator_0, ScanNoOperator_1, 0, 5, 6);
  }
  lemma EmitUpToNoOperator_1()
    ensures Emit(SourceNoOperator, ScanNoOperator_0 + ScanNoOperator_1) == TokensNoOperator_0 + TokensNoOperator_1
  {
    EmitNoOperator_0();
    EmitNoOperator_1();
    EmitConcat(SourceNoOperator, ScanNoOperator_0, ScanNoOperator_1);
  }

  lemma TokenGroupsNoOperator() ensures TokensNoOperator == TokensNoOperator_0 + TokensNoOperator_1 { }

  lemma TilesNoOperator(s: string)
    requires |s| == 6 && Reported(s, ScanNoOperator)
    ensures FindIter(s, 0) == ScanNoOperator
  {
    TilingUpToNoOperator_1();
    FindIterTiles(s, 0, ScanNoOperator);
  }

  /** `re.finditer` on SourceNoOperator reports ScanNoOperator, so `lexer` yields TokensNoOperator. */
  lemma LexNoOperator()
    ensures FindIter(SourceNoOperator, 0) == ScanNoOperator
    ensures Lexer(SourceNoOperator) == TokensNoOperator
  {
    ReportedUpToNoOperator_1();
    TilesNoOperator(SourceNoOperator);
    EmitUpToNoOperator_1();
    TokenGroupsNoOperator();
  }

  const SourceNoOperand := "x = ;"
  /** The tokens of SourceNoOperand, as `lexer` yields them. */
  const TokensNoOperand: seq<Token> := [Token(Identifier, "x"), Token(Assign, "="), Token(Semicolon, ";")]

  // The matches of `re.finditer` on SourceNoOperand, in groups of at most 5.
  const ScanNoOperand_0: seq<Match> := [Match(Identifier, 0, 1), Match(Whitespace, 1, 2), Match(Assign, 2, 3), Match(Whitespace, 3, 4), Match(Semicolon, 4, 5)]
  const ScanNoOperand: seq<Match> := ScanNoOperand_0

  // What the joined pattern reports at each match start of SourceNoOperand.
  lemma AtNoOperand_0(s: string) requires s == SourceNoOperand ensures MatchAt(s, 0) == Some(Match(Identifier, 0, 1)) { IdentifierWins(s, 0, 1); }
  lemma AtNoOperand_1(s: string) requires s == SourceNoOperand ensures MatchAt(s, 1) == Some(Match(Whitespace, 1, 2)) { SpaceWins(s, 1, 2); }
  lemma AtNoOperand_2(s: string) requires s == SourceNoOperand ensures MatchAt(s, 2) == Some(Match(Assign, 2, 3)) { SymbolDecides(s, 2); }
  lemma AtNoOperand_3(s: string) requires s == SourceNoOperand ensures MatchAt(s, 3) == Some(Match(Whitespace, 3, 4)) { SpaceWins(s, 3, 4); }
  lemma AtNoOperand_4(s: string) requires s == SourceNoOperand ensures MatchAt(s, 4) == Some(Match(Semicolon, 4, 5)) { SymbolDecides(s, 4); }

  lemma ReportedNoOperand_0(s: string) requires s == SourceNoOperand ensures Reported(s, ScanNoOperand_0) { AtNoOperand_0(s); AtNoOperand_1(s); AtNoOperand_2(s); AtNoOperand_3(s); AtNoOperand_4(s); }

  lemma TilingNoOperand_0() ensures Tiling(ScanNoOperand_0, 0, 5) { }

  const TokensNoOperand_0: seq<Token> := [Token(Identifier, "x"), Token(Assign, "="), Token(Semicolon, ";")]
  lemma EmitNoOperand_0() ensures Emit(SourceNoOperand, ScanNoOperand_0) == TokensNoOperand_0 {
    assert SourceNoOperand[0] == 'x';
    assert SourceNoOperand[0..1] == "x";
    assert SourceNoOperand[2] == '=';
    assert SourceNoOperand[2..3] == "=";
    assert SourceNoOperand[4] == ';';
    assert SourceNoOperand[4..5] == ";";
  }


  lemma TokenGroupsNoOperand() ensures TokensNoOperand == TokensNoOperand_0 { }

  lemma TilesNoOperand(s: string)
    requires |s| == 5 && Reported(s, ScanNoOperand)
    ensures FindIter(s, 0) == ScanNoOperand
  {
    TilingNoOperand_0();
    FindIterTiles(s, 0, ScanNoOperand);
  }

  /** `re.finditer` on SourceNoOperand reports ScanNoOperand, so `lexer` yields TokensNoOperand. */
  lemma LexNoOperand()
    ensures FindIter(SourceNoOperand, 0) == ScanNoOperand
    ensures Lexer(SourceNoOperand) == TokensNoOperand
  {
    ReportedNoOperand_0(SourceNoOperand);
    TilesNoOperand(SourceNoOperand);
    EmitNoOperand_0();
    TokenGroupsNoOperand();
  }

  const SourceNoSecondOperand := "x = x + ;"
  /** The tokens of SourceNoSecondOperand, as `lexer` yields them. */
  const TokensNoSecondOperand: seq<Token> := [Token(Identifier, "x"), Token(Assign, "="), Token(Identifier, "x"), Token(Operator, "+"), Token(Semicolon, ";")]

  // The matches of `re.finditer` on SourceNoSecondOperand, in groups of at most 5.
  const ScanNoSecondOperand_0: seq<Match> := [Match(Identifier, 0, 1), Match(Whitespace, 1, 2), Match(Assign, 2, 3), Match(Whitespace, 3, 4), Match(Identifier, 4, 5)]
  const ScanNoSecondOperand_1: seq<Match> := [Match(Whitespace, 5, 6), Match(Operator, 6, 7), Match(Whitespace, 7, 8), Match(Semicolon, 8, 9)]
  const ScanNoSecondOperand: seq<Match> := ScanNoSecondOperand_0 + ScanNoSecondOperand_1

  // What the joined pattern reports at each match start of SourceNoSecondOperand.
  lemma AtNoSecondOperand_0(s: string) requires s == SourceNoSecondOperand ensures MatchAt(s, 0) == Some(Match(Identifier, 0, 1)) { IdentifierWins(s, 0, 1); }
  lemma AtNoSecondOperand_1(s: string) requires s == SourceNoSecondOperand ensures MatchAt(s, 1) == Some(Match(Whitespace, 1, 2)) { SpaceWins(s, 1, 2); }
  lemma AtNoSecondOperand_2(s: string) requires s == SourceNoSecondOperand ensures MatchAt(s, 2) == Some(Match(Assign, 2, 3)) { SymbolDecides(s, 2); }
  lemma AtNoSecondOperand_3(s: string) requires s == SourceNoSecondOperand ensures MatchAt(s, 3) == Some(Match(Whitespace, 3, 4)) { SpaceWins(s, 3, 4); }
  lemma AtNoSecondOperand_4(s: string) requires s == SourceNoSecondOperand ensures MatchAt(s, 4) == Some(Match(Identifier, 4, 5)) { IdentifierWins(s, 4, 5); }
  lemma AtNoSecondOperand_5(s: string) requires s == SourceNoSecondOperand ensures MatchAt(s, 5) == Some(Match(Whitespace, 5, 6)) { SpaceWins(s, 5, 6); }
  lemma AtNoSecondOperand_6(s: string) requires s == SourceNoSecondOperand ensures MatchAt(s, 6) == Some(Match(Operator, 6, 7)) { SymbolDecides(s, 6); }
  lemma AtNoSecondOperand_7(s: string) requires s == SourceNoSecondOperand ensures MatchAt(s, 7) == Some(Match(Whitespace, 7, 8)) { SpaceWins(s, 7, 8); }
  lemma AtNoSecondOperand_8(s: string) requires s == SourceNoSecondOperand ensures MatchAt(s, 8) == Some(Match(Semicolon, 8, 9)) { SymbolDecides(s, 8); }

  lemma ReportedNoSecondOperand_0(s: string) requires s == SourceNoSecondOperand ensures Reported(s, ScanNoSecondOperand_0) { AtNoSecondOperand_0(s); AtNoSecondOperand_1(s); AtNoSecondOperand_2(s); AtNoSecondOperand_3(s); AtNoSecondOperand_4(s); }
  lemma ReportedNoSecondOperand_1(s: string) requires s == SourceNoSecondOperand ensures Reported(s, ScanNoSecondOperand_1) { AtNoSecondOperand_5(s); AtNoSecondOperand_6(s); AtNoSecondOperand_7(s); AtNoSecondOperand_8(s); }

  lemma TilingNoSecondOperand_0() ensures Tiling(ScanNoSecondOperand_0, 0, 5) { }
  lemma TilingNoSecondOperand_1() ensures Tiling(ScanNoSecondOperand_1, 5, 9) { }

  const TokensNoSecondOperand_0: seq<Token> := [Token(Identifier, "x"), Token(Assign, "="), Token(Identifier, "x")]
  lemma EmitNoSecondOperand_0() ensures Emit(SourceNoSecondOperand, ScanNoSecondOperand_0) == TokensNoSecondOperand_0 {
    assert SourceNoSecondOperand[0] == 'x';
    assert SourceNoSecondOperand[0..1] == "x";
    assert SourceNoSecondOperand[2] == '=';
    assert SourceNoSecondOperand[2..3] == "=";
    assert SourceNoSecondOperand[4] == 'x';
    assert SourceNoSecondOperand[4..5] == "x";
  }
  const TokensNoSecondOperand_1: seq<Token> := [Token(Operator, "+"), Token(Semicolon, ";")]
  lemma EmitNoSecondOperand_1() ensures Emit(SourceNoSecondOperand, ScanNoSecondOperand_1) == TokensNoSecondOperand_1 {
    assert SourceNoSecondOperand[6] == '+';
    assert SourceNoSecondOperand[6..7] == "+";
    assert SourceNoSecondOperand[8] == ';';
    assert SourceNoSecondOperand[8..9] == ";";
  }

  lemma ReportedUpToNoSecondOperand_1()
    ensures Reported(SourceNoSecondOperand, ScanNoSecondOperand_0 + ScanNoSecondOperand_1)
  {
    ReportedNoSecondOperand_0(SourceNoSecondOperand);
    ReportedNoSecondOperand_1(SourceNoSecondOperand);
    ReportedConcat(SourceNoSecondOperand, ScanNoSecondOperand_0, ScanNoSecondOperand_1);
  }
  lemma TilingUpToNoSecondOperand_1()
    ensures Tiling(ScanNoSecondOperand_0 + ScanNoSecondOperand_1, 0, 9)
  {
    TilingNoSecondOperand_0();
    TilingNoSecondOperand_1();
    TilingConcat(ScanNoSecondOperand_0, ScanNoSecondOperand_1, 0, 5, 9);
  }
  lemma EmitUpToNoSecondOperand_1()
    ensures Emit(SourceNoSecondOperand, ScanNoSecondOperand_0 + ScanNoSecondOperand_1) == TokensNoSecondOperand_0 + TokensNoSecondOperand_1
  {
    EmitNoSecondOperand_0();
    EmitNoSecondOperand_1();
    EmitConcat(SourceNoSecondOperand, ScanNoSecondOperand_0, ScanNoSecondOperand_1);
  }

  lemma TokenGroupsNoSecondOperand() ensures TokensNoSecondOperand == TokensNoSecondOperand_0 + TokensNoSecondOperand_1 { }

  lemma TilesNoSecondOperand(s: string)
    requires |s| == 9 && Reported(s, ScanNoSecondOperand)
    ensures FindIter(s, 0) == ScanNoSecondOperand
  {
    TilingUpToNoSecondOperand_1();
    FindIterTiles(s, 0, ScanNoSecondOperand);
  }

  /** `re.finditer` on SourceNoSecondOperand reports ScanNoSecondOperand, so `lexer` yields TokensNoSecondOperand. */
  lemma LexNoSecondOperand()
    ensures FindIter(SourceNoSecondOperand, 0) == ScanNoSecondOperand
    ensures Lexer(SourceNoSecondOperand) == TokensNoSecondOperand
  {
    ReportedUpToNoSecondOperand_1();
    TilesNoSecondOperand(SourceNoSecondOperand);
    EmitUpToNoSecondOperand_1();
    TokenGroupsNoSecondOperand();
  }

  // ---------------------------------------------------------------- a skipped character

  const SourceAt := "x @ 5;"
  const ScanAtHead: seq<Match> := [Match(Identifier, 0, 1), Match(Whitespace, 1, 2)]
  const ScanAtTail: seq<Match> := [Match(Whitespace, 3, 4), Match(Number, 4, 5), Match(Semicolon, 5, 6)]

  lemma AtAt_0(s: string) requires s == SourceAt ensures MatchAt(s, 0) == Some(Match(Identifier, 0, 1)) { IdentifierWins(s, 0, 1); }
  lemma AtAt_1(s: string) requires s == SourceAt ensures MatchAt(s, 1) == Some(Match(Whitespace, 1, 2)) { SpaceDecides(s, 1); }
  lemma AtAt_2(s: string) requires s == SourceAt ensures FindIter(s, 2) == FindIter(s, 3) { SkipUnmatched(s, 2); }
  lemma AtAt_3(s: string) requires s == SourceAt ensures MatchAt(s, 3) == Some(Match(Whitespace, 3, 4)) { SpaceDecides(s, 3); }
  lemma AtAt_4(s: string) requires s == SourceAt ensures MatchAt(s, 4) == Some(Match(Number, 4, 5)) { NumberWins(s, 4, 5); }
  lemma AtAt_5(s: string) requires s == SourceAt ensures MatchAt(s, 5) == Some(Match(Semicolon, 5, 6)) { SymbolDecides(s, 5); }

  lemma TilingAtTail() ensures Tiling(ScanAtTail, 3, 6) { }

  lemma ScannedAtTail(s: string)
    requires |s| == 6 && Reported(s, ScanAtTail)
    ensures FindIter(s, 3) == ScanAtTail
  {
    TilingAtTail();
    FindIterTiles(s, 3, ScanAtTail);
  }

  lemma ScannedAt(s: string)
    requires s == SourceAt
    ensures FindIter(s, 0) == ScanAtHead + ScanAtTail
  {
    AtAt_3(s); AtAt_4(s); AtAt_5(s);
    ScannedAtTail(s);
    AtAt_2(s);
    AtAt_1(s);
    FindIterStep(s, 1, Match(Whitespace, 1, 2));
    AtAt_0(s);
    FindIterStep(s, 0, Match(Identifier, 0, 1));
  }

  lemma EmitAtHead() ensures Emit(SourceAt, ScanAtHead) == [Token(Identifier, "x")] {
    assert SourceAt[0] == 'x';
    assert SourceAt[0..1] == "x";
  }

  lemma EmitAtTail() ensures Emit(SourceAt, ScanAtTail) == [Token(Number, "5"), Token(Semicolon, ";")] {
    assert SourceAt[4] == '5';
    assert SourceAt[4..5] == "5";
    assert SourceAt[5] == ';';
    assert SourceAt[5..6] == ";";
  }

  /** `@` starts no alternative: `re.finditer` steps over it and `lexer` yields no token for it. */
  lemma LexAt()
    ensures Lexer(SourceAt) == [Token(Identifier, "x"), Token(Number, "5"), Token(Semicolon, ";")]
  {
    ScannedAt(SourceAt);
    EmittedAt();
  }

  lemma EmittedAt()
    ensures Emit(SourceAt, ScanAtHead + ScanAtTail) == [Token(Identifier, "x"), Token(Number, "5"), Token(Semicolon, ";")]
  {
    EmitAtHead();
    EmitAtTail();
    EmitConcat(SourceAt, ScanAtHead, ScanAtTail);
  }

  /** A lone `.` is no number: nothing is reported. */
  lemma LexDot()
    ensures Lexer(".") == []
  {
    SkipUnmatched(".", 0);
  }

  // ---------------------------------------------------------------- parsing the demonstrations

  lemma Parse1() ensures ProgramEnd(Tokens1, 0) == Done(|Tokens1|) {
    Parse1Assignment();
    assert DeclarationEnd(Tokens1, 0) == Done(5);
  }
  lemma Parse1Assignment() ensures ProgramEnd(Tokens1, 5) == Done(11) {
    assert AssignmentEnd(Tokens1, 5) == Done(11);
    assert ProgramEnd(Tokens1, 11) == Done(11);
  }

  lemma Parse2() ensures ProgramEnd(Tokens2, 0) == Done(|Tokens2|) {
    Parse2Conditional(Tokens2);
    assert ProgramEnd(Tokens2, 14) == Done(14);
  }
  lemma Parse2Conditional(ts: seq<Token>) requires ts == Tokens2 ensures ConditionalEnd(ts, 0) == Done(14) {
    Parse2Block();
    Parse2Head();
    assert ts[13].kind == RBrace;
    ConditionalSteps(ts, 0);
  }
  lemma Parse2Head() ensures Fits(Tokens2, 0, ConditionHeadPattern) {
    assert Tokens2[..7] == Head;
  }
  lemma Parse2Block() ensures ProgramEnd(Tokens2, 7) == Done(13) {
    assert AssignmentEnd(Tokens2, 7) == Done(13);
    assert ProgramEnd(Tokens2, 13) == Done(13);
  }
  lemma Parse3() ensures ProgramEnd(Tokens3, 0) == Done(|Tokens3|) { }

  /** The three demonstration programs are accepted, every token consumed. */
  lemma DemonstrationsAccepted()
    ensures Recognizes(Lexer(Source1)) && Recognizes(Lexer(Source2)) && Recognizes(Lexer(Source3))
  {
    Lex1(); Parse1();
    Lex2(); Parse2();
    Lex3(); Parse3();
  }

  // ---------------------------------------------------------------- parse errors and their places

  /** The token list of `if (x > 0) {`, the head of a conditional. */
  const Head: seq<Token> :=
    [Token(Keyword, "if"), Token(LParen, "("), Token(Identifier, "x"), Token(Operator, ">"),
     Token(Number, "0"), Token(RParen, ")"), Token(LBrace, "{")]

  /** The token list of `x = x - 1;`. */
  const Decrement: seq<Token> :=
    [Token(Identifier, "x"), Token(Assign, "="), Token(Identifier, "x"), Token(Operator, "-"),
     Token(Number, "1"), Token(Semicolon, ";")]

  /** `int = 10;`: the declaration wants the name right after the type, at token 1. */
  lemma DeclarationWithoutName()
    ensures DeclarationEnd(TokensNoName, 0) == Failed(1)
    ensures ProgramEnd(TokensNoName, 0) == Failed(1)
  {
  }

  /** `x = 5;`: the expression wants an operator after its first operand, at token 3. */
  lemma ExpressionWithoutOperator()
    ensures AssignmentEnd(TokensNoOperator, 0) == Failed(3)
    ensures ProgramEnd(TokensNoOperator, 0) == Failed(3)
  {
    assert ExpressionEnd(TokensNoOperator, 2) == Failed(3);
  }

  /** `x = ;`: the expression wants an identifier or a number first, at token 2. */
  lemma ExpressionWithoutOperand()
    ensures ExpressionEnd(TokensNoOperand, 2) == Failed(2)
    ensures AssignmentEnd(TokensNoOperand, 0) == Failed(2)
    ensures ProgramEnd(TokensNoOperand, 0) == Failed(2)
  {
  }

  /** `x = x + ;`: the expression wants an identifier or a number after the operator, at token 4. */
  lemma ExpressionWithoutSecondOperand()
    ensures ExpressionEnd(TokensNoSecondOperand, 2) == Failed(4)
    ensures AssignmentEnd(TokensNoSecondOperand, 0) == Failed(4)
    ensures ProgramEnd(TokensNoSecondOperand, 0) == Failed(4)
  {
    assert ExpressionEnd(TokensNoSecondOperand, 2) == Failed(4);
    assert AssignmentEnd(TokensNoSecondOperand, 0) == Failed(4);
  }

  /** The four texts above, lexed and parsed, are rejected. */
  lemma MalformedRejected()
    ensures !Recognizes(Lexer(SourceNoName)) && !Recognizes(Lexer(SourceNoOperator))
    ensures !Recognizes(Lexer(SourceNoOperand)) && !Recognizes(Lexer(SourceNoSecondOperand))
  {
    LexNoName(); DeclarationWithoutName();
    LexNoOperator(); ExpressionWithoutOperator();
    LexNoOperand(); ExpressionWithoutOperand();
    LexNoSecondOperand(); ExpressionWithoutSecondOperand();
  }

  /** `if (x > 0) { }`: an empty block is accepted. */
  lemma EmptyBlockAccepted()
    ensures ConditionalEnd(Head + [Token(RBrace, "}")], 0) == Done(8)
    ensures Recognizes(Head + [Token(RBrace, "}")])
  {
  }

  /** `if (x > 0) { x = x - 1;`: the block is read to the end, where `}` is missing. */
  lemma MissingBraceRejected()
    ensures ConditionalEnd(Head + Decrement, 0) == Failed(13)
    ensures !Recognizes(Head + Decrement)
  {
  }

  /** `x = x - 1; } int`: a `}` at top level ends the program successfully, the rest unread. */
  lemma StrayBraceAccepted()
    ensures ProgramEnd(Decrement + [Token(RBrace, "}"), Token(Keyword, "int")], 0) == Done(6)
  {
  }

  /** `else` cannot start a statement. */
  lemma ElseRejected()
    ensures ProgramEnd([Token(Keyword, "else")], 0) == Failed(0)
  {
  }
}

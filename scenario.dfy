/** The pieces together on one input: the TypeScript passes tokenize
    `x=5;`, and a grammar with a single assignment template parses the
    tokens to the end. */
module Scenarios {
  import opened Wrappers
  import opened JsStrings
  import opened Tokens
  import opened Scanning
  import opened TypeScriptLang
  import opened Tokenizing
  import opened Grammar
  import opened Accessors
  import opened Parsing

  const ASSIGNMENT: string := "x=5;"

  function Tok(kind: string, data: string): Token {
    Token(kind, Some(data), Some(0), None)
  }

  /** The four tokens of `x=5;`, each on line 0. */
  function AssignmentTokens(): seq<Token> {
    [Tok(IDENTIFIER, "x"), Tok(OPERATOR, "="), Tok(NUMBER_LITERAL, "5"), Tok(TERMINATOR, ";")]
  }

  /** Scanning `x=5;` from the start yields an identifier, an operator, a
      number and a terminator, with no error and the offset at the end. */
  lemma TokenizeAssignment()
    ensures WellBehaved(TypeScriptPasses())
    ensures ScanAll(TypeScriptPasses(), ASSIGNMENT, 0, 0, 0) == ScanRun(AssignmentTokens(), None, 4, 0)
  {
    ScanAssignmentFrom(0);
    assert AssignmentTokens()[0..] == AssignmentTokens();
  }

  /** From any offset into `x=5;` the scan yields the remaining tokens. */
  lemma {:induction false} ScanAssignmentFrom(offset: nat)
    requires offset <= 4
    ensures WellBehaved(TypeScriptPasses())
    ensures ScanAll(TypeScriptPasses(), ASSIGNMENT, offset, 0, 0) == ScanRun(AssignmentTokens()[offset..], None, 4, 0)
    decreases 4 - offset
  {
    TypeScriptPassesWellBehaved();
    if offset < 4 {
      var ts := AssignmentTokens();
      ScanAssignmentFrom(offset + 1);
      AssignmentStep(offset);
      ScanOneToken(offset, ts[offset], ts[offset + 1..]);
      SplitAt(ts, offset);
    }
  }

  lemma SplitAt(ts: seq<Token>, k: nat)
    requires k < |ts|
    ensures ts[k..] == [ts[k]] + ts[k + 1..]
  {
  }

  /** The step at each offset of `x=5;` emits the token found there. */
  lemma AssignmentStep(offset: nat)
    requires offset < 4
    ensures NextStep(TypeScriptPasses(), ASSIGNMENT, offset, 0, 0) == Step(AssignmentTokens()[offset], offset + 1, 0)
  {
    PassesAt(offset);
    StepAt(TypeScriptPasses(), ASSIGNMENT, offset, Winner(offset), 1);
  }

  /** One successful step of the scan in front of a known rest. */
  lemma ScanOneToken(offset: nat, t: Token, rest: seq<Token>)
    requires offset < |ASSIGNMENT| && t.kind != "error"
    requires NextStep(TypeScriptPasses(), ASSIGNMENT, offset, 0, 0) == Step(t, offset + 1, 0)
    requires WellBehaved(TypeScriptPasses())
    requires ScanAll(TypeScriptPasses(), ASSIGNMENT, offset + 1, 0, 0) == ScanRun(rest, None, 4, 0)
    ensures ScanAll(TypeScriptPasses(), ASSIGNMENT, offset, 0, 0) == ScanRun([t] + rest, None, 4, 0)
  {
    ScanAllUnfold(TypeScriptPasses(), ASSIGNMENT, offset, 0, 0);
  }

  /** A pass that the table lists at `i` and that is the first to succeed
      decides the step's token. */
  lemma StepAt(ps: PassTable, d: string, offset: nat, i: nat, n: nat)
    requires i < |ps| && offset + n <= |d|
    requires ps[i].1(d, offset) == ScannerData(true, n, 0, None)
    requires forall j :: 0 <= j < i ==> !ps[j].1(d, offset).success
    ensures NextStep(ps, d, offset, 0, 0) == Step(Token(ps[i].0, Some(d[offset..offset + n]), Some(0), None), offset + n, 0)
  {
    FirstMatchAt(ps, d, offset, i);
  }

  /** The position in the table of the pass that claims each character of `x=5;`. */
  function Winner(offset: nat): nat
    requires offset < 4
  {
    [1, 3, 0, 6][offset]
  }

  /** At `offset` of `x=5;` the passes listed before the winner fail, and
      the winner reads that one character under the token's name. */
  ghost predicate ClaimedByWinner(offset: nat)
    requires offset < 4
  {
    var ps, w := TypeScriptPasses(), Winner(offset);
    && w < |ps|
    && (forall j :: 0 <= j < w ==> !ps[j].1(ASSIGNMENT, offset).success)
    && ps[w].1(ASSIGNMENT, offset) == ScannerData(true, 1, 0, None)
    && Token(ps[w].0, Some(ASSIGNMENT[offset..offset + 1]), Some(0), None) == AssignmentTokens()[offset]
  }

  lemma PassesAt(offset: nat)
    requires offset < 4
    ensures ClaimedByWinner(offset)
  {
    if offset == 0 {
      IdentifierClaimsX(offset);
    } else if offset == 1 {
      OperatorClaimsEquals(offset);
    } else if offset == 2 {
      NumberClaimsFive(offset);
    } else {
      TerminatorClaimsSemicolon(offset);
    }
  }

  lemma IdentifierClaimsX(offset: nat)
    requires offset == 0
    ensures ClaimedByWinner(offset)
  {
    NoNumberAtX(offset);
    IdentifierReadsX(offset);
    assert ASSIGNMENT[offset..offset + 1] == "x";
  }

  lemma NoNumberAtX(offset: nat)
    requires offset == 0
    ensures NumberPass(ASSIGNMENT, offset) == NO_MATCH
  {
    assert RunLength(ASSIGNMENT, offset, Min(|ASSIGNMENT|, offset + MAX_RUN), NUMBERS) == 0;
  }

  lemma IdentifierReadsX(offset: nat)
    requires offset == 0
    ensures IdentifierPass(ASSIGNMENT, offset) == ScannerData(true, 1, 0, None)
  {
    var d, max := ASSIGNMENT, Min(|ASSIGNMENT|, offset + MAX_RUN);
    XIsIdentifierChar();
    EqualsIsNotIdentifierChar();
    assert RunLength(d, offset + 1, max, IDENTS) == 0;
  }

  lemma OperatorClaimsEquals(offset: nat)
    requires offset == 1
    ensures ClaimedByWinner(offset)
  {
    var d, max := ASSIGNMENT, Min(|ASSIGNMENT|, offset + MAX_RUN);
    EqualsIsNotIdentifierChar();
    assert RunLength(d, offset, max, NUMBERS) == 0;
    assert RunLength(d, offset, max, IDENTS) == 0;
    assert CharAt(d, offset) == "=";
    assert Includes(OPS, "=") by { assert OPS[5] == '='; }
    assert d[offset..offset + 1] == "=";
  }

  lemma NumberClaimsFive(offset: nat)
    requires offset == 2
    ensures ClaimedByWinner(offset)
  {
    var d, max := ASSIGNMENT, Min(|ASSIGNMENT|, offset + MAX_RUN);
    assert RunLength(d, offset + 1, max, NUMBERS) == 0;
    assert RunLength(d, offset, max, NUMBERS) == 1;
    assert d[offset..offset + 1] == "5";
  }

  lemma TerminatorClaimsSemicolon(offset: nat)
    requires offset == 3
    ensures ClaimedByWinner(offset)
  {
    var d, max := ASSIGNMENT, Min(|ASSIGNMENT|, offset + MAX_RUN);
    SemicolonIsNotIdentifierChar();
    assert RunLength(d, offset, max, NUMBERS) == 0;
    assert RunLength(d, offset, max, IDENTS) == 0;
    assert CharAt(d, offset) == ";";
    assert !Includes(OPS, ";") && !Includes(BRACKETS, ";") && !Includes(PAREN, ";");
    assert Includes(TERMS, ";") by { assert TERMS[1] == ';'; }
    assert d[offset..offset + 1] == ";";
  }

  lemma IdentifierAlphabet()
    ensures IDENTS == "abcdefghijklmnopqrstuvwxyz" + "ABCDEFGHIJKLMNOPQRSTUVWXYZ" + "_0123456789"
  {
  }

  /** `=` and `;` are not identifier characters and `x` is; the alphabet
      is checked a third at a time. */
  lemma EqualsIsNotIdentifierChar()
    ensures '=' !in IDENTS
  {
    IdentifierAlphabet();
    assert '=' !in "abcdefghijklmnopqrstuvwxyz" && '=' !in "ABCDEFGHIJKLMNOPQRSTUVWXYZ" && '=' !in "_0123456789";
  }

  lemma SemicolonIsNotIdentifierChar()
    ensures ';' !in IDENTS
  {
    IdentifierAlphabet();
    assert ';' !in "abcdefghijklmnopqrstuvwxyz" && ';' !in "ABCDEFGHIJKLMNOPQRSTUVWXYZ" && ';' !in "_0123456789";
  }

  lemma XIsIdentifierChar()
    ensures 'x' in IDENTS
  {
    assert IDENTS[23] == 'x';
  }

  function TokenRequirement(tokenType: string, tokenData: Option<string>): RequirementValue {
    RequirementValue(Some(OfToken), None, None, Some(tokenType), tokenData)
  }

  /** One template, "assign": an identifier, `=`, a number literal, `;`. */
  function AssignmentGrammar(): seq<TemplateValue> {
    [TemplateValue("assign", [
      TokenRequirement(IDENTIFIER, None),
      TokenRequirement(OPERATOR, Some("=")),
      TokenRequirement(NUMBER_LITERAL, None),
      TokenRequirement(TERMINATOR, Some(";"))])]
  }

  /** Parsing the four tokens with that grammar consumes all of them in one
      template match and finishes at the end. */
  lemma ParseAssignment(depth: nat, steps: nat)
    requires steps > 0
    ensures ParseFrom(AssignmentGrammar(), Copy(AssignmentTokens()), 0, depth, steps) == Finished(4)
  {
    var g, items := AssignmentGrammar(), Copy(AssignmentTokens());
    TokenRequirementsConsumeOneEach(g, items, g[0].requirements, 0, depth);
    assert forall k :: 0 <= k < 4 ==> Is(items[k].value, g[0].requirements[k].tokenType, g[0].requirements[k].tokenData);
    assert FindIn(g, g, items, 0, None, depth) == Matched(4) by {
      assert g[1..] == [];
    }
  }

  /** The whitespace filter keeps all four tokens. */
  lemma NothingToSkip()
    ensures Keep(AssignmentTokens(), Some([WHITESPACE])) == AssignmentTokens()
  {
    KeepNothingSkipped(AssignmentTokens(), Some([WHITESPACE]));
  }

  /** Tokenizing `x=5;` with whitespace skipped and parsing the result with
      the assignment grammar reads every token. */
  lemma TokenizeThenParse(depth: nat, steps: nat)
    requires steps > 0
    ensures WellBehaved(TypeScriptPasses())
    ensures ScanAll(TypeScriptPasses(), ASSIGNMENT, 0, 0, 0).error.None?
    ensures var kept := Keep(ScanAll(TypeScriptPasses(), ASSIGNMENT, 0, 0, 0).tokens, Some([WHITESPACE]));
      ParseFrom(AssignmentGrammar(), Copy(kept), 0, depth, steps) == Finished(|kept|)
  {
    TokenizeAssignment();
    NothingToSkip();
    ParseAssignment(depth, steps);
  }
}

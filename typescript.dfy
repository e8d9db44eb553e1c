/** The TypeScript scanner (src/langs/typescript/typescript.ts): eight
    recognition passes registered in a fixed order. Each pass is a function
    of (text, offset), which is what the scanner's table holds, and a loop
    method that scans the way the source's closure does, proved equal to it. */
module TypeScriptLang {
  import opened Wrappers
  import opened JsStrings
  import opened Tokens
  import opened Scanning

  const NUMBERS: string := "0123456789"
  const OPS: string := "-+/*%="
  const WS: string := " \n"
  const NL: char := '\n'
  const IDENTS: string := "abcdefghijklmnopqrstuvwxyzABCDEFGHIJKLMNOPQRSTUVWXYZ_0123456789"
  const TERMS: string := ":;.,"
  const PAREN: string := "()"
  const BRACKETS: string := "{[]}"

  /** The longest number or identifier run the two capped passes look at. */
  const MAX_RUN: nat := 309

  const IDENTIFIER: string := TYPE_IDENTIFIER
  const KEYWORD: string := "keyw"
  const STRING_LITERAL: string := TYPE_STRING_LITERAL
  const NUMBER_LITERAL: string := TYPE_NUMBER_LITERAL
  const OPERATOR: string := TYPE_OPERATOR
  const BRACKET: string := "brak"
  const TERMINATOR: string := TYPE_TERMINATOR
  const WHITESPACE: string := TYPE_WHITESPACE
  const PARENTHESIS: string := "pare"

  /** The initial result every closure starts from. */
  const NO_MATCH: ScannerData := ScannerData(false, 0, 0, None)

  // ---------------------------------------------------------------------
  // Runs of a character class

  /** Length of the run of `chars` that starts at `i` and stops at `max`. */
  function RunLength(data: string, i: nat, max: nat, chars: string): (n: nat)
    requires max <= |data|
    ensures i <= max ==> i + n <= max
    ensures i >= max ==> n == 0
    ensures forall j :: i <= j < i + n ==> data[j] in chars
    ensures i + n < max ==> data[i + n] !in chars
    decreases max - i
  {
    if i < max && data[i] in chars then 1 + RunLength(data, i + 1, max, chars) else 0
  }

  /** The shape shared by the number and identifier passes: the maximal
      run of `chars` at `offset`, capped at MAX_RUN characters, successful
      when non-empty; no lines are counted. */
  function CappedRun(data: string, offset: nat, chars: string): (r: ScannerData)
    ensures r.success <==> r.readChars > 0
    ensures r.readLines == 0 && r.error == None && r.readChars <= MAX_RUN
    ensures offset < |data| ==> offset + r.readChars <= |data|
    ensures offset >= |data| ==> r == NO_MATCH
    ensures forall j :: offset <= j < offset + r.readChars ==> data[j] in chars
    ensures offset + r.readChars < Min(|data|, offset + MAX_RUN) ==> data[offset + r.readChars] !in chars
  {
    var n := RunLength(data, offset, Min(|data|, offset + MAX_RUN), chars);
    ScannerData(n > 0, n, 0, None)
  }

  /** The number pass reads the maximal run of decimal digits, capped at
      MAX_RUN characters, and succeeds iff that run is non-empty. */
  function NumberPass(data: string, offset: nat): (r: ScannerData)
    ensures r.success <==> r.readChars > 0
    ensures r.readLines == 0 && r.readChars <= MAX_RUN
    ensures offset < |data| ==> offset + r.readChars <= |data|
    ensures offset >= |data| ==> r == NO_MATCH
    ensures forall j :: offset <= j < offset + r.readChars ==> data[j] in NUMBERS
    ensures offset + r.readChars < Min(|data|, offset + MAX_RUN) ==> data[offset + r.readChars] !in NUMBERS
  {
    CappedRun(data, offset, NUMBERS)
  }

  /** The identifier pass: the same shape over letters, digits and `_`. */
  function IdentifierPass(data: string, offset: nat): (r: ScannerData)
    ensures r.success <==> r.readChars > 0
    ensures r.readLines == 0 && r.readChars <= MAX_RUN
    ensures offset < |data| ==> offset + r.readChars <= |data|
    ensures offset >= |data| ==> r == NO_MATCH
    ensures forall j :: offset <= j < offset + r.readChars ==> data[j] in IDENTS
    ensures offset + r.readChars < Min(|data|, offset + MAX_RUN) ==> data[offset + r.readChars] !in IDENTS
  {
    CappedRun(data, offset, IDENTS)
  }

  /** The loop of the number and identifier closures. */
  method ScanCappedRun(data: string, offset: nat, chars: string) returns (result: ScannerData)
    ensures result == CappedRun(data, offset, chars)
  {
    result := NO_MATCH;
    var max := Min(|data|, offset + MAX_RUN);
    var i := offset;
    while i < max
      invariant offset <= i && (i <= max || i == offset)
      invariant result == ScannerData(false, i - offset, 0, None)
      invariant RunLength(data, offset, max, chars) == (i - offset) + RunLength(data, i, max, chars)
    {
      if Includes(chars, CharAt(data, i)) {
        result := result.(readChars := result.readChars + 1);
      } else {
        if result.readChars > 0 {
          result := result.(success := true);
        }
        return;
      }
      i := i + 1;
    }
    if result.readChars > 0 {
      result := result.(success := true);
    }
  }

  // ---------------------------------------------------------------------
  // String literals

  predicate IsQuote(c: string) {
    c == "\"" || c == "'" || c == "`"
  }

  /** The scan after the opening quote: `read` characters are consumed so
      far and `ignore` is the flag a backslash sets. A quote closes the
      literal only when the flag is clear; a quote met while the flag is set
      leaves the flag set, and any other character clears it. */
  function StringBody(data: string, i: nat, quote: char, ignore: bool, read: nat): (r: ScannerData)
    ensures r.readLines == 0 && r.error == None
    ensures !r.success && i <= |data| ==> r.readChars == read + (|data| - i)
    ensures r.success ==> i < |data| && read + 1 <= r.readChars <= read + (|data| - i)
    ensures r.success ==> data[i + (r.readChars - read) - 1] == quote
    decreases |data| - i
  {
    if i >= |data| then ScannerData(false, read, 0, None)
    else if data[i] == quote then
      if !ignore then ScannerData(true, read + 1, 0, None)
      else StringBody(data, i + 1, quote, ignore, read + 1)
    else if data[i] == '\\' then StringBody(data, i + 1, quote, true, read + 1)
    else StringBody(data, i + 1, quote, false, read + 1)
  }

  /** The string pass: no match unless the text at `offset` is a quote;
      on success it reads at least both delimiters, stays within the text
      and ends on the opening quote character. */
  function StringPass(data: string, offset: nat): (r: ScannerData)
    ensures r.readLines == 0
    ensures !IsQuote(CharAt(data, offset)) ==> r == NO_MATCH
    ensures r.success ==> offset < |data| && 2 <= r.readChars <= |data| - offset
    ensures r.success ==> data[offset + r.readChars - 1] == data[offset]
  {
    var c := CharAt(data, offset);
    if IsQuote(c) then StringBody(data, offset + 1, c[0], false, 1) else NO_MATCH
  }

  /** The loop of the string-literal closure. */
  method ScanString(data: string, offset: nat) returns (result: ScannerData)
    ensures result == StringPass(data, offset)
  {
    result := NO_MATCH;
    var ignoreNextMatchQuote := false;
    var c := CharAt(data, offset);
    if !IsQuote(c) {
      return;
    }
    var matchQuote := c[0];
    result := result.(readChars := result.readChars + 1);
    var i := offset + 1;
    while i < |data|
      invariant offset + 1 <= i && (i <= |data| || i == offset + 1)
      invariant result == ScannerData(false, i - offset, 0, None)
      invariant StringPass(data, offset) == StringBody(data, i, matchQuote, ignoreNextMatchQuote, i - offset)
    {
      c := CharAt(data, i);
      if c[0] == matchQuote {
        if !ignoreNextMatchQuote {
          result := result.(success := true, readChars := result.readChars + 1);
          return;
        }
      } else if c[0] == '\\' {
        ignoreNextMatchQuote := true;
      } else {
        if ignoreNextMatchQuote {
          ignoreNextMatchQuote := false;
        }
      }
      result := result.(readChars := result.readChars + 1);
      i := i + 1;
    }
  }

  /** What the scan after the opening quote guarantees: a success ends on
      an unescaped quote inside the text, every quote passed over on the way
      was preceded by a backslash or by another passed-over quote, and a
      failure has run to the end of the text. */
  lemma {:induction false} StringBodyFacts(data: string, offset: nat, i: nat, quote: char, ignore: bool)
    requires offset < i <= |data| && data[offset] == quote && quote != '\\'
    requires data[i - 1] == '\\' ==> ignore
    requires ignore ==> data[i - 1] == '\\' || (i - 1 > offset && data[i - 1] == quote)
    requires forall j :: offset < j < i && data[j] == quote ==> data[j - 1] == '\\' || data[j - 1] == quote
    ensures var r := StringBody(data, i, quote, ignore, i - offset);
      && r.readLines == 0
      && (!r.success ==> r.readChars == |data| - offset)
      && (r.success ==>
          && 2 <= r.readChars <= |data| - offset
          && data[offset + r.readChars - 1] == quote
          && data[offset + r.readChars - 2] != '\\'
          && forall j :: offset < j < offset + r.readChars - 1 && data[j] == quote ==>
               data[j - 1] == '\\' || data[j - 1] == quote)
    decreases |data| - i
  {
    if i < |data| {
      var next := if data[i] == '\\' then true else if data[i] == quote then ignore else false;
      if !(data[i] == quote && !ignore) {
        assert StringBody(data, i, quote, ignore, i - offset) == StringBody(data, i + 1, quote, next, i + 1 - offset);
        StringBodyFacts(data, offset, i + 1, quote, next);
      }
    }
  }

  /** The string pass: it fails unless the text at `offset` opens with one of
      the three quotes; on success it consumes both delimiters, ends on the
      opening quote character, and that closing quote is not preceded by a
      backslash; it never counts lines. */
  lemma StringPassDelimiters(data: string, offset: nat)
    ensures var r := StringPass(data, offset);
      && r.readLines == 0
      && (!IsQuote(CharAt(data, offset)) ==> !r.success)
      && (r.success ==>
          && offset < |data|
          && 2 <= r.readChars <= |data| - offset
          && data[offset + r.readChars - 1] == data[offset]
          && data[offset + r.readChars - 2] != '\\'
          && forall j :: offset < j < offset + r.readChars - 1 && data[j] == data[offset] ==>
               data[j - 1] == '\\' || data[j - 1] == data[offset])
  {
    if IsQuote(CharAt(data, offset)) {
      StringBodyFacts(data, offset, offset + 1, data[offset], false);
    }
  }

  /** Without a closing quote later in the text, the string pass fails. */
  lemma StringPassNeedsClosingQuote(data: string, offset: nat)
    requires forall j :: offset < j < |data| ==> data[j] != CharAt(data, offset)[0]
    requires IsQuote(CharAt(data, offset))
    ensures !StringPass(data, offset).success
  {
    StringPassDelimiters(data, offset);
  }

  /** An escaped quote inside a literal does not close it: `"a\"b"` is read
      whole, six characters. */
  lemma StringPassSkipsEscapedQuote()
    ensures StringPass("\"a\\\"b\"", 0) == ScannerData(true, 6, 0, None)
  {
  }

  /** The escape flag survives the escaped quote itself, so in `"\""` the
      final quote does not close the literal and the pass fails. */
  lemma StringPassEscapeOutlivesQuote()
    ensures !StringPass("\"\\\"\"", 0).success
  {
  }

  // ---------------------------------------------------------------------
  // Single-character passes

  /** `chars.includes(data.charAt(offset))`: past the end `charAt` gives the
      empty string, which every string includes. */
  function SingleCharPass(data: string, offset: nat, chars: string): (r: ScannerData)
    ensures r.success <==> offset >= |data| || data[offset] in chars
    ensures r.success ==> r == ScannerData(true, 1, 0, None)
    ensures !r.success ==> r == NO_MATCH
  {
    if Includes(chars, CharAt(data, offset)) then ScannerData(true, 1, 0, None) else NO_MATCH
  }

  function OperatorPass(data: string, offset: nat): ScannerData { SingleCharPass(data, offset, OPS) }
  function BracketPass(data: string, offset: nat): ScannerData { SingleCharPass(data, offset, BRACKETS) }
  function ParenthesisPass(data: string, offset: nat): ScannerData { SingleCharPass(data, offset, PAREN) }
  function TerminatorPass(data: string, offset: nat): ScannerData { SingleCharPass(data, offset, TERMS) }

  /** Before the end of the text each single-character pass succeeds, reading
      exactly one character, iff that character is in its set. */
  lemma SingleCharPassesInsideText(data: string, offset: nat)
    requires offset < |data|
    ensures OperatorPass(data, offset).success <==> data[offset] in OPS
    ensures BracketPass(data, offset).success <==> data[offset] in BRACKETS
    ensures ParenthesisPass(data, offset).success <==> data[offset] in PAREN
    ensures TerminatorPass(data, offset).success <==> data[offset] in TERMS
    ensures forall chars :: SingleCharPass(data, offset, chars).success ==>
      SingleCharPass(data, offset, chars) == ScannerData(true, 1, 0, None)
  {
  }

  /** At or past the end of the text every single-character pass "succeeds"
      with one character read, because `includes("")` is true. */
  lemma SingleCharPassesPastEnd(data: string, offset: nat, chars: string)
    requires offset >= |data|
    ensures SingleCharPass(data, offset, chars) == ScannerData(true, 1, 0, None)
  {
  }

  // ---------------------------------------------------------------------
  // Whitespace

  /** Occurrences of `c` in `s`. */
  function Count(s: string, c: char): nat {
    if s == [] then 0 else Count(s[..|s| - 1], c) + (if s[|s| - 1] == c then 1 else 0)
  }

  /** The whitespace pass reads the maximal run of spaces and newlines to
      the end of the text (no cap), counts its newlines as lines, and
      succeeds iff the run is non-empty; past the end it reads nothing. */
  function WhitespacePass(data: string, offset: nat): (r: ScannerData)
    ensures r.success <==> r.readChars > 0
    ensures offset > |data| ==> r == NO_MATCH
    ensures offset <= |data| ==>
      && offset + r.readChars <= |data|
      && (forall j :: offset <= j < offset + r.readChars ==> data[j] == ' ' || data[j] == NL)
      && (offset + r.readChars < |data| ==> data[offset + r.readChars] != ' ' && data[offset + r.readChars] != NL)
      && r.readLines == Count(data[offset..offset + r.readChars], NL)
  {
    var n := RunLength(data, offset, |data|, WS);
    ScannerData(n > 0, n, if offset <= |data| then Count(data[offset..offset + n], NL) else 0, None)
  }

  /** The loop of the whitespace closure. */
  method ScanWhitespace(data: string, offset: nat) returns (result: ScannerData)
    ensures result == WhitespacePass(data, offset)
  {
    result := NO_MATCH;
    var i := offset;
    while i < |data|
      invariant offset <= i <= |data| || i == offset > |data|
      invariant i <= |data| ==> result == WhitespaceSoFar(data, offset, i)
      invariant i > |data| ==> result == NO_MATCH
      invariant RunLength(data, offset, |data|, WS) == (i - offset) + RunLength(data, i, |data|, WS)
    {
      var c := CharAt(data, i);
      CharAtInside(data, i);
      if Includes(WS, c) {
        WhitespaceStep(data, offset, i);
        if c == [NL] {
          result := result.(readLines := result.readLines + 1);
        }
        result := result.(readChars := result.readChars + 1);
      } else {
        assert RunLength(data, i, |data|, WS) == 0;
        if result.readChars > 0 {
          result := result.(success := true);
        }
        return;
      }
      i := i + 1;
    }
    assert RunLength(data, i, |data|, WS) == 0;
    if result.readChars > 0 {
      result := result.(success := true);
    }
  }

  lemma CharAtInside(data: string, i: nat)
    requires i < |data|
    ensures CharAt(data, i) == [data[i]]
    ensures Includes(WS, CharAt(data, i)) <==> data[i] in WS
    ensures CharAt(data, i) == [NL] <==> data[i] == NL
  {
  }

  /** The loop's result after reading `data[offset..i]`, all whitespace:
      not yet successful, one character read per step and one line per
      newline. */
  ghost function WhitespaceSoFar(data: string, offset: nat, i: nat): ScannerData
    requires offset <= i <= |data|
  {
    ScannerData(false, i - offset, Count(data[offset..i], NL), None)
  }

  /** One whitespace character more: the run grows by one and the line
      count by one exactly when the character is a newline. */
  lemma WhitespaceStep(data: string, offset: nat, i: nat)
    requires offset <= i < |data| && data[i] in WS
    ensures WhitespaceSoFar(data, offset, i + 1)
      == WhitespaceSoFar(data, offset, i).(readChars := i + 1 - offset, readLines := WhitespaceSoFar(data, offset, i).readLines + if data[i] == NL then 1 else 0)
    ensures RunLength(data, i, |data|, WS) == 1 + RunLength(data, i + 1, |data|, WS)
  {
    var s, t := data[offset..i], data[offset..i + 1];
    CountSnoc(s, data[i], NL);
    assert |s + [data[i]]| == |t|;
    forall k | 0 <= k < |t|
      ensures (s + [data[i]])[k] == t[k]
    {
    }
    assert s + [data[i]] == t;
  }

  lemma CountSnoc(s: string, x: char, c: char)
    ensures Count(s + [x], c) == Count(s, c) + (if x == c then 1 else 0)
  {
    assert (s + [x])[..|s|] == s;
  }

  // ---------------------------------------------------------------------
  // The registered table

  /** The passes in registration order, under distinct names. */
  function TypeScriptPasses(): (ps: PassTable)
    ensures |ps| == 8 && DistinctNames(ps)
  {
    [ (NUMBER_LITERAL, NumberPass), (IDENTIFIER, IdentifierPass), (STRING_LITERAL, StringPass),
      (OPERATOR, OperatorPass), (BRACKET, BracketPass), (PARENTHESIS, ParenthesisPass),
      (TERMINATOR, TerminatorPass), (WHITESPACE, WhitespacePass) ]
  }

  /** `new TypeScriptScanner()`: a fresh scanner with the eight passes added
      in order; none of the additions throws. */
  method NewTypeScriptScanner() returns (s: Scanner)
    ensures fresh(s) && s.Valid()
    ensures s.passes == TypeScriptPasses()
    ensures s.data == None && s.offset == 0 && s.readLines == 0 && s.readLineChars == 0
  {
    s := new Scanner();
    AddNextPass(s, 0);
    AddNextPass(s, 1);
    AddNextPass(s, 2);
    AddNextPass(s, 3);
    AddNextPass(s, 4);
    AddNextPass(s, 5);
    AddNextPass(s, 6);
    AddNextPass(s, 7);
    assert TypeScriptPasses()[..8] == TypeScriptPasses();
  }

  /** The `k`-th `addPass` call of the constructor: the name is not taken yet,
      so the call does not throw and the pass lands at the end. */
  method AddNextPass(s: Scanner, k: nat)
    requires k < 8 && s.Valid() && s.passes == TypeScriptPasses()[..k]
    modifies s
    ensures s.Valid() && s.passes == TypeScriptPasses()[..k + 1]
    ensures s.data == old(s.data) && s.offset == old(s.offset) && s.readLines == old(s.readLines)
    ensures s.readLineChars == old(s.readLineChars)
  {
    var ps := TypeScriptPasses();
    NameNotYetAdded(k);
    var r := s.AddPass(ps[k].0, ps[k].1);
    assert r.Pass?;
    assert ps[..k] + [ps[k]] == ps[..k + 1];
  }

  lemma NameNotYetAdded(k: nat)
    requires k < 8
    ensures TypeScriptPasses()[k].0 !in Names(TypeScriptPasses()[..k])
  {
    var ps := TypeScriptPasses();
    var ns := Names(ps[..k]);
    forall j | 0 <= j < k
      ensures ns[j] != ps[k].0
    {
    }
  }

  /** Every TypeScript pass, when it succeeds before the end of the text,
      consumes between one and the remaining number of characters. */
  lemma TypeScriptPassesWellBehaved()
    ensures WellBehaved(TypeScriptPasses())
  {
    var ps := TypeScriptPasses();
    forall i | 0 <= i < |ps|
      ensures Advances(ps[i].1) && StaysInside(ps[i].1)
    {
      forall data: string, offset: nat | offset < |data| && ps[i].1(data, offset).success
        ensures 1 <= ps[i].1(data, offset).readChars <= |data| - offset
      {
        if i == 2 {
          assert ps[i].1(data, offset) == StringPass(data, offset);
        } else if i == 7 {
          assert ps[i].1(data, offset) == WhitespacePass(data, offset);
        }
      }
    }
  }

  /** Registration order decides overlaps: text starting with a digit is
      claimed by the number pass, never by the identifier pass. */
  lemma DigitIsClaimedByNumberPass(data: string, offset: nat)
    requires offset < |data| && data[offset] in NUMBERS
    ensures FirstMatch(TypeScriptPasses(), data, offset) == Some(0)
  {
    assert RunLength(data, offset, Min(|data|, offset + MAX_RUN), NUMBERS) > 0;
  }

  /** At the end of the text the first three passes fail and the operator
      pass "succeeds", so `next()` there yields an "oper" token with empty
      data rather than an end-of-file token. */
  lemma NextAtEndYieldsOperator(data: string, offset: nat, readLines: nat, readLineChars: nat)
    requires offset >= |data|
    ensures FirstMatch(TypeScriptPasses(), data, offset) == Some(3)
    ensures NextStep(TypeScriptPasses(), data, offset, readLines, readLineChars).token
         == Token(OPERATOR, Some(""), Some(readLines), None)
  {
    var ps := TypeScriptPasses();
    PassesPastEnd(data, offset);
    FirstMatchAt(ps, data, offset, 3);
    assert Substring(data, offset, offset + 1) == "";
  }

  lemma PassesPastEnd(data: string, offset: nat)
    requires offset >= |data|
    ensures !NumberPass(data, offset).success && !IdentifierPass(data, offset).success
    ensures !StringPass(data, offset).success
    ensures OperatorPass(data, offset) == ScannerData(true, 1, 0, None)
  {
    assert CharAt(data, offset) == "";
  }
}

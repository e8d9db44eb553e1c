/** The tokenizer driver (src/tokenizer/tokenizer.ts): runs a scanner over
    a text until nothing is left, stops at the first error token and drops
    tokens of the skipped kinds. */
module Tokenizing {
  import opened Wrappers
  import opened Tokens
  import opened Scanning

  /** A scan run: the tokens emitted before the loop ended, the rejection
      message if it ended on an error token, and the scanner's final offset
      and line counter. */
  datatype ScanRun = ScanRun(tokens: seq<Token>, error: Option<string>, offset: nat, readLines: nat)

  /** Template-literal text of a token's data: `undefined` when absent. */
  function Show(data: Option<string>): (r: string)
    ensures data == Some(r) || (data.None? && r == "undefined")
  {
    match data
    case None => "undefined"
    case Some(s) => s
  }

  /** The text a token stands for. */
  function TextOf(t: Token): string {
    match t.data
    case None => ""
    case Some(s) => s
  }

  function Joined(ts: seq<Token>): string {
    if ts == [] then "" else TextOf(ts[0]) + Joined(ts[1..])
  }

  /** When every pass makes progress, one step before the end of the text
      moves forward on every token a pass made; when the passes also stay
      within the text, the step ends inside it and the token's data is the
      consumed slice. */
  lemma NextStepAdvances(ps: PassTable, d: string, offset: nat, lines: nat, lineChars: nat)
    requires AllAdvance(ps) && offset < |d|
    ensures var s := NextStep(ps, d, offset, lines, lineChars);
      && (FirstMatch(ps, d, offset).Some? ==> offset < s.offset)
      && (s.token.kind != "error" ==> offset < s.offset)
      && (WellBehaved(ps) ==> s.offset <= |d|)
      && (WellBehaved(ps) && FirstMatch(ps, d, offset).Some? ==> s.token.data == Some(d[offset..s.offset]))
  {
    match FirstMatch(ps, d, offset)
    case None =>
    case Some(k) =>
      assert Advances(ps[k].1);
      assert ps[k].1(d, offset).success;
      if WellBehaved(ps) {
        assert StaysInside(ps[k].1);
      }
  }

  /** What the `while (scanner.available() > 0)` loop computes from a given
      offset and line counter. */
  function ScanAll(ps: PassTable, d: string, offset: nat, lines: nat, lineChars: nat): (run: ScanRun)
    requires AllAdvance(ps)
    ensures forall i :: 0 <= i < |run.tokens| ==> run.tokens[i].kind != "error"
    ensures run.error.None? ==> run.offset >= |d|
    ensures offset <= run.offset
    ensures WellBehaved(ps) && offset <= |d| ==> run.offset <= |d|
    ensures offset > |d| ==> run == ScanRun([], None, offset, lines)
    decreases |d| - offset
  {
    if offset >= |d| then ScanRun([], None, offset, lines)
    else
      var s := NextStep(ps, d, offset, lines, lineChars);
      NextStepAdvances(ps, d, offset, lines, lineChars);
      if s.token.kind == "error" then ScanRun([], Some(Show(s.token.data)), s.offset, s.readLines)
      else
        var rest := ScanAll(ps, d, s.offset, s.readLines, lineChars);
        ScanRun([s.token] + rest.tokens, rest.error, rest.offset, rest.readLines)
  }

  /** One turn of the loop: ScanAll is the step's token followed by the
      scan from where the step left off, unless the step is an error. */
  lemma ScanAllUnfold(ps: PassTable, d: string, offset: nat, lines: nat, lineChars: nat)
    requires AllAdvance(ps) && offset < |d|
    ensures var s := NextStep(ps, d, offset, lines, lineChars);
      && (s.token.kind == "error" ==>
            ScanAll(ps, d, offset, lines, lineChars) == ScanRun([], Some(Show(s.token.data)), s.offset, s.readLines))
      && (s.token.kind != "error" ==>
            offset < s.offset
            && var rest := ScanAll(ps, d, s.offset, s.readLines, lineChars);
            ScanAll(ps, d, offset, lines, lineChars) == ScanRun([s.token] + rest.tokens, rest.error, rest.offset, rest.readLines))
  {
    NextStepAdvances(ps, d, offset, lines, lineChars);
  }

  /** Without an error, the emitted tokens spell out the rest of the text
      exactly, and the scan ends precisely at its end. */
  lemma {:induction false} ScanAllCoversText(ps: PassTable, d: string, offset: nat, lines: nat, lineChars: nat)
    requires WellBehaved(ps) && offset <= |d|
    requires ScanAll(ps, d, offset, lines, lineChars).error.None?
    ensures Joined(ScanAll(ps, d, offset, lines, lineChars).tokens) == d[offset..]
    ensures ScanAll(ps, d, offset, lines, lineChars).offset == |d|
    decreases |d| - offset
  {
    if offset < |d| {
      var s := NextStep(ps, d, offset, lines, lineChars);
      ScanAllUnfold(ps, d, offset, lines, lineChars);
      NextStepAdvances(ps, d, offset, lines, lineChars);
      assert s.token.kind != "error";
      assert FirstMatch(ps, d, offset).Some?;
      assert TextOf(s.token) == d[offset..s.offset];
      var rest := ScanAll(ps, d, s.offset, s.readLines, lineChars);
      ScanAllCoversText(ps, d, s.offset, s.readLines, lineChars);
      JoinedCons(s.token, rest.tokens);
      SliceSplit(d, offset, s.offset);
    }
  }

  lemma SliceSplit(d: string, a: nat, b: nat)
    requires a <= b <= |d|
    ensures d[a..] == d[a..b] + d[b..]
  {
  }

  lemma JoinedCons(t: Token, ts: seq<Token>)
    ensures Joined([t] + ts) == TextOf(t) + Joined(ts)
  {
    assert ([t] + ts)[1..] == ts;
  }

  /** A pass that claims more characters than remain ends the loop, since
      `available()` is then negative: the scan resolves with that token last,
      its data the rest of the text (`substring` clamps), and the offset
      past the end. */
  lemma OvershootEndsScan(ps: PassTable, d: string, offset: nat, lines: nat, lineChars: nat)
    requires AllAdvance(ps) && offset < |d|
    requires FirstMatch(ps, d, offset).Some?
    requires NextStep(ps, d, offset, lines, lineChars).token.kind != "error"
    requires NextStep(ps, d, offset, lines, lineChars).offset > |d|
    ensures var s := NextStep(ps, d, offset, lines, lineChars);
      && s.token.data == Some(d[offset..])
      && ScanAll(ps, d, offset, lines, lineChars) == ScanRun([s.token], None, s.offset, s.readLines)
  {
    ScanAllUnfold(ps, d, offset, lines, lineChars);
  }

  /** An error ends the scan at the first place no pass matched (or at a
      token a pass named "error"): no tokens are kept past it. */
  lemma {:induction false} ScanAllStopsAtNoMatch(ps: PassTable, d: string, offset: nat, lines: nat, lineChars: nat)
    requires AllAdvance(ps) && offset < |d|
    requires FirstMatch(ps, d, offset).None?
    ensures ScanAll(ps, d, offset, lines, lineChars)
      == ScanRun([], Some(ErrorMessage(d, offset, lines, lineChars)), offset, lines)
  {
  }

  /** The `skipTypes` filter. An absent list keeps every token; a present
      one (even empty, since an empty array is truthy) drops the tokens
      whose kind it lists, keeping the others in order. */
  function Keep(ts: seq<Token>, skip: Option<seq<string>>): (r: seq<Token>)
    ensures skip.None? ==> r == ts
    ensures |r| <= |ts|
  {
    if ts == [] then []
    else
      var last := ts[|ts| - 1];
      assert ts == ts[..|ts| - 1] + [last];
      Keep(ts[..|ts| - 1], skip) + (if skip.Some? && last.kind in skip.value then [] else [last])
  }

  /** One token more: it is appended to the kept ones unless its kind is
      skipped. */
  lemma KeepSnoc(ts: seq<Token>, t: Token, skip: Option<seq<string>>)
    ensures Keep(ts + [t], skip) == Keep(ts, skip) + (if skip.Some? && t.kind in skip.value then [] else [t])
  {
    assert (ts + [t])[..|ts|] == ts;
  }

  /** A token survives the filter exactly when it was in the list and its
      kind is not skipped. */
  lemma {:induction false} KeepSelects(ts: seq<Token>, skip: Option<seq<string>>, t: Token)
    ensures t in Keep(ts, skip) <==> t in ts && (skip.None? || t.kind !in skip.value)
  {
    if ts != [] {
      var init, last := ts[..|ts| - 1], ts[|ts| - 1];
      var tail := if skip.Some? && last.kind in skip.value then [] else [last];
      assert ts == init + [last];
      KeepSnoc(init, last, skip);
      assert Keep(ts, skip) == Keep(init, skip) + tail;
      KeepSelects(init, skip, t);
      assert t in ts <==> t in init || t == last;
      assert t in Keep(ts, skip) <==> t in Keep(init, skip) || t in tail;
    }
  }

  /** A filter that lists none of the tokens' kinds keeps the list as it is. */
  lemma {:induction false} KeepNothingSkipped(ts: seq<Token>, skip: Option<seq<string>>)
    requires forall i :: 0 <= i < |ts| ==> skip.None? || ts[i].kind !in skip.value
    ensures Keep(ts, skip) == ts
  {
    if ts != [] {
      var init, last := ts[..|ts| - 1], ts[|ts| - 1];
      KeepNothingSkipped(init, skip);
      KeepSnoc(init, last, skip);
      assert ts == init + [last];
    }
  }

  /** The loop's invariant: the whole scan is the tokens emitted so far
      followed by the scan from the current position. */
  ghost predicate Continues(whole: ScanRun, done: seq<Token>, ps: PassTable, d: string, offset: nat, lines: nat, lineChars: nat)
    requires AllAdvance(ps)
  {
    var rest := ScanAll(ps, d, offset, lines, lineChars);
    whole == ScanRun(done + rest.tokens, rest.error, rest.offset, rest.readLines)
  }

  lemma ContinuesStep(whole: ScanRun, done: seq<Token>, ps: PassTable, d: string, offset: nat, lines: nat, lineChars: nat)
    requires AllAdvance(ps) && offset < |d|
    requires Continues(whole, done, ps, d, offset, lines, lineChars)
    ensures var s := NextStep(ps, d, offset, lines, lineChars);
      && (s.token.kind == "error" ==>
            whole == ScanRun(done, Some(Show(s.token.data)), s.offset, s.readLines))
      && (s.token.kind != "error" ==>
            offset < s.offset && Continues(whole, done + [s.token], ps, d, s.offset, s.readLines, lineChars))
  {
    var s := NextStep(ps, d, offset, lines, lineChars);
    ScanAllUnfold(ps, d, offset, lines, lineChars);
    if s.token.kind != "error" {
      var rest := ScanAll(ps, d, s.offset, s.readLines, lineChars);
      assert done + ([s.token] + rest.tokens) == (done + [s.token]) + rest.tokens;
    }
  }

  /** `tokenizer(data, scanner, skipTypes)`: the promise resolves with the
      kept tokens of the scan or rejects with the error token's data. The
      scanner keeps the offset and line counter it had, since `setData`
      does not reset them. */
  method Tokenize(d: string, scanner: Scanner, skipTypes: Option<seq<string>>) returns (r: Result<seq<Token>, string>)
    requires AllAdvance(scanner.passes)
    modifies scanner
    ensures scanner.passes == old(scanner.passes) && scanner.data == Some(d)
    ensures scanner.readLineChars == old(scanner.readLineChars)
    ensures var run := ScanAll(scanner.passes, d, old(scanner.offset), old(scanner.readLines), scanner.readLineChars);
      && r == (if run.error.Some? then Err(run.error.value) else Ok(Keep(run.tokens, skipTypes)))
      && scanner.offset == run.offset && scanner.readLines == run.readLines
  {
    var result: seq<Token> := [];
    scanner.SetData(d);
    ghost var ps, lc := scanner.passes, scanner.readLineChars;
    ghost var whole := ScanAll(ps, d, scanner.offset, scanner.readLines, lc);
    ghost var done: seq<Token> := [];
    while scanner.Available() > 0
      invariant scanner.passes == ps && scanner.data == Some(d) && scanner.readLineChars == lc
      invariant Continues(whole, done, ps, d, scanner.offset, scanner.readLines, lc)
      invariant result == Keep(done, skipTypes)
      decreases |d| - scanner.offset
    {
      ghost var o, l := scanner.offset, scanner.readLines;
      ContinuesStep(whole, done, ps, d, o, l, lc);
      var next;
      ghost var invoked;
      next, invoked := scanner.Next();
      var token := next.value;
      if token.kind == "error" {
        r := Err(Show(token.data));
        return;
      }
      KeepSnoc(done, token, skipTypes);
      done := done + [token];
      if skipTypes.Some? {
        if token.kind in skipTypes.value {
        } else {
          result := result + [token];
        }
      } else {
        result := result + [token];
      }
    }
    assert whole == ScanRun(done, None, scanner.offset, scanner.readLines);
    r := Ok(result);
  }
}

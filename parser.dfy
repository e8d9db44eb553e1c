/** The backtracking parser (src/parser/parser.ts). Templates are tried in
    order at the cursor; a template matches when its requirements are met
    one after the other, a token requirement by the next token and a
    statement requirement by a nested template search. A failed attempt
    rolls the cursor back to where it started.

    The parser reads the language through getters that do not exist in
    src/parser/language.ts; they are modelled as reads of the template and
    requirement fields, taken once as a value (`Language.Snapshot`) since
    parsing never changes the language. The cursor needs `save`, `restore`
    and `restore(true)`, which only `Staccessor` offers, so it is one. */
module Parsing {
  import opened Wrappers
  import opened Tokens
  import opened Accessors
  import opened Grammar

  /** What `save()` throws while there is no current statement. */
  const SAVE_UNDEFINED_MESSAGE: string := "Cannot save, current statement is undefined, a falsy value"

  /** The outcome of matching at a position: no match, a match that ends
      at `end`, or a JavaScript TypeError (a token requirement checked
      against `undefined`, past the end of the tokens). */
  datatype Match = NoMatch | Matched(end: int) | Threw

  /** `accessor.peak()` at `pos`, as a value. */
  function PeakAt(items: seq<Option<Token>>, pos: int): (r: Option<Token>)
    ensures r.Some? ==> 0 <= pos < |items|
    ensures 0 <= pos < |items| ==> r == items[pos]
  {
    if 0 <= pos < |items| then items[pos] else None
  }

  /** `tokenMeetRequirement(token, requirement)`: `None` stands for the
      TypeError raised when the token is `undefined` and the requirement
      asks anything of it. */
  function TokenMeetRequirement(token: Option<Token>, req: RequirementValue): (r: Option<bool>)
    ensures r.None? <==> token.None? && (req.tokenType.Some? || req.tokenData.Some?)
    ensures r == Some(true) <==>
      && (req.tokenType.None? || (token.Some? && token.value.kind == req.tokenType.value))
      && (req.tokenData.None? || (token.Some? && token.value.data == req.tokenData))
  {
    if token.None? then
      if req.tokenType.Some? || req.tokenData.Some? then None else Some(true)
    else
      var result := true;
      var result := if req.tokenType.Some? && token.value.kind != req.tokenType.value then false else result;
      var result := if req.tokenData.Some? && token.value.data != req.tokenData then false else result;
      Some(result)
  }

  /** On a present token, the requirement check is `token.is(tokenType, tokenData)`. */
  lemma TokenMeetRequirementIsTokenIs(tok: Token, req: RequirementValue)
    ensures TokenMeetRequirement(Some(tok), req) == Some(Is(tok, req.tokenType, req.tokenData))
  {
  }

  /** A template is tried unless a non-empty id is asked for and the
      template has another id. */
  predicate Candidate(t: TemplateValue, id: Option<string>): (b: bool)
    ensures (id.None? || id == Some("")) ==> b
    ensures id.Some? && id.value != "" ==> (b <==> t.id == id.value)
  {
    !(id.Some? && id.value != "" && id.value != t.id)
  }

  /** `findMatchingTemplate(id)` from position `pos`, trying the templates
      `ts` in order; nested statement requirements search the whole grammar
      `g`. `fuel` bounds how deeply statement requirements may nest, and
      running out counts as no match. */
  function FindIn(g: seq<TemplateValue>, ts: seq<TemplateValue>, items: seq<Option<Token>>, pos: int, id: Option<string>, fuel: nat): (m: Match)
    ensures m.Matched? ==> m.end >= pos
    decreases fuel, 1, |ts|
  {
    if ts == [] then NoMatch
    else if !Candidate(ts[0], id) then FindIn(g, ts[1..], items, pos, id, fuel)
    else match MeetReqs(g, items, ts[0].requirements, pos, fuel)
      case NoMatch => FindIn(g, ts[1..], items, pos, id, fuel)
      case Matched(e) => Matched(e)
      case Threw => Threw
  }

  /** `meetTemplateRequirements(reqs)` from position `pos`: token
      requirements consume one token each; the first statement requirement
      decides the outcome by itself; a requirement of neither type is
      skipped. */
  function MeetReqs(g: seq<TemplateValue>, items: seq<Option<Token>>, reqs: seq<RequirementValue>, pos: int, fuel: nat): (m: Match)
    ensures m.Matched? ==> m.end >= pos
    decreases fuel, 0, |reqs|
  {
    if reqs == [] then Matched(pos)
    else match reqs[0].kind
      case None => MeetReqs(g, items, reqs[1..], pos, fuel)
      case Some(OfToken) =>
        (match TokenMeetRequirement(PeakAt(items, pos), reqs[0])
         case None => Threw
         case Some(false) => NoMatch
         case Some(true) => MeetReqs(g, items, reqs[1..], pos + 1, fuel))
      case Some(OfStatement) =>
        if fuel == 0 then NoMatch else FindIn(g, g, items, pos, reqs[0].statementId, fuel - 1)
  }

  /** A list of token requirements over present tokens matches exactly when
      every token, in order, meets its requirement, and then consumes one
      token per requirement. */
  lemma {:induction false} TokenRequirementsConsumeOneEach(g: seq<TemplateValue>, items: seq<Option<Token>>, reqs: seq<RequirementValue>, pos: int, fuel: nat)
    requires forall k :: 0 <= k < |reqs| ==> reqs[k].kind == Some(OfToken)
    requires 0 <= pos && pos + |reqs| <= |items|
    requires forall k :: pos <= k < pos + |reqs| ==> items[k].Some?
    ensures MeetReqs(g, items, reqs, pos, fuel) ==
      if forall k :: 0 <= k < |reqs| ==> Is(items[pos + k].value, reqs[k].tokenType, reqs[k].tokenData)
      then Matched(pos + |reqs|) else NoMatch
    decreases |reqs|
  {
    if reqs != [] {
      TokenMeetRequirementIsTokenIs(items[pos].value, reqs[0]);
      TokenRequirementsConsumeOneEach(g, items, reqs[1..], pos + 1, fuel);
      assert forall k :: 1 <= k < |reqs| ==> reqs[1..][k - 1] == reqs[k] && items[pos + 1 + (k - 1)] == items[pos + k];
    }
  }

  /** Requirements after the first statement requirement are never looked at. */
  lemma {:induction false} StatementRequirementEndsTheList(g: seq<TemplateValue>, items: seq<Option<Token>>, reqs: seq<RequirementValue>, rest: seq<RequirementValue>, pos: int, fuel: nat)
    requires exists k :: 0 <= k < |reqs| && reqs[k].kind == Some(OfStatement)
    ensures MeetReqs(g, items, reqs + rest, pos, fuel) == MeetReqs(g, items, reqs, pos, fuel)
    decreases |reqs|
  {
    assert (reqs + rest)[0] == reqs[0];
    if reqs[0].kind != Some(OfStatement) {
      var k :| 0 <= k < |reqs| && reqs[k].kind == Some(OfStatement);
      assert reqs[1..][k - 1].kind == Some(OfStatement);
      assert (reqs + rest)[1..] == reqs[1..] + rest;
      if reqs[0].kind.None? {
        StatementRequirementEndsTheList(g, items, reqs[1..], rest, pos, fuel);
      } else {
        StatementRequirementEndsTheList(g, items, reqs[1..], rest, pos + 1, fuel);
      }
    }
  }

  /** Templates are tried in order and the first outcome other than "no
      match" is final: templates after it are never tried. */
  lemma {:induction false} FindInAppend(g: seq<TemplateValue>, ts1: seq<TemplateValue>, ts2: seq<TemplateValue>, items: seq<Option<Token>>, pos: int, id: Option<string>, fuel: nat)
    ensures FindIn(g, ts1 + ts2, items, pos, id, fuel) ==
      match FindIn(g, ts1, items, pos, id, fuel)
      case NoMatch => FindIn(g, ts2, items, pos, id, fuel)
      case Matched(e) => Matched(e)
      case Threw => Threw
    decreases |ts1|
  {
    if ts1 == [] {
      assert ts1 + ts2 == ts2;
    } else {
      assert (ts1 + ts2)[0] == ts1[0];
      assert (ts1 + ts2)[1..] == ts1[1..] + ts2;
      FindInAppend(g, ts1[1..], ts2, items, pos, id, fuel);
    }
  }

  /** The first template, in order, that is a candidate and whose
      requirements match wins, when no earlier candidate threw. */
  lemma {:induction false} FirstMatchingTemplateWins(g: seq<TemplateValue>, ts: seq<TemplateValue>, items: seq<Option<Token>>, pos: int, id: Option<string>, fuel: nat, k: nat)
    requires k < |ts| && Candidate(ts[k], id)
    requires MeetReqs(g, items, ts[k].requirements, pos, fuel).Matched?
    requires forall j :: 0 <= j < k && Candidate(ts[j], id) ==> MeetReqs(g, items, ts[j].requirements, pos, fuel) == NoMatch
    ensures FindIn(g, ts, items, pos, id, fuel) == MeetReqs(g, items, ts[k].requirements, pos, fuel)
    decreases k
  {
    if k > 0 {
      FirstMatchingTemplateWins(g, ts[1..], items, pos, id, fuel, k - 1);
    }
  }

  /** The templates a search for `id` tries. */
  function Candidates(ts: seq<TemplateValue>, id: Option<string>): (cs: seq<TemplateValue>)
    ensures forall t :: t in cs ==> t in ts && Candidate(t, id)
    ensures forall t :: t in ts && Candidate(t, id) ==> t in cs
    ensures (forall t :: t in ts ==> !Candidate(t, id)) ==> cs == []
  {
    if ts == [] then []
    else if Candidate(ts[0], id) then [ts[0]] + Candidates(ts[1..], id)
    else Candidates(ts[1..], id)
  }

  /** Searching for an id is searching the templates with that id, in
      order, as if no id were given. The abstract flag plays no part: the
      search sees only ids and requirements. */
  lemma {:induction false} SearchByIdTriesOnlyThatId(g: seq<TemplateValue>, ts: seq<TemplateValue>, items: seq<Option<Token>>, pos: int, id: Option<string>, fuel: nat)
    ensures FindIn(g, ts, items, pos, id, fuel) == FindIn(g, Candidates(ts, id), items, pos, None, fuel)
    decreases |ts|
  {
    if ts != [] {
      SearchByIdTriesOnlyThatId(g, ts[1..], items, pos, id, fuel);
      if Candidate(ts[0], id) {
        var cs := [ts[0]] + Candidates(ts[1..], id);
        assert cs[0] == ts[0] && cs[1..] == Candidates(ts[1..], id);
      }
    }
  }

  /** An id that no template carries never matches. */
  lemma UnknownIdNeverMatches(g: seq<TemplateValue>, ts: seq<TemplateValue>, items: seq<Option<Token>>, pos: int, id: string, fuel: nat)
    requires id != "" && forall t :: t in ts ==> t.id != id
    ensures FindIn(g, ts, items, pos, Some(id), fuel) == NoMatch
  {
    SearchByIdTriesOnlyThatId(g, ts, items, pos, Some(id), fuel);
  }

  /** How `parse` ends: every token consumed, a position where no template
      matches, a TypeError, or (a bound of the model) out of steps. */
  datatype ParseOutcome = Finished(pos: int) | Failed(pos: int) | Crashed | OutOfSteps(pos: int)

  /** The `while (accessor.hasNext())` loop of `parse` from `pos`; `steps`
      bounds the number of turns. */
  function ParseFrom(g: seq<TemplateValue>, items: seq<Option<Token>>, pos: int, depth: nat, steps: nat): (o: ParseOutcome)
    ensures o.Finished? ==> o.pos >= pos && o.pos >= |items|
    ensures o.Failed? ==> pos <= o.pos < |items| && FindIn(g, g, items, o.pos, None, depth) == NoMatch
    ensures o.OutOfSteps? ==> pos <= o.pos < |items|
    decreases steps
  {
    if !(pos < |items|) then Finished(pos)
    else if steps == 0 then OutOfSteps(pos)
    else match FindIn(g, g, items, pos, None, depth)
      case NoMatch => Failed(pos)
      case Threw => Crashed
      case Matched(e) => ParseFrom(g, items, e, depth, steps - 1)
  }

  /** With no templates, parsing a non-empty token list fails at once. */
  lemma EmptyGrammarFailsAtStart(items: seq<Option<Token>>, depth: nat, steps: nat)
    requires |items| > 0 && steps > 0
    ensures ParseFrom([], items, 0, depth, steps) == Failed(0)
  {
  }

  /** A template that matches without consuming a token keeps `parse` at
      the same position for as many turns as it is given: the source's
      loop never ends there. */
  lemma {:induction false} ZeroWidthMatchNeverEnds(g: seq<TemplateValue>, items: seq<Option<Token>>, pos: int, depth: nat, steps: nat)
    requires pos < |items|
    requires FindIn(g, g, items, pos, None, depth) == Matched(pos)
    ensures ParseFrom(g, items, pos, depth, steps) == OutOfSteps(pos)
    decreases steps
  {
    if steps > 0 {
      ZeroWidthMatchNeverEnds(g, items, pos, depth, steps - 1);
    }
  }

  class Parser {
    /** The language's templates, read when `Parse` starts. */
    var grammar: seq<TemplateValue>
    /** The token cursor; absent until `Parse` creates it. */
    var cursor: Staccessor?<Token>
    var sRoot: Statement?
    var sCurrent: Statement?
    var sStack: seq<Statement>

    constructor ()
      ensures sStack == [] && sRoot == null && sCurrent == null && cursor == null && grammar == []
    {
      grammar := [];
      cursor := null;
      sRoot := null;
      sCurrent := null;
      sStack := [];
    }

    /** Pushes the current statement; throws when there is none. */
    method Save() returns (r: Outcome<string>)
      modifies this
      ensures r.Fail? <==> sCurrent == null
      ensures r.Fail? ==> r.error == SAVE_UNDEFINED_MESSAGE && sStack == old(sStack)
      ensures r.Pass? ==> sStack == old(sStack) + [sCurrent]
      ensures sCurrent == old(sCurrent) && sRoot == old(sRoot) && grammar == old(grammar) && cursor == old(cursor)
    {
      if sCurrent == null {
        return Fail(SAVE_UNDEFINED_MESSAGE);
      }
      sStack := sStack + [sCurrent];
      r := Pass;
    }

    /** Pops the most recent statement into `sCurrent`; an empty stack pops
        `undefined`. */
    method Restore()
      modifies this
      ensures old(sStack) == [] ==> sCurrent == null && sStack == []
      ensures old(sStack) != [] ==> sCurrent == old(sStack[|sStack| - 1]) && sStack == old(sStack[..|sStack| - 1])
      ensures sRoot == old(sRoot) && grammar == old(grammar) && cursor == old(cursor)
    {
      if sStack == [] {
        sCurrent := null;
      } else {
        sCurrent := sStack[|sStack| - 1];
        sStack := sStack[..|sStack| - 1];
      }
    }

    /** `findMatchingTemplate(id)`: `Some(found)`, or `None` when a TypeError
        escapes. On no match the cursor is back where it started; unless
        something threw, the save stack is as deep as it was. */
    method FindMatchingTemplate(id: Option<string>, fuel: nat) returns (r: Option<bool>)
      requires cursor != null
      modifies cursor, cursor.base
      ensures cursor.base.items == old(cursor.base.items)
      ensures var m := FindIn(grammar, grammar, cursor.base.items, old(cursor.base.offset), id, fuel);
        && (m.Threw? <==> r.None?)
        && (m.NoMatch? ==> r == Some(false) && cursor.base.offset == old(cursor.base.offset) && cursor.stack == old(cursor.stack))
        && (m.Matched? ==> r == Some(true) && cursor.base.offset == m.end && cursor.stack == old(cursor.stack))
      decreases fuel, 1
    {
      ghost var items, pos, stack := cursor.base.items, cursor.base.offset, cursor.stack;
      r := Some(false);
      var i := 0;
      while i < |grammar|
        invariant 0 <= i <= |grammar|
        invariant cursor.base.items == items && cursor.base.offset == pos && cursor.stack == stack
        invariant FindIn(grammar, grammar, items, pos, id, fuel) == FindIn(grammar, grammar[i..], items, pos, id, fuel)
        invariant r == Some(false)
      {
        var template := grammar[i];
        assert grammar[i..][0] == template && grammar[i..][1..] == grammar[i + 1..];
        if id.Some? && id.value != "" && id.value != template.id {
          i := i + 1;
          continue;
        }
        var _ := cursor.Save();
        var met := MeetTemplateRequirements(template.requirements, fuel);
        if met.None? {
          return None;
        }
        if met.value {
          r := Some(true);
          cursor.Discard();
          return;
        }
        var _ := cursor.Restore();
        i := i + 1;
      }
    }

    /** `meetTemplateRequirements(reqs)`: `Some(met)`, or `None` when a
        TypeError escapes. */
    method MeetTemplateRequirements(reqs: seq<RequirementValue>, fuel: nat) returns (r: Option<bool>)
      requires cursor != null
      modifies cursor, cursor.base
      ensures cursor.base.items == old(cursor.base.items)
      ensures var m := MeetReqs(grammar, cursor.base.items, reqs, old(cursor.base.offset), fuel);
        && (m.Threw? <==> r.None?)
        && (m.NoMatch? ==> r == Some(false) && cursor.stack == old(cursor.stack))
        && (m.Matched? ==> r == Some(true) && cursor.base.offset == m.end && cursor.stack == old(cursor.stack))
      decreases fuel, 0
    {
      ghost var items, pos, stack := cursor.base.items, cursor.base.offset, cursor.stack;
      var j := 0;
      while j < |reqs|
        invariant 0 <= j <= |reqs|
        invariant cursor.base.items == items && cursor.stack == stack
        invariant MeetReqs(grammar, items, reqs, pos, fuel) == MeetReqs(grammar, items, reqs[j..], cursor.base.offset, fuel)
      {
        var requirement := reqs[j];
        assert reqs[j..][0] == requirement && reqs[j..][1..] == reqs[j + 1..];
        if requirement.kind == Some(OfToken) {
          var token := cursor.base.Next();
          var ok := TokenMeetRequirement(token, requirement);
          if ok.None? {
            return None;
          }
          if !ok.value {
            return Some(false);
          }
        } else if requirement.kind == Some(OfStatement) {
          if fuel == 0 {
            return Some(false);
          }
          r := FindMatchingTemplate(requirement.statementId, fuel - 1);
          return;
        }
        j := j + 1;
      }
      r := Some(true);
    }

    /** `parse(lang, tokens)`: reads the language, puts a copy of the tokens
        under a new cursor and matches templates until the tokens run out
        or no template matches. */
    method Parse(lang: Language, tokens: array<Token>, depth: nat, steps: nat) returns (o: ParseOutcome)
      modifies this
      ensures grammar == old(lang.Snapshot())
      ensures cursor != null && fresh(cursor) && fresh(cursor.base) && cursor.base.items == Copy(tokens[..])
      ensures o == ParseFrom(grammar, Copy(tokens[..]), 0, depth, steps)
      ensures o.Finished? || o.Failed? || o.OutOfSteps? ==> cursor.base.offset == o.pos
      ensures sRoot == old(sRoot) && sCurrent == old(sCurrent) && sStack == old(sStack)
    {
      grammar := lang.Snapshot();
      ghost var g := grammar;
      var c := new Staccessor<Token>(0);
      var _ := c.base.SetItems(tokens);
      cursor := c;
      ghost var items := c.base.items;
      var n := steps;
      while c.base.HasNext()
        invariant cursor == c && grammar == g
        invariant fresh(c) && fresh(c.base) && c.base.items == items && c.stack == []
        invariant ParseFrom(grammar, items, 0, depth, steps) == ParseFrom(grammar, items, c.base.offset, depth, n)
        invariant sRoot == old(sRoot) && sCurrent == old(sCurrent) && sStack == old(sStack)
        decreases n
      {
        if n == 0 {
          return OutOfSteps(c.base.offset);
        }
        n := n - 1;
        var found := FindMatchingTemplate(None, depth);
        if found.None? {
          return Crashed;
        }
        if !found.value {
          return Failed(c.base.offset);
        }
      }
      o := Finished(c.base.offset);
    }
  }
}

/** The earlier statement model (src/parser/statement.ts): a statement with
    a type tag, and a template holding an ordered list of expression
    templates that may repeat. src/parser/expression.ts is not part of this
    model; an expression template is an object with no state of its own. */
module LegacyStatements {
  import opened Wrappers

  /** What `removeExpressionTemplate` throws for an item not in the list.
      The item renders as `[object Object]`, which assumes expression
      templates define no `toString` of their own. */
  const REMOVE_MISSING_MESSAGE: string := "Cannot remove expression template [object Object] as it wasn't added/already removed"

  class ExpressionTemplate {
    constructor () {}
  }

  class Statement {
    /** `type`, a Dafny keyword, is `kind`. */
    var kind: string

    constructor ()
      ensures kind == "error"
    {
      kind := "error";
    }

    method SetType(t: string) returns (self: Statement)
      modifies this
      ensures self == this && kind == t
    {
      kind := t;
      self := this;
    }

    function GetType(): string
      reads this
    {
      kind
    }
  }

  /** `Array.prototype.indexOf`: the first position holding `x`, or -1. */
  function IndexOf<T(==)>(xs: seq<T>, x: T): (k: int)
    ensures k == -1 <==> x !in xs
    ensures k != -1 ==> 0 <= k < |xs| && xs[k] == x && x !in xs[..k]
  {
    if xs == [] then -1
    else if xs[0] == x then 0
    else
      var k := IndexOf(xs[1..], x);
      if k == -1 then -1
      else
        assert xs[..k + 1] == [xs[0]] + xs[1..][..k];
        k + 1
  }

  /** `splice(indexOf(x), 1)` on a list holding `x`: the first copy of
      `x` goes, everything before and after it stays in place. */
  function RemoveFirst<T(==)>(xs: seq<T>, x: T): (r: seq<T>)
    requires x in xs
    ensures exists k :: 0 <= k < |xs| && xs[k] == x && x !in xs[..k] && r == xs[..k] + xs[k + 1..]
  {
    var k := IndexOf(xs, x);
    xs[..k] + xs[k + 1..]
  }

  /** Removing takes exactly one copy of `x` away and keeps the others in
      their order. */
  lemma RemoveFirstTakesOneCopy<T>(xs: seq<T>, x: T)
    requires x in xs
    ensures multiset(RemoveFirst(xs, x)) == multiset(xs) - multiset{x}
    ensures |RemoveFirst(xs, x)| == |xs| - 1
  {
    var k := IndexOf(xs, x);
    assert xs == xs[..k] + [x] + xs[k + 1..];
    assert multiset(xs) == multiset(xs[..k]) + multiset{x} + multiset(xs[k + 1..]);
  }

  /** The first occurrence in a concatenation is in the left part when
      there is one there. */
  lemma {:induction false} IndexOfAppend<T>(xs: seq<T>, ys: seq<T>, x: T)
    ensures x in xs ==> IndexOf(xs + ys, x) == IndexOf(xs, x)
    ensures x !in xs && x in ys ==> IndexOf(xs + ys, x) == |xs| + IndexOf(ys, x)
  {
    if xs != [] {
      assert (xs + ys)[0] == xs[0];
      assert (xs + ys)[1..] == xs[1..] + ys;
      IndexOfAppend(xs[1..], ys, x);
      assert x in xs && xs[0] != x ==> x in xs[1..];
    } else {
      assert xs + ys == ys;
    }
  }

  /** Appending `x` and then removing it gives the list back when `x` was
      not in it; when it was, the removal takes the earlier copy and the
      appended one stays at the end. */
  lemma RemoveAfterAppend<T>(xs: seq<T>, x: T)
    ensures x !in xs ==> RemoveFirst(xs + [x], x) == xs
    ensures x in xs ==> RemoveFirst(xs + [x], x) == RemoveFirst(xs, x) + [x]
  {
    var ys := xs + [x];
    IndexOfAppend(xs, [x], x);
    if x !in xs {
      assert ys[..|xs|] == xs;
    } else {
      var k := IndexOf(xs, x);
      assert ys[..k] == xs[..k];
      assert ys[k + 1..] == xs[k + 1..] + [x];
    }
  }

  class StatementTemplate {
    var etemps: seq<ExpressionTemplate>

    constructor ()
      ensures etemps == []
    {
      etemps := [];
    }

    /** Unfinished in the source: always a new statement of type "error".
        The token cursor it is given is unused and left out. */
    method Parse() returns (s: Statement)
      ensures fresh(s) && s.kind == "error"
    {
      s := new Statement();
    }

    function HasExpressionTemplate(exp: ExpressionTemplate): bool
      reads this
    {
      exp in etemps
    }

    /** Appends even an item already present. */
    method AddExpressionTemplate(exp: ExpressionTemplate) returns (self: StatementTemplate)
      modifies this
      ensures self == this && etemps == old(etemps) + [exp]
    {
      etemps := etemps + [exp];
      self := this;
    }

    /** Removes the first occurrence only; throws and changes nothing when
        the item is absent. */
    method RemoveExpressionTemplate(exp: ExpressionTemplate) returns (r: Outcome<string>)
      modifies this
      ensures r.Fail? <==> exp !in old(etemps)
      ensures r.Fail? ==> etemps == old(etemps)
      ensures r.Fail? ==> r.error == REMOVE_MISSING_MESSAGE
      ensures r.Pass? ==> etemps == RemoveFirst(old(etemps), exp)
    {
      var ind := IndexOf(etemps, exp);
      if ind != -1 {
        assert etemps[..ind] + etemps[ind + 1..] == RemoveFirst(etemps, exp);
        etemps := etemps[..ind] + etemps[ind + 1..];
      } else {
        return Fail(REMOVE_MISSING_MESSAGE);
      }
      r := Pass;
    }

    /** Appends a fresh expression template and returns it. */
    method CreateExpressionTemplate() returns (t: ExpressionTemplate)
      modifies this
      ensures fresh(t) && etemps == old(etemps) + [t]
    {
      t := new ExpressionTemplate();
      var _ := AddExpressionTemplate(t);
    }
  }
}

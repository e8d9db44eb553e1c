/** The scanner engine (src/tokenizer/scanner.ts): an insertion-ordered
    table of named passes, tried in order; the first that succeeds emits a
    token and moves the offset and line counter forward. */
module Scanning {
  import opened Wrappers
  import opened JsStrings
  import opened Tokens

  /** What a pass reports. The source's optional `token` field is never
      read by the scanner and is left out. */
  datatype ScannerData = ScannerData(success: bool, readChars: nat, readLines: nat, error: Option<string>)

  /** A pass is a function of the text and the offset. */
  type Pass = (string, nat) -> ScannerData

  /** The pass table: a JavaScript Map iterates in insertion order, so it is
      a sequence of (name, pass) entries with distinct names. */
  type PassTable = seq<(string, Pass)>

  function Names(ps: PassTable): (ns: seq<string>)
    ensures |ns| == |ps|
    ensures forall i :: 0 <= i < |ps| ==> ns[i] == ps[i].0
  {
    seq(|ps|, i requires 0 <= i < |ps| => ps[i].0)
  }

  predicate DistinctNames(ps: PassTable) {
    forall i, j :: 0 <= i < j < |ps| ==> ps[i].0 != ps[j].0
  }

  /** Position of `name` in the table. */
  function IndexOf(ps: PassTable, name: string): (k: nat)
    requires name in Names(ps)
    ensures k < |ps| && ps[k].0 == name
    ensures forall j :: 0 <= j < k ==> ps[j].0 != name
  {
    if ps[0].0 == name then 0 else 1 + IndexOf(ps[1..], name)
  }

  /** `Map.set(name, pass)`: an existing name keeps its position and gets the
      new pass; a new name is appended at the end. Every other entry stays. */
  function SetEntry(ps: PassTable, name: string, pass: Pass): (r: PassTable)
    ensures name in Names(ps) ==> |r| == |ps| && r[IndexOf(ps, name)] == (name, pass)
    ensures name !in Names(ps) ==> |r| == |ps| + 1 && r[|ps|] == (name, pass)
    ensures forall i :: 0 <= i < |ps| && ps[i].0 != name ==> r[i] == ps[i]
  {
    if name in Names(ps) then ps[IndexOf(ps, name) := (name, pass)] else ps + [(name, pass)]
  }

  /** `Map.delete(name)` on a present name: the entry goes, the entries
      before it stay where they are and those after it move up by one. */
  function RemoveEntry(ps: PassTable, name: string): (r: PassTable)
    requires name in Names(ps)
    ensures |r| == |ps| - 1
    ensures forall i :: 0 <= i < IndexOf(ps, name) ==> r[i] == ps[i]
    ensures forall i :: IndexOf(ps, name) <= i < |r| ==> r[i] == ps[i + 1]
  {
    var k := IndexOf(ps, name);
    ps[..k] + ps[k + 1..]
  }

  lemma {:induction false} SetEntryKeepsNamesDistinct(ps: PassTable, name: string, pass: Pass)
    requires DistinctNames(ps)
    ensures DistinctNames(SetEntry(ps, name, pass))
    ensures Names(SetEntry(ps, name, pass)) == if name in Names(ps) then Names(ps) else Names(ps) + [name]
  {
    var r := SetEntry(ps, name, pass);
    if name in Names(ps) {
      var k := IndexOf(ps, name);
      assert forall i :: 0 <= i < |ps| ==> r[i].0 == ps[i].0;
    } else {
      assert forall i :: 0 <= i < |ps| ==> ps[i].0 == Names(ps)[i];
    }
  }

  lemma RemoveEntryKeepsOthers(ps: PassTable, name: string)
    requires DistinctNames(ps) && name in Names(ps)
    ensures DistinctNames(RemoveEntry(ps, name))
    ensures name !in Names(RemoveEntry(ps, name))
    ensures forall n :: n != name ==> (n in Names(RemoveEntry(ps, name)) <==> n in Names(ps))
  {
    RemoveEntryKeepsDistinct(ps, name);
    RemoveEntryDropsName(ps, name);
    forall n | n != name
      ensures n in Names(RemoveEntry(ps, name)) <==> n in Names(ps)
    {
      RemoveEntryKeepsName(ps, name, n);
    }
  }

  lemma RemoveEntryKeepsDistinct(ps: PassTable, name: string)
    requires DistinctNames(ps) && name in Names(ps)
    ensures DistinctNames(RemoveEntry(ps, name))
  {
    var k, r := IndexOf(ps, name), RemoveEntry(ps, name);
    forall i, j | 0 <= i < j < |r|
      ensures r[i].0 != r[j].0
    {
      var i', j' := if i < k then i else i + 1, if j < k then j else j + 1;
      assert r[i] == ps[i'] && r[j] == ps[j'];
    }
  }

  lemma RemoveEntryDropsName(ps: PassTable, name: string)
    requires DistinctNames(ps) && name in Names(ps)
    ensures name !in Names(RemoveEntry(ps, name))
  {
    var k, r := IndexOf(ps, name), RemoveEntry(ps, name);
    forall i | 0 <= i < |r|
      ensures r[i].0 != name
    {
      var i' := if i < k then i else i + 1;
      assert r[i] == ps[i'];
    }
  }

  lemma RemoveEntryKeepsName(ps: PassTable, name: string, n: string)
    requires name in Names(ps) && n != name
    ensures n in Names(RemoveEntry(ps, name)) <==> n in Names(ps)
  {
    if n in Names(ps) {
      KeptNameRemains(ps, name, n);
    }
    if n in Names(RemoveEntry(ps, name)) {
      RemainingNameWasThere(ps, name, n);
    }
  }

  lemma KeptNameRemains(ps: PassTable, name: string, n: string)
    requires name in Names(ps) && n != name && n in Names(ps)
    ensures n in Names(RemoveEntry(ps, name))
  {
    var k, r := IndexOf(ps, name), RemoveEntry(ps, name);
    var i :| 0 <= i < |ps| && Names(ps)[i] == n;
    var i' := if i < k then i else i - 1;
    assert r[i'] == ps[i];
    assert Names(r)[i'] == n;
  }

  lemma RemainingNameWasThere(ps: PassTable, name: string, n: string)
    requires name in Names(ps) && n in Names(RemoveEntry(ps, name))
    ensures n in Names(ps)
  {
    var k, r := IndexOf(ps, name), RemoveEntry(ps, name);
    var i :| 0 <= i < |r| && Names(r)[i] == n;
    var i' := if i < k then i else i + 1;
    assert r[i] == ps[i'];
    assert Names(ps)[i'] == n;
  }

  /** Index of the first pass, in table order, that succeeds at `offset`. */
  function FirstMatch(ps: PassTable, data: string, offset: nat): (k: Option<nat>)
    ensures k.Some? ==> k.value < |ps| && ps[k.value].1(data, offset).success
    ensures k.Some? ==> forall j :: 0 <= j < k.value ==> !ps[j].1(data, offset).success
    ensures k.None? ==> forall j :: 0 <= j < |ps| ==> !ps[j].1(data, offset).success
  {
    if ps == [] then None
    else if ps[0].1(data, offset).success then Some(0)
    else match FirstMatch(ps[1..], data, offset)
      case None => None
      case Some(k) => Some(k + 1)
  }

  /** The diagnostic carried by the error token: it opens with a quote and
      the next six characters of the text (fewer near the end, none past
      it), followed by `..."`. */
  function ErrorMessage(data: string, offset: nat, readLines: nat, readLineChars: nat): (r: string)
    ensures |r| >= 11 && r[..1] == "\""
    ensures offset + 6 <= |data| ==> r[1..7] == data[offset..offset + 6] && r[7..11] == "...\""
    ensures offset >= |data| ==> r[..5] == "\"...\""
  {
    "\"" + Substring(data, offset, offset + 6) + "...\""
    + (" at line " + NatToString(readLines) + " char " + NatToString(readLineChars) + " could not be parsed")
  }

  /** One scan step: the token `next()` emits, and the new offset and line counter. */
  datatype Step = Step(token: Token, offset: nat, readLines: nat)

  /** What `next()` does with the text set: the first succeeding pass
      names the token, or an error token is made. The counters never move
      back, and exactly the tokens made by a pass carry a line stamp. */
  function NextStep(ps: PassTable, data: string, offset: nat, readLines: nat, readLineChars: nat): (s: Step)
    ensures offset <= s.offset && readLines <= s.readLines
    ensures FirstMatch(ps, data, offset).None? <==> s.token.line.None?
  {
    match FirstMatch(ps, data, offset)
    case None => Step(Token("error", Some(ErrorMessage(data, offset, readLines, readLineChars)), None, None), offset, readLines)
    case Some(k) =>
      var pd := ps[k].1(data, offset);
      Step(Token(ps[k].0, Some(Substring(data, offset, offset + pd.readChars)), Some(readLines + pd.readLines), None),
           offset + pd.readChars, readLines + pd.readLines)
  }

  /** What `next()` promises: the first succeeding pass names the token, its
      data is the consumed slice and both counters move by what the pass
      read; with no succeeding pass the token is "error" and nothing moves. */
  lemma NextStepFirstMatchWins(ps: PassTable, data: string, offset: nat, readLines: nat, readLineChars: nat)
    ensures var s := NextStep(ps, data, offset, readLines, readLineChars);
      match FirstMatch(ps, data, offset)
      case None =>
        s.token.kind == "error" && s.offset == offset && s.readLines == readLines
      case Some(k) =>
        var pd := ps[k].1(data, offset);
        && s.token.kind == ps[k].0
        && (offset + pd.readChars <= |data| ==> s.token.data == Some(data[offset..offset + pd.readChars]))
        && s.offset == offset + pd.readChars
        && s.readLines == readLines + pd.readLines
        && s.token.line == Some(s.readLines)
  {
  }

  /** A pass that, whenever it succeeds before the end of the text,
      consumes at least one character: what the tokenizer's loop needs to
      end. */
  ghost predicate Advances(p: Pass) {
    forall data: string, offset: nat :: offset < |data| && p(data, offset).success ==>
      1 <= p(data, offset).readChars
  }

  /** A pass that, whenever it succeeds before the end of the text, reads
      no more than the remaining characters. */
  ghost predicate StaysInside(p: Pass) {
    forall data: string, offset: nat :: offset < |data| && p(data, offset).success ==>
      p(data, offset).readChars <= |data| - offset
  }

  /** Every pass of the table makes progress. */
  ghost predicate AllAdvance(ps: PassTable) {
    forall i :: 0 <= i < |ps| ==> Advances(ps[i].1)
  }

  /** Every pass of the table makes progress and stays within the text. */
  ghost predicate WellBehaved(ps: PassTable) {
    && AllAdvance(ps)
    && forall i :: 0 <= i < |ps| ==> StaysInside(ps[i].1)
  }

  const NO_DATA_MESSAGE: string := "No data assigned, cannot get next token"

  class Scanner {
    var passes: PassTable
    var data: Option<string>
    var offset: nat
    var readLines: nat
    var readLineChars: nat

    /** The table's names are distinct, as a Map's keys are. */
    ghost predicate Valid()
      reads this
    {
      DistinctNames(passes)
    }

    constructor ()
      ensures Valid()
      ensures passes == [] && data == None && offset == 0 && readLines == 0 && readLineChars == 0
    {
      passes := [];
      data := None;
      offset := 0;
      readLines := 0;
      readLineChars := 0;
    }

    function HasPass(name: string): bool
      reads this
    {
      name in Names(passes)
    }

    /** Throws when the name is taken; otherwise the same as `SetPass`. */
    method AddPass(name: string, pass: Pass) returns (r: Outcome<string>)
      requires Valid()
      modifies this
      ensures Valid()
      ensures r.Fail? <==> name in Names(old(passes))
      ensures r.Fail? ==> passes == old(passes)
      ensures r.Fail? ==> r.error == "Already added pass, did you mean to override \"" + name + "\" using setPass instead?"
      ensures r.Pass? ==> passes == SetEntry(old(passes), name, pass) && passes == old(passes) + [(name, pass)]
      ensures data == old(data) && offset == old(offset) && readLines == old(readLines)
      ensures readLineChars == old(readLineChars)
    {
      if HasPass(name) {
        return Fail("Already added pass, did you mean to override \"" + name + "\" using setPass instead?");
      }
      SetPass(name, pass);
      r := Pass;
    }

    /** Upsert: a new name goes to the end, an existing one keeps its place. */
    method SetPass(name: string, pass: Pass)
      requires Valid()
      modifies this
      ensures Valid()
      ensures passes == SetEntry(old(passes), name, pass)
      ensures Names(passes) == if name in Names(old(passes)) then Names(old(passes)) else Names(old(passes)) + [name]
      ensures data == old(data) && offset == old(offset) && readLines == old(readLines)
      ensures readLineChars == old(readLineChars)
    {
      SetEntryKeepsNamesDistinct(passes, name, pass);
      passes := SetEntry(passes, name, pass);
    }

    /** Throws for an absent name; otherwise removes only that entry. */
    method RemovePass(name: string) returns (r: Outcome<string>)
      requires Valid()
      modifies this
      ensures Valid()
      ensures r.Fail? <==> name !in Names(old(passes))
      ensures r.Fail? ==> passes == old(passes)
      ensures r.Fail? ==> r.error == "Cannot remove pass \"" + name + "\" as it isn't added currently"
      ensures r.Pass? ==> passes == RemoveEntry(old(passes), name) && name !in Names(passes)
      ensures data == old(data) && offset == old(offset) && readLines == old(readLines)
      ensures readLineChars == old(readLineChars)
    {
      if !HasPass(name) {
        return Fail("Cannot remove pass \"" + name + "\" as it isn't added currently");
      }
      RemoveEntryKeepsOthers(passes, name);
      passes := RemoveEntry(passes, name);
      r := Pass;
    }

    /** Replaces the text; the offset and the line counter are NOT reset. */
    method SetData(d: string)
      modifies this
      ensures data == Some(d)
      ensures passes == old(passes) && offset == old(offset) && readLines == old(readLines)
      ensures readLineChars == old(readLineChars)
    {
      data := Some(d);
    }

    function HasData(): bool
      reads this
    {
      data.Some?
    }

    /** Characters left to scan; negative once the offset is past the end. */
    function Available(): (n: int)
      reads this
      requires HasData()
    {
      |data.value| - offset
    }

    /** Emits the next token. Passes are called in table order and the loop
        stops calling them at the first success (`invoked` counts the calls).
        Throws when no text is set. */
    method Next() returns (r: Result<Token, string>, ghost invoked: nat)
      modifies this
      ensures passes == old(passes) && data == old(data) && readLineChars == old(readLineChars)
      ensures old(data).None? ==> r == Err(NO_DATA_MESSAGE) && offset == old(offset) && readLines == old(readLines)
      ensures old(data).Some? ==>
        var s := NextStep(passes, data.value, old(offset), old(readLines), readLineChars);
        r == Ok(s.token) && offset == s.offset && readLines == s.readLines
      ensures old(data).Some? ==>
        invoked == match FirstMatch(passes, data.value, old(offset)) case Some(k) => k + 1 case None => |passes|
    {
      invoked := 0;
      if !HasData() {
        return Err(NO_DATA_MESSAGE), invoked;
      }
      var d := data.value;
      ghost var offset0, lines0 := offset, readLines;
      var result := NewToken(TYPE_EOF);
      if offset > |d| - 1 {
        // Built here but always overwritten below.
        result := NewToken(TYPE_EOF);
      }
      var breakPassLoop := false;
      ghost var winner: nat := 0;
      var i := 0;
      while i < |passes|
        invariant 0 <= i <= |passes|
        invariant passes == old(passes) && data == old(data) && readLineChars == old(readLineChars)
        invariant !breakPassLoop ==> offset == offset0 && readLines == lines0 && invoked == i
        invariant !breakPassLoop ==> forall j :: 0 <= j < i ==> !passes[j].1(d, offset0).success
        invariant breakPassLoop ==> FirstMatch(passes, d, offset0) == Some(winner) && invoked == winner + 1
        invariant breakPassLoop ==> NextStep(passes, d, offset0, lines0, readLineChars) == Step(result, offset, readLines)
      {
        if !breakPassLoop {
          var passData := passes[i].1(d, offset);
          invoked := invoked + 1;
          if passData.success {
            result := Token(passes[i].0, Some(Substring(d, offset, offset + passData.readChars)), None, None);
            offset := offset + passData.readChars;
            readLines := readLines + passData.readLines;
            result := result.(line := Some(readLines));
            breakPassLoop := true;
            winner := i;
            assert FirstMatch(passes, d, offset0) == Some(i) by {
              FirstMatchAt(passes, d, offset0, i);
            }
            assert NextStep(passes, d, offset0, lines0, readLineChars) == Step(result, offset, readLines);
          }
        }
        i := i + 1;
      }
      if !breakPassLoop {
        assert FirstMatch(passes, d, offset0) == None by {
          FirstMatchNone(passes, d, offset0);
        }
        result := Token("error", Some(ErrorMessage(d, offset, readLines, readLineChars)), None, None);
        assert NextStep(passes, d, offset0, lines0, readLineChars) == Step(result, offset, readLines);
      }
      r := Ok(result);
    }
  }

  lemma {:induction false} FirstMatchAt(ps: PassTable, data: string, offset: nat, i: nat)
    requires i < |ps| && ps[i].1(data, offset).success
    requires forall j :: 0 <= j < i ==> !ps[j].1(data, offset).success
    ensures FirstMatch(ps, data, offset) == Some(i)
  {
    if i > 0 {
      FirstMatchAt(ps[1..], data, offset, i - 1);
    }
  }

  lemma {:induction false} FirstMatchNone(ps: PassTable, data: string, offset: nat)
    requires forall j :: 0 <= j < |ps| ==> !ps[j].1(data, offset).success
    ensures FirstMatch(ps, data, offset) == None
  {
    if ps != [] {
      FirstMatchNone(ps[1..], data, offset);
    }
  }
}

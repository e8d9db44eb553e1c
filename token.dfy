/** Tokens produced by the scanner (src/tokenizer/token.ts). */
module Tokens {
  import opened Wrappers

  /** A token: its type tag (`kind`, since `type` is a Dafny keyword), the matched text (absent until assigned), and
      the line counter stamped on it by the scanner. `lineChar` is declared
      by the source but never assigned anywhere in the core. */
  datatype Token = Token(kind: string, data: Option<string>, line: Option<nat>, lineChar: Option<nat>)

  /** Standard type tags. */
  const TYPE_WHITESPACE: string := "whsp"
  const TYPE_EOF: string := "eof"
  const TYPE_IDENTIFIER: string := "iden"
  const TYPE_NUMBER_LITERAL: string := "numl"
  const TYPE_STRING_LITERAL: string := "strl"
  const TYPE_TERMINATOR: string := "term"
  const TYPE_OPERATOR: string := "oper"

  /** `new Token(type)`: only the type tag is set. */
  function NewToken(kind: string): (tok: Token)
    ensures tok.kind == kind
    ensures tok.data == None && tok.line == None && tok.lineChar == None
  {
    Token(kind, None, None, None)
  }

  /** `token.is(type?, data?)`: every argument that is supplied must match
      the corresponding field; an omitted argument matches anything. */
  function Is(tok: Token, kind: Option<string>, data: Option<string>): (r: bool)
    ensures r <==> (kind.None? || tok.kind == kind.value) && (data.None? || tok.data == Some(data.value))
  {
    var result := true;
    var result := if kind.Some? && tok.kind != kind.value then false else result;
    var result := if data.Some? && tok.data != Some(data.value) then false else result;
    result
  }

  /** With both arguments omitted, every token matches. */
  lemma IsWithoutArguments(tok: Token)
    ensures Is(tok, None, None)
  {
  }

  /** With only a type, the match is exactly a type comparison. */
  lemma IsTypeOnly(tok: Token, kind: string)
    ensures Is(tok, Some(kind), None) <==> tok.kind == kind
  {
  }

  /** A mismatching supplied argument forces false, whatever the other one is. */
  lemma IsMismatchForcesFalse(tok: Token, kind: Option<string>, data: Option<string>)
    requires (kind.Some? && tok.kind != kind.value) || (data.Some? && tok.data != Some(data.value))
    ensures !Is(tok, kind, data)
  {
  }

  /** The standard tags are pairwise distinct. */
  lemma StandardTagsDistinct()
    ensures var tags := [TYPE_WHITESPACE, TYPE_EOF, TYPE_IDENTIFIER, TYPE_NUMBER_LITERAL,
                         TYPE_STRING_LITERAL, TYPE_TERMINATOR, TYPE_OPERATOR];
            forall i, j :: 0 <= i < j < |tags| ==> tags[i] != tags[j]
  {
  }
}

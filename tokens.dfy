/**
 * The vocabulary of the `parser` package: lexical tokens, the generic
 * declaration tree (`Decl`) that every grammar routine builds, and the
 * instruction that a parsed statement becomes.
 */
module ParserTypes {

  /** Token kinds that the CREATE TABLE grammar and the table code look at.
      Every other kind the lexer produces is an `OtherToken`. */
  datatype Kind =
    | CreateToken | TableToken
    | IfToken | NotToken | ExistsToken | NullToken
    | PrimaryToken | KeyToken | UniqueToken | AutoincrementToken
    | WithToken | TimeToken | ZoneToken
    | DefaultToken | FalseToken | StringToken | NumberToken | LocalTimestampToken
    | BracketOpeningToken | BracketClosingToken | CommaToken
    | AsToken
    | OtherToken(code: nat)

  /** A lexical token: its kind and the text it was read from. */
  datatype Token = Token(kind: Kind, lexeme: string)

  /** A node of the declaration tree; the order of `children` is grammar order. */
  datatype Decl = Decl(kind: Kind, lexeme: string, children: seq<Decl>)

  /** A parsed statement: its top-level declarations. */
  datatype Instruction = Instruction(decls: seq<Decl>)

  /** `NewDecl`: a childless node for a token. */
  function NewDecl(t: Token): Decl {
    Decl(t.kind, t.lexeme, [])
  }

  /** `Decl.Add`: the node with one more child, appended last. */
  function Add(d: Decl, child: Decl): Decl {
    d.(children := d.children + [child])
  }

  /** ASCII lower-casing of one character. */
  function LowerChar(c: char): char {
    if 'A' <= c <= 'Z' then (c as int + 32) as char else c
  }

  /** `strings.ToLower`, restricted to ASCII letters. */
  function Lower(s: string): (r: string)
    ensures |r| == |s|
  {
    seq(|s|, i requires 0 <= i < |s| => LowerChar(s[i]))
  }
}

/**
 * How a declaration tree of the CREATE TABLE grammar is spelled out in
 * tokens: each node is the token it was built from, children follow their
 * parent, columns are separated by commas and the column list is closed by
 * `)`.  The predicates say, token by token, that a tree is spelled out from
 * a given position; the length functions say how many tokens that takes.
 */
module CreateSpelling {
  import opened ParserTypes
  import opened CreateGrammar

  /** The token a node was built from. */
  function Tok(d: Decl): Token {
    Token(d.kind, d.lexeme)
  }

  // ---------------------------------------------------------------------------
  // Lengths

  /** A node, its first child and its first grandchild: how an IF chain, a
      WITH TIME ZONE chain or a constraint is spelled. */
  function ChainLen(d: Decl): nat {
    if d.children == [] then 1 else if d.children[0].children == [] then 2 else 3
  }

  function ChainsLen(ds: seq<Decl>): nat {
    if ds == [] then 0 else ChainLen(ds[0]) + ChainsLen(ds[1..])
  }

  /** A column: its name, its type, the type's chains, then its constraints. */
  function ColumnLen(col: Decl): nat {
    if col.children == [] then 1
    else 2 + ChainsLen(col.children[0].children) + ChainsLen(col.children[1..])
  }

  /** Columns separated by commas. */
  function ColumnsLen(cols: seq<Decl>): nat {
    if cols == [] then 0
    else if |cols| == 1 then ColumnLen(cols[0])
    else ColumnLen(cols[0]) + 1 + ColumnsLen(cols[1..])
  }

  /** What follows TABLE: the IF chain if any, the table name and `(`. */
  function HeadLen(t: Decl): nat {
    (if IfCount(t) == 1 then ChainLen(t.children[0]) else 0) + 2
  }

  /** The column definitions of a table declaration: the children after its name. */
  function TableColumns(t: Decl): seq<Decl> {
    if |t.children| > IfCount(t) then t.children[IfCount(t) + 1..] else []
  }

  /** TABLE, its head, its columns and the closing `)`. */
  function TableLen(t: Decl): nat {
    1 + HeadLen(t) + ColumnsLen(TableColumns(t)) + 1
  }

  // ---------------------------------------------------------------------------
  // Spelled out from a position

  predicate ChainAt(toks: seq<Token>, pos: nat, d: Decl) {
    && pos + ChainLen(d) <= |toks|
    && toks[pos] == Tok(d)
    && (d.children != [] ==> toks[pos + 1] == Tok(d.children[0]))
    && (d.children != [] && d.children[0].children != [] ==> toks[pos + 2] == Tok(d.children[0].children[0]))
  }

  predicate ChainsAt(toks: seq<Token>, pos: nat, ds: seq<Decl>)
    decreases ds
  {
    ds == [] || (ChainAt(toks, pos, ds[0]) && ChainsAt(toks, pos + ChainLen(ds[0]), ds[1..]))
  }

  predicate ColumnAt(toks: seq<Token>, pos: nat, col: Decl) {
    && pos < |toks| && toks[pos] == Tok(col)
    && (col.children != [] ==>
          && pos + 1 < |toks| && toks[pos + 1] == Tok(col.children[0])
          && ChainsAt(toks, pos + 2, col.children[0].children)
          && ChainsAt(toks, pos + 2 + ChainsLen(col.children[0].children), col.children[1..]))
  }

  predicate ColumnsAt(toks: seq<Token>, pos: nat, cols: seq<Decl>)
    decreases cols
  {
    || cols == []
    || (&& ColumnAt(toks, pos, cols[0])
        && (|cols| > 1 ==>
              && pos + ColumnLen(cols[0]) < |toks|
              && toks[pos + ColumnLen(cols[0])].kind == CommaToken
              && ColumnsAt(toks, pos + ColumnLen(cols[0]) + 1, cols[1..])))
  }

  predicate HeadAt(toks: seq<Token>, pos: nat, t: Decl) {
    var k := IfCount(t);
    var q := pos + HeadLen(t) - 2;
    && |t.children| > k
    && (k == 1 ==> ChainAt(toks, pos, t.children[0]))
    && q + 1 < |toks| && toks[q] == Tok(t.children[k]) && toks[q + 1].kind == BracketOpeningToken
  }

  predicate TableAt(toks: seq<Token>, pos: nat, t: Decl) {
    var cols := pos + 1 + HeadLen(t);
    && |t.children| > IfCount(t)
    && pos < |toks| && toks[pos] == Tok(t)
    && HeadAt(toks, pos + 1, t)
    && ColumnsAt(toks, cols, TableColumns(t))
    && cols + ColumnsLen(TableColumns(t)) < |toks|
    && toks[cols + ColumnsLen(TableColumns(t))].kind == BracketClosingToken
  }

  /** `ins` is spelled out from `pos` on: CREATE, then its table. */
  predicate InstructionAt(toks: seq<Token>, pos: nat, ins: Instruction) {
    && |ins.decls| > 0 && |ins.decls[0].children| > 0
    && pos < |toks| && toks[pos] == Tok(ins.decls[0])
    && TableAt(toks, pos + 1, ins.decls[0].children[0])
  }
}

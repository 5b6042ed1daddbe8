/**
 * The grammar reads back every tree it can build: wherever a declaration
 * tree of the right shape is spelled out in a token sequence, the CREATE
 * TABLE grammar parses exactly that tree from it and stops right after it.
 * Together with `GrammarShapes`, which proves that every parsed tree has that
 * shape, this pins down what the parser builds from what it reads.
 */
module CreateRoundTrip {
  import opened ParserTypes
  import opened CreateGrammar
  import opened CreateSpelling

  // ---------------------------------------------------------------------------
  // The shape predicates restated one list element at a time, which is how
  // the proofs below walk the lists

  predicate AllConstraints(cs: seq<Decl>)
    decreases cs
  {
    cs == [] || (IsConstraint(cs[0]) && AllConstraints(cs[1..]))
  }

  predicate AllWithChains(ws: seq<Decl>)
    decreases ws
  {
    ws == [] || (IsWithChain(ws[0]) && AllWithChains(ws[1..]))
  }

  predicate ColumnForm(col: Decl) {
    && col.kind == StringToken && |col.children| >= 1
    && col.children[0].kind == StringToken
    && AllWithChains(col.children[0].children)
    && (col.children[0].children != [] ==> IsTimestamp(col.children[0].lexeme))
    && AllConstraints(col.children[1..])
  }

  predicate AllColumns(cols: seq<Decl>)
    decreases cols
  {
    cols == [] || (ColumnForm(cols[0]) && AllColumns(cols[1..]))
  }

  predicate TableForm(t: Decl) {
    var k := IfCount(t);
    && t.kind == TableToken && |t.children| > k
    && (k == 1 ==> IsIfChain(t.children[0]))
    && IsLeaf(t.children[k], StringToken)
    && AllColumns(TableColumns(t))
  }

  lemma {:induction false} AllConstraintsOf(cs: seq<Decl>)
    requires forall i | 0 <= i < |cs| :: IsConstraint(cs[i])
    decreases cs
    ensures AllConstraints(cs)
  {
    if cs != [] {
      assert forall i | 0 <= i < |cs[1..]| :: cs[1..][i] == cs[i + 1];
      AllConstraintsOf(cs[1..]);
    }
  }

  lemma {:induction false} AllWithChainsOf(ws: seq<Decl>)
    requires forall i | 0 <= i < |ws| :: IsWithChain(ws[i])
    decreases ws
    ensures AllWithChains(ws)
  {
    if ws != [] {
      assert forall i | 0 <= i < |ws[1..]| :: ws[1..][i] == ws[i + 1];
      AllWithChainsOf(ws[1..]);
    }
  }

  lemma ColumnFormOf(col: Decl)
    requires IsColumn(col)
    ensures ColumnForm(col)
  {
    var more := col.children[1..];
    assert forall i | 0 <= i < |more| :: more[i] == col.children[i + 1];
    AllConstraintsOf(more);
    AllWithChainsOf(col.children[0].children);
  }

  lemma {:induction false} AllColumnsOf(cols: seq<Decl>)
    requires forall i | 0 <= i < |cols| :: IsColumn(cols[i])
    decreases cols
    ensures AllColumns(cols)
  {
    if cols != [] {
      assert forall i | 0 <= i < |cols[1..]| :: cols[1..][i] == cols[i + 1];
      AllColumnsOf(cols[1..]);
      ColumnFormOf(cols[0]);
    }
  }

  lemma TableFormOf(t: Decl)
    requires IsTable(t)
    ensures TableForm(t)
  {
    var k := IfCount(t);
    var cols := t.children[k + 1..];
    assert forall i | 0 <= i < |cols| :: cols[i] == t.children[k + 1 + i];
    AllColumnsOf(cols);
  }

  // ---------------------------------------------------------------------------
  // The grammar one step at a time, on results already known

  lemma ConstraintsAfterStep(toks: seq<Token>, pos: nat, ty: Decl, cs: seq<Decl>, ty2: Decl, cs2: seq<Decl>, n: nat)
    requires pos < |toks| && toks[pos].kind !in ColumnEnd
    requires ConstraintStep(toks, pos, ty, cs) == Parsed((ty2, cs2), n)
    ensures Constraints(toks, pos, ty, cs) == Constraints(toks, n, ty2, cs2)
  {
  }

  lemma ConstraintsAtEnd(toks: seq<Token>, pos: nat, ty: Decl, cs: seq<Decl>)
    requires pos < |toks| && toks[pos].kind in ColumnEnd
    ensures Constraints(toks, pos, ty, cs) == Parsed((ty, cs), pos)
  {
  }

  lemma ColumnAfterConstraints(toks: seq<Token>, pos: nat, ty: Decl, cs: seq<Decl>, n: nat)
    requires pos + 1 < |toks| && toks[pos].kind == StringToken && toks[pos + 1].kind == StringToken
    requires Constraints(toks, pos + 2, NewDecl(toks[pos + 1]), []) == Parsed((ty, cs), n)
    ensures Column(toks, pos) == Parsed(Decl(toks[pos].kind, toks[pos].lexeme, [ty] + cs), n)
  {
  }

  lemma ColumnsAfterLast(toks: seq<Token>, pos: nat, acc: seq<Decl>, c: Decl, n: nat)
    requires pos < |toks| && toks[pos].kind == StringToken
    requires Column(toks, pos) == Parsed(c, n) && toks[n].kind == BracketClosingToken
    ensures Columns(toks, pos, acc) == Parsed(acc + [c], n + 1)
  {
    ColumnsAtColumn(toks, pos, acc);
  }

  lemma ColumnsAfterNext(toks: seq<Token>, pos: nat, acc: seq<Decl>, c: Decl, n: nat, r: seq<Decl>, e: nat)
    requires pos < |toks| && toks[pos].kind == StringToken
    requires Column(toks, pos) == Parsed(c, n) && toks[n].kind == CommaToken
    requires n + 1 <= |toks| && Columns(toks, n + 1, acc + [c]) == Parsed(r, e)
    ensures Columns(toks, pos, acc) == Parsed(r, e)
  {
    ColumnsAtColumn(toks, pos, acc);
  }

  lemma TableHeadAfterIf(toks: seq<Token>, pos: nat, ifs: seq<Decl>, n: nat)
    requires IfNotExists(toks, pos) == Parsed(ifs, n)
    requires n + 2 < |toks| && toks[n].kind == StringToken && toks[n + 1].kind == BracketOpeningToken
    ensures TableHead(toks, pos) == Parsed(ifs + [NewDecl(toks[n])], n + 2)
  {
  }

  lemma TableDefAfterParts(toks: seq<Token>, pos: nat, head: seq<Decl>, hn: nat, cols: seq<Decl>, cn: nat)
    requires pos < |toks| && hn <= |toks|
    requires TableHead(toks, pos + 1) == Parsed(head, hn)
    requires Columns(toks, hn, []) == Parsed(cols, cn)
    ensures TableDef(toks, pos) == Parsed(NewDecl(toks[pos]).(children := head + cols), cn)
  {
  }

  lemma CreateAfterTable(toks: seq<Token>, pos: nat, t: Decl, n: nat)
    requires pos + 1 < |toks| && toks[pos + 1].kind == TableToken
    requires TableDef(toks, pos + 1) == Parsed(t, n)
    ensures Create(toks, pos) == Parsed(Instruction([Add(NewDecl(toks[pos]), t)]), n)
  {
  }

  // ---------------------------------------------------------------------------
  // The constraint loop

  /** One spelled-out constraint is one pass of the constraint loop that
      appends exactly that constraint. */
  lemma ConstraintRoundTrip(toks: seq<Token>, pos: nat, ty: Decl, cs: seq<Decl>, c: Decl)
    requires IsConstraint(c) && ChainAt(toks, pos, c) && pos + ChainLen(c) < |toks|
    ensures toks[pos].kind !in ColumnEnd
    ensures ConstraintStep(toks, pos, ty, cs) == Parsed((ty, cs + [c]), pos + ChainLen(c))
  {
    if c.children == [] {
      assert NewDecl(toks[pos]) == c;
    } else {
      assert Add(NewDecl(toks[pos]), NewDecl(toks[pos + 1])) == c;
    }
  }

  /** Spelled-out constraints followed by `)` or `,`: the loop appends them
      all, in order, and stops at that token. */
  lemma {:induction false} ConstraintListRoundTrip(toks: seq<Token>, pos: nat, ty: Decl, cs: seq<Decl>, more: seq<Decl>)
    requires AllConstraints(more) && ChainsAt(toks, pos, more)
    requires pos + ChainsLen(more) < |toks| && toks[pos + ChainsLen(more)].kind in ColumnEnd
    decreases more
    ensures Constraints(toks, pos, ty, cs) == Parsed((ty, cs + more), pos + ChainsLen(more))
  {
    if more == [] {
      ConstraintsAtEnd(toks, pos, ty, cs);
      NoneAfter(cs, more);
    } else {
      var n := pos + ChainLen(more[0]);
      ConstraintListRoundTrip(toks, n, ty, cs + [more[0]], more[1..]);
      ConstraintRoundTrip(toks, pos, ty, cs, more[0]);
      ConstraintsAfterStep(toks, pos, ty, cs, ty, cs + [more[0]], n);
      ConsAfter(cs, more);
    }
  }

  /** WITH TIME ZONE after a timestamp type is one pass of the constraint
      loop that attaches the chain under the type. */
  lemma WithRoundTrip(toks: seq<Token>, pos: nat, ty: Decl, w: Decl)
    requires IsWithChain(w) && IsTimestamp(ty.lexeme) && ChainAt(toks, pos, w)
    ensures toks[pos].kind !in ColumnEnd
    ensures ConstraintStep(toks, pos, ty, []) == Parsed((Add(ty, w), []), pos + 3)
  {
    var m := w.children[0];
    var z := m.children[0];
    assert NewDecl(toks[pos + 2]) == z;
    assert Add(NewDecl(toks[pos + 1]), z) == m;
    assert Add(NewDecl(toks[pos]), m) == w;
  }

  /** The constraint loop over a column's tail: WITH TIME ZONE chains (only
      after a timestamp type), then constraints, then `)` or `,`.  The chains
      end up under the type and the constraints in the list, each in order. */
  lemma {:induction false} ColumnTailRoundTrip(toks: seq<Token>, pos: nat, ty: Decl, ws: seq<Decl>, more: seq<Decl>)
    requires AllWithChains(ws) && (ws != [] ==> IsTimestamp(ty.lexeme)) && AllConstraints(more)
    requires ChainsAt(toks, pos, ws) && ChainsAt(toks, pos + ChainsLen(ws), more)
    requires pos + ChainsLen(ws) + ChainsLen(more) < |toks|
    requires toks[pos + ChainsLen(ws) + ChainsLen(more)].kind in ColumnEnd
    decreases ws
    ensures Constraints(toks, pos, ty, [])
         == Parsed((ty.(children := ty.children + ws), more), pos + ChainsLen(ws) + ChainsLen(more))
  {
    if ws == [] {
      ConstraintListRoundTrip(toks, pos, ty, [], more);
      NoneAfter(ty.children, ws);
      EmptyPrefix(more);
    } else {
      var ty2 := Add(ty, ws[0]);
      ColumnTailRoundTrip(toks, pos + 3, ty2, ws[1..], more);
      WithRoundTrip(toks, pos, ty, ws[0]);
      ConstraintsAfterStep(toks, pos, ty, [], ty2, [], pos + 3);
      ConsAfter(ty.children, ws);
    }
  }

  // ---------------------------------------------------------------------------
  // Columns

  /** A spelled-out column followed by `)` or `,` parses back to the same
      column, stopping at that token. */
  lemma ColumnRoundTrip(toks: seq<Token>, pos: nat, col: Decl)
    requires ColumnForm(col) && ColumnAt(toks, pos, col)
    requires pos + ColumnLen(col) < |toks| && toks[pos + ColumnLen(col)].kind in ColumnEnd
    ensures toks[pos].kind == StringToken
    ensures Column(toks, pos) == Parsed(col, pos + ColumnLen(col))
  {
    var ty := col.children[0];
    var ty0 := NewDecl(toks[pos + 1]);
    ColumnTailRoundTrip(toks, pos + 2, ty0, ty.children, col.children[1..]);
    ColumnAfterConstraints(toks, pos, ty0.(children := ty0.children + ty.children), col.children[1..], pos + ColumnLen(col));
    ColumnRebuilt(toks, pos, col);
  }

  /** The node the column grammar builds from a spelled-out column is that column. */
  lemma ColumnRebuilt(toks: seq<Token>, pos: nat, col: Decl)
    requires |col.children| >= 1 && pos + 1 < |toks|
    requires toks[pos] == Tok(col) && toks[pos + 1] == Tok(col.children[0])
    ensures var ty0 := NewDecl(toks[pos + 1]);
      Decl(toks[pos].kind, toks[pos].lexeme, [ty0.(children := ty0.children + col.children[0].children)] + col.children[1..]) == col
  {
    var ty0 := NewDecl(toks[pos + 1]);
    assert ty0.(children := ty0.children + col.children[0].children) == col.children[0];
    FirstAndRest(col.children);
  }

  /** The last column, followed by `)`. */
  lemma LastColumnRoundTrip(toks: seq<Token>, pos: nat, acc: seq<Decl>, cols: seq<Decl>)
    requires AllColumns(cols) && ColumnsAt(toks, pos, cols) && |cols| == 1
    requires pos + ColumnsLen(cols) < |toks| && toks[pos + ColumnsLen(cols)].kind == BracketClosingToken
    ensures Columns(toks, pos, acc) == Parsed(acc + cols, pos + ColumnsLen(cols) + 1)
  {
    ColumnRoundTrip(toks, pos, cols[0]);
    ColumnsAfterLast(toks, pos, acc, cols[0], pos + ColumnLen(cols[0]));
    OnlyOne(acc, cols);
  }

  /** A column followed by `,`, in front of the columns after it. */
  lemma NextColumnRoundTrip(toks: seq<Token>, pos: nat, acc: seq<Decl>, cols: seq<Decl>, e: nat)
    requires AllColumns(cols) && ColumnsAt(toks, pos, cols) && |cols| > 1
    requires Columns(toks, pos + ColumnLen(cols[0]) + 1, acc + [cols[0]]) == Parsed(acc + [cols[0]] + cols[1..], e)
    ensures Columns(toks, pos, acc) == Parsed(acc + cols, e)
  {
    ColumnsAtFirst(toks, pos, cols);
    ConsAfter(acc, cols);
    ColumnThenComma(toks, pos, acc, cols[0], acc + cols, e);
  }

  /** The first of several spelled-out columns, and the comma after it. */
  lemma ColumnsAtFirst(toks: seq<Token>, pos: nat, cols: seq<Decl>)
    requires AllColumns(cols) && ColumnsAt(toks, pos, cols) && |cols| > 1
    ensures ColumnForm(cols[0]) && ColumnAt(toks, pos, cols[0])
    ensures pos + ColumnLen(cols[0]) < |toks| && toks[pos + ColumnLen(cols[0])].kind == CommaToken
    ensures AllColumns(cols[1..]) && ColumnsAt(toks, pos + ColumnLen(cols[0]) + 1, cols[1..])
    ensures ColumnsLen(cols) == ColumnLen(cols[0]) + 1 + ColumnsLen(cols[1..])
  {
  }

  /** A spelled-out column followed by `,`: the column loop appends it and
      goes on after the comma. */
  lemma ColumnThenComma(toks: seq<Token>, pos: nat, acc: seq<Decl>, c: Decl, r: seq<Decl>, e: nat)
    requires ColumnForm(c) && ColumnAt(toks, pos, c)
    requires pos + ColumnLen(c) < |toks| && toks[pos + ColumnLen(c)].kind == CommaToken
    requires Columns(toks, pos + ColumnLen(c) + 1, acc + [c]) == Parsed(r, e)
    ensures Columns(toks, pos, acc) == Parsed(r, e)
  {
    ColumnRoundTrip(toks, pos, c);
    ColumnsAfterNext(toks, pos, acc, c, pos + ColumnLen(c), r, e);
  }

  /** Every key list is accepted, and the names end right after its `)`. */
  lemma {:induction false} KeyNamesRoundTrip(toks: seq<Token>, pos: nat, n: nat)
    requires KeyListAt(toks, pos, n)
    decreases n
    ensures KeyNames(toks, pos) == Parsed((), pos + 2 * n)
  {
    assert toks[pos + 2 * 0].kind == StringToken;
    if n > 1 {
      assert toks[pos + 2 * 0 + 1].kind == CommaToken;
      KeyListCons(toks, pos, n - 1);
      KeyNamesRoundTrip(toks, pos + 2, n - 1);
    }
  }

  /** Every clause PRIMARY KEY `(` followed by a key list of `n` names is
      accepted, spans `3 + 2 * n` tokens and yields PRIMARY -> KEY. */
  lemma PrimaryKeyRoundTrip(toks: seq<Token>, pos: nat, n: nat)
    requires pos + 2 < |toks|
    requires toks[pos].kind == PrimaryToken && toks[pos + 1].kind == KeyToken
    requires toks[pos + 2].kind == BracketOpeningToken && KeyListAt(toks, pos + 3, n)
    ensures PrimaryKey(toks, pos) == Parsed(Add(NewDecl(toks[pos]), NewDecl(toks[pos + 1])), pos + 3 + 2 * n)
  {
    KeyNamesRoundTrip(toks, pos + 3, n);
  }

  /** Spelled-out columns separated by commas and followed by `)`: the column
      loop appends them all, in order, and stops after the `)`. */
  lemma {:induction false} ColumnsRoundTrip(toks: seq<Token>, pos: nat, acc: seq<Decl>, cols: seq<Decl>)
    requires AllColumns(cols) && ColumnsAt(toks, pos, cols)
    requires pos + ColumnsLen(cols) < |toks| && toks[pos + ColumnsLen(cols)].kind == BracketClosingToken
    decreases cols
    ensures Columns(toks, pos, acc) == Parsed(acc + cols, pos + ColumnsLen(cols) + 1)
  {
    if cols == [] {
      ColumnsAtClose(toks, pos, acc);
      NoneAfter(acc, cols);
    } else if |cols| == 1 {
      LastColumnRoundTrip(toks, pos, acc, cols);
    } else {
      ColumnsAtFirst(toks, pos, cols);
      ColumnsRoundTrip(toks, pos + ColumnLen(cols[0]) + 1, acc + [cols[0]], cols[1..]);
      NextColumnRoundTrip(toks, pos, acc, cols, pos + ColumnsLen(cols) + 1);
    }
  }

  // ---------------------------------------------------------------------------
  // The table and the statement

  /** A spelled-out IF chain, followed by a name, parses back to that chain. */
  lemma IfChainRoundTrip(toks: seq<Token>, pos: nat, i: Decl)
    requires IsIfChain(i) && ChainAt(toks, pos, i) && pos + ChainLen(i) < |toks|
    requires toks[pos + ChainLen(i)].kind == StringToken
    ensures IfNotExists(toks, pos) == Parsed([i], pos + ChainLen(i))
  {
    if i.children == [] {
      assert NewDecl(toks[pos]) == i;
    } else {
      var n := i.children[0];
      var e := n.children[0];
      assert NewDecl(toks[pos + 2]) == e;
      assert Add(NewDecl(toks[pos + 1]), e) == n;
      assert Add(NewDecl(toks[pos]), n) == i;
    }
  }

  /** A spelled-out head (IF chain, name and `(`), followed by at least one
      token, parses back to the table's leading children. */
  lemma TableHeadRoundTrip(toks: seq<Token>, pos: nat, t: Decl)
    requires TableForm(t) && HeadAt(toks, pos, t) && pos + HeadLen(t) < |toks|
    ensures TableHead(toks, pos) == Parsed(t.children[..IfCount(t) + 1], pos + HeadLen(t))
  {
    var k := IfCount(t);
    var n := pos + HeadLen(t) - 2;
    if k == 0 {
      assert IfNotExists(toks, pos) == Parsed([], pos);
      TableHeadAfterIf(toks, pos, [], n);
      assert NewDecl(toks[n]) == t.children[0];
      FirstOnly(t.children);
    } else {
      IfChainRoundTrip(toks, pos, t.children[0]);
      TableHeadAfterIf(toks, pos, [t.children[0]], n);
      assert NewDecl(toks[n]) == t.children[1];
      FirstTwo(t.children);
    }
  }

  /** A spelled-out table declaration parses back to the same declaration,
      stopping right after its `)`. */
  lemma TableRoundTrip(toks: seq<Token>, pos: nat, t: Decl)
    requires TableForm(t) && TableAt(toks, pos, t)
    ensures TableDef(toks, pos) == Parsed(t, pos + TableLen(t))
  {
    TableHeadPart(toks, pos, t);
    TableColumnsPart(toks, pos, t);
    TableFromParts(toks, pos, t, pos + 1 + HeadLen(t), pos + TableLen(t));
  }

  lemma TableHeadPart(toks: seq<Token>, pos: nat, t: Decl)
    requires TableForm(t) && TableAt(toks, pos, t)
    ensures TableHead(toks, pos + 1) == Parsed(t.children[..IfCount(t) + 1], pos + 1 + HeadLen(t))
  {
    TableHeadRoundTrip(toks, pos + 1, t);
  }

  lemma TableColumnsPart(toks: seq<Token>, pos: nat, t: Decl)
    requires TableForm(t) && TableAt(toks, pos, t)
    ensures Columns(toks, pos + 1 + HeadLen(t), []) == Parsed([] + TableColumns(t), pos + TableLen(t))
  {
    ColumnsRoundTrip(toks, pos + 1 + HeadLen(t), [], TableColumns(t));
  }

  /** The table grammar, given what its head and its columns read back, builds `t`. */
  lemma TableFromParts(toks: seq<Token>, pos: nat, t: Decl, hn: nat, e: nat)
    requires |t.children| > IfCount(t) && pos < |toks| && toks[pos] == Tok(t) && hn <= |toks|
    requires TableHead(toks, pos + 1) == Parsed(t.children[..IfCount(t) + 1], hn)
    requires Columns(toks, hn, []) == Parsed([] + TableColumns(t), e)
    ensures TableDef(toks, pos) == Parsed(t, e)
  {
    TableDefAfterParts(toks, pos, t.children[..IfCount(t) + 1], hn, [] + TableColumns(t), e);
    NoneBefore(t.children, IfCount(t) + 1);
  }

  lemma InstructionRoundTrip(toks: seq<Token>, pos: nat, ins: Instruction)
    requires |ins.decls| == 1 && |ins.decls[0].children| == 1
    requires TableForm(ins.decls[0].children[0]) && InstructionAt(toks, pos, ins)
    ensures Create(toks, pos) == Parsed(ins, pos + 1 + TableLen(ins.decls[0].children[0]))
  {
    CreateOverTable(toks, pos, ins.decls[0].children[0]);
    InstructionRebuilt(toks, pos, ins);
  }

  /** CREATE in front of a spelled-out table declaration. */
  lemma CreateOverTable(toks: seq<Token>, pos: nat, t: Decl)
    requires pos + 1 < |toks| && toks[pos + 1].kind == TableToken
    requires TableForm(t) && TableAt(toks, pos + 1, t)
    ensures Create(toks, pos) == Parsed(Instruction([Add(NewDecl(toks[pos]), t)]), pos + 1 + TableLen(t))
  {
    TableRoundTrip(toks, pos + 1, t);
    CreateAfterTable(toks, pos, t, pos + 1 + TableLen(t));
  }

  /** The instruction the grammar builds from a spelled-out statement is that instruction. */
  lemma InstructionRebuilt(toks: seq<Token>, pos: nat, ins: Instruction)
    requires |ins.decls| == 1 && |ins.decls[0].children| == 1
    requires pos < |toks| && toks[pos] == Tok(ins.decls[0])
    ensures Instruction([Add(NewDecl(toks[pos]), ins.decls[0].children[0])]) == ins
  {
    assert Add(NewDecl(toks[pos]), ins.decls[0].children[0]) == ins.decls[0];
  }

  /** A spelled-out CREATE TABLE statement parses back to the same
      instruction, stopping right after the table's `)`. */
  lemma CreateRoundTrip(toks: seq<Token>, pos: nat, ins: Instruction)
    requires IsCreateInstruction(ins) && InstructionAt(toks, pos, ins)
    ensures Create(toks, pos) == Parsed(ins, pos + 1 + TableLen(ins.decls[0].children[0]))
  {
    TableFormOf(ins.decls[0].children[0]);
    InstructionRoundTrip(toks, pos, ins);
  }

  // ---------------------------------------------------------------------------
  // Sequence bookkeeping

  lemma FirstAndRest(s: seq<Decl>)
    requires |s| > 0
    ensures [s[0]] + s[1..] == s
  {
  }

  lemma FirstOnly(s: seq<Decl>)
    requires |s| > 0
    ensures [] + [s[0]] == s[..1]
  {
  }

  lemma FirstTwo(s: seq<Decl>)
    requires |s| > 1
    ensures [s[0]] + [s[1]] == s[..2]
  {
  }

  lemma ConsAfter(acc: seq<Decl>, s: seq<Decl>)
    requires |s| > 0
    ensures acc + [s[0]] + s[1..] == acc + s
  {
  }

  lemma OnlyOne(acc: seq<Decl>, s: seq<Decl>)
    requires |s| == 1
    ensures acc + [s[0]] == acc + s
  {
  }

  lemma NoneAfter(acc: seq<Decl>, s: seq<Decl>)
    requires s == []
    ensures acc + s == acc
  {
  }

  lemma EmptyPrefix(s: seq<Decl>)
    ensures [] + s == s
  {
  }

  lemma NoneBefore(s: seq<Decl>, n: nat)
    requires n <= |s|
    ensures s[..n] + ([] + s[n..]) == s
  {
  }
}

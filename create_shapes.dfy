/**
 * The shape of every declaration tree the CREATE TABLE grammar builds: what
 * the planner and the executor may rely on when they walk a parsed table.
 */
module GrammarShapes {
  import opened ParserTypes
  import opened CreateGrammar

  /** IF NOT EXISTS yields no node, a bare IF, or IF -> NOT -> EXISTS. */
  lemma IfNotExistsShape(toks: seq<Token>, pos: nat)
    ensures IfNotExists(toks, pos).Parsed? ==>
      forall d | d in IfNotExists(toks, pos).value :: IsIfChain(d)
  {
  }

  /** A pass of the constraint loop only appends, and appends exactly one
      node: a WITH TIME ZONE chain to a timestamp type, or one constraint to
      the list. */
  lemma ConstraintStepShape(toks: seq<Token>, pos: nat, ty: Decl, cs: seq<Decl>)
    requires pos < |toks| && toks[pos].kind !in ColumnEnd
    ensures var r := ConstraintStep(toks, pos, ty, cs);
      r.Parsed? ==> TypeExtends(ty, r.value.0) && ConstraintsExtend(cs, r.value.1)
    ensures var r := ConstraintStep(toks, pos, ty, cs);
      r.Parsed? ==> |r.value.0.children| + |r.value.1| == |ty.children| + |cs| + 1
  {
  }

  lemma TypeExtendsTrans(a: Decl, b: Decl, c: Decl)
    requires TypeExtends(a, b) && TypeExtends(b, c)
    ensures TypeExtends(a, c)
  {
    assert c.children[..|b.children|][..|a.children|] == c.children[..|a.children|];
  }

  lemma ConstraintsExtendTrans(a: seq<Decl>, b: seq<Decl>, c: seq<Decl>)
    requires ConstraintsExtend(a, b) && ConstraintsExtend(b, c)
    ensures ConstraintsExtend(a, c)
  {
    assert c[..|b|][..|a|] == c[..|a|];
  }

  /** The whole constraint loop only appends, as each pass does. */
  lemma {:induction false} ConstraintsShape(toks: seq<Token>, pos: nat, ty: Decl, cs: seq<Decl>)
    decreases |toks| - pos
    ensures var r := Constraints(toks, pos, ty, cs);
      r.Parsed? ==> TypeExtends(ty, r.value.0) && ConstraintsExtend(cs, r.value.1)
  {
    var r := Constraints(toks, pos, ty, cs);
    if r.Parsed? && pos < |toks| && toks[pos].kind !in ColumnEnd {
      var s := ConstraintStep(toks, pos, ty, cs);
      ConstraintStepShape(toks, pos, ty, cs);
      ConstraintsShape(toks, s.next, s.value.0, s.value.1);
      TypeExtendsTrans(ty, s.value.0, r.value.0);
      ConstraintsExtendTrans(cs, s.value.1, r.value.1);
    }
  }

  /** A parsed column is a name whose first child is its type and whose other
      children are constraints. */
  lemma ColumnShape(toks: seq<Token>, pos: nat)
    ensures Column(toks, pos).Parsed? ==> IsColumn(Column(toks, pos).value)
  {
    var r := Column(toks, pos);
    if r.Parsed? {
      var ty := Consume(toks, pos + 1, NameKinds);
      ConstraintsShape(toks, ty.next, ty.value, []);
      var c := Constraints(toks, ty.next, ty.value, []);
      assert r.value.children == [c.value.0] + c.value.1;
    }
  }

  /** `cols2` is `cols` with zero or more columns appended. */
  predicate ColumnsExtend(cols: seq<Decl>, cols2: seq<Decl>) {
    && |cols| <= |cols2| && cols2[..|cols|] == cols
    && forall i | |cols| <= i < |cols2| :: IsColumn(cols2[i])
  }

  /** A column appended, then more columns: columns appended. */
  lemma ColumnsExtendAfter(cols: seq<Decl>, c: Decl, cols2: seq<Decl>)
    requires IsColumn(c) && ColumnsExtend(cols + [c], cols2)
    ensures ColumnsExtend(cols, cols2)
  {
    assert cols2[..|cols| + 1][..|cols|] == cols2[..|cols|];
    assert cols2[|cols|] == (cols + [c])[|cols|];
  }

  /** The column loop keeps the columns parsed so far and appends only columns. */
  lemma {:induction false} ColumnsShape(toks: seq<Token>, pos: nat, cols: seq<Decl>)
    requires pos <= |toks|
    decreases |toks| - pos, 1
    ensures Columns(toks, pos, cols).Parsed? ==> ColumnsExtend(cols, Columns(toks, pos, cols).value)
  {
    var r := Columns(toks, pos, cols);
    if r.Parsed? && pos < |toks| {
      if toks[pos].kind == PrimaryToken {
        ColumnsAtPrimaryKey(toks, pos, cols);
        ColumnsShape(toks, PrimaryKey(toks, pos).next, cols);
      } else if toks[pos].kind == BracketClosingToken {
        ColumnsAtClose(toks, pos, cols);
      } else {
        ColumnShapeInLoop(toks, pos, cols);
      }
    }
  }

  /** The column loop on a column definition. */
  lemma {:induction false} ColumnShapeInLoop(toks: seq<Token>, pos: nat, cols: seq<Decl>)
    requires pos < |toks| && toks[pos].kind !in {PrimaryToken, BracketClosingToken}
    requires Columns(toks, pos, cols).Parsed?
    decreases |toks| - pos, 0
    ensures ColumnsExtend(cols, Columns(toks, pos, cols).value)
  {
    ColumnsAtColumn(toks, pos, cols);
    var r := Columns(toks, pos, cols);
    var c := Column(toks, pos);
    assert c.Parsed?;
    ColumnShape(toks, pos);
    if toks[c.next].kind != BracketClosingToken {
      var rest := Columns(toks, c.next + 1, cols + [c.value]);
      assert r == rest;
      ColumnsShape(toks, c.next + 1, cols + [c.value]);
      ColumnsExtendAfter(cols, c.value, rest.value);
    } else {
      assert r.value == cols + [c.value];
      ColumnsExtendOne(cols, c.value);
    }
  }

  /** One column appended: columns appended. */
  lemma ColumnsExtendOne(cols: seq<Decl>, c: Decl)
    requires IsColumn(c)
    ensures ColumnsExtend(cols, cols + [c])
  {
    assert (cols + [c])[..|cols|] == cols;
  }

  /** A key list the grammar accepts is names separated by `,` and closed by
      `)`, nothing else. */
  lemma {:induction false} KeyNamesShape(toks: seq<Token>, pos: nat)
    decreases |toks| - pos
    ensures var r := KeyNames(toks, pos);
      r.Parsed? ==> (r.next - pos) % 2 == 0 && KeyListAt(toks, pos, (r.next - pos) / 2)
  {
    var r := KeyNames(toks, pos);
    if r.Parsed? {
      if toks[pos + 1].kind == BracketClosingToken {
        assert r.next == pos + 2;
      } else {
        KeyNamesShape(toks, pos + 2);
        KeyListCons(toks, pos, (r.next - pos - 2) / 2);
      }
    }
  }

  /** A composite key clause the grammar accepts is PRIMARY KEY `(` followed
      by a key list. */
  lemma PrimaryKeyShape(toks: seq<Token>, pos: nat)
    ensures var r := PrimaryKey(toks, pos);
      r.Parsed? ==>
        && toks[pos].kind == PrimaryToken && toks[pos + 1].kind == KeyToken
        && toks[pos + 2].kind == BracketOpeningToken
        && (r.next - pos - 3) % 2 == 0 && KeyListAt(toks, pos + 3, (r.next - pos - 3) / 2)
  {
    KeyNamesShape(toks, pos + 3);
  }

  /** The head of a table: an optional IF chain, then the table name. */
  lemma TableHeadShape(toks: seq<Token>, pos: nat)
    ensures var r := TableHead(toks, pos);
      r.Parsed? ==>
        && 1 <= |r.value| <= 2 && IsLeaf(r.value[|r.value| - 1], StringToken)
        && (|r.value| == 2 ==> IsIfChain(r.value[0]))
  {
    IfNotExistsShape(toks, pos);
  }

  /** A parsed TABLE is a table declaration. */
  lemma TableDefShape(toks: seq<Token>, pos: nat)
    requires pos < |toks| && toks[pos].kind == TableToken
    ensures TableDef(toks, pos).Parsed? ==> IsTable(TableDef(toks, pos).value)
  {
    var r := TableDef(toks, pos);
    if r.Parsed? {
      var head := TableHead(toks, pos + 1);
      TableHeadShape(toks, pos + 1);
      ColumnsShape(toks, head.next, []);
      var cols := Columns(toks, head.next, []);
      TableOfParts(r.value, head.value, cols.value);
    }
  }

  /** TABLE over a head and columns appended to nothing is a table declaration. */
  lemma TableOfParts(t: Decl, head: seq<Decl>, cols: seq<Decl>)
    requires t.kind == TableToken && t.children == head + cols
    requires 1 <= |head| <= 2 && IsLeaf(head[|head| - 1], StringToken)
    requires |head| == 2 ==> IsIfChain(head[0])
    requires ColumnsExtend([], cols)
    ensures IsTable(t)
  {
    var k := |head| - 1;
    assert IfCount(t) == k;
    forall i | k < i < |t.children|
      ensures IsColumn(t.children[i])
    {
      assert t.children[i] == cols[i - |head|];
    }
  }

  /** A parsed CREATE TABLE statement is one CREATE node whose only child is a
      table declaration. */
  lemma CreateShape(toks: seq<Token>, pos: nat)
    requires pos < |toks|
    ensures var r := Create(toks, pos);
      r.Parsed? ==>
        && IsCreateInstruction(r.value)
        && r.value.decls[0].kind == toks[pos].kind && r.value.decls[0].lexeme == toks[pos].lexeme
  {
    if pos + 1 < |toks| && toks[pos + 1].kind == TableToken {
      TableDefShape(toks, pos + 1);
    }
  }
}

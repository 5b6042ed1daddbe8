/**
 * How the CREATE TABLE grammar rejects input: which error each malformed
 * construct of engine/parser/create.go produces, and which near-misses it
 * accepts.  The imperative `CreateParser.Parser` reports the same errors,
 * since each of its routines agrees with the reference function stated here.
 */
module CreateErrors {
  import opened ParserTypes
  import opened CreateGrammar

  /** `IF NOT` must be completed by EXISTS; a bare `IF` is kept as a leaf and
      the parse goes on right after it. */
  lemma IfNotExistsCases(toks: seq<Token>, pos: nat)
    requires pos + 1 < |toks| && toks[pos].kind == IfToken
    ensures toks[pos + 1].kind != NotToken ==>
      IfNotExists(toks, pos) == Parsed([NewDecl(toks[pos])], pos + 1)
    ensures toks[pos + 1].kind == NotToken && pos + 2 < |toks| && toks[pos + 2].kind != ExistsToken ==>
      IfNotExists(toks, pos) == Failed(SyntaxError(pos + 2))
    ensures toks[pos + 1].kind == NotToken && pos + 2 < |toks| && toks[pos + 2].kind == ExistsToken ==>
      var r := IfNotExists(toks, pos);
      && r.Parsed? && r.next == pos + 3 && |r.value| == 1
      && r.value[0].kind == IfToken && IsPair(r.value[0].children[0], NotToken, ExistsToken)
  {
  }

  /** After the optional IF chain, whatever stops the table name from being
      read is reported as a syntax error at the name's position. */
  lemma TableNameError(toks: seq<Token>, pos: nat)
    requires IfNotExists(toks, pos).Parsed?
    requires var n := IfNotExists(toks, pos).next; n >= |toks| || toks[n].kind !in NameKinds
    ensures TableHead(toks, pos) == Failed(SyntaxError(IfNotExists(toks, pos).next))
  {
  }

  /** A table name that is not followed by `(`, or that has no token after
      that `(`, is missing its definition. */
  lemma TableDefinitionMissing(toks: seq<Token>, pos: nat)
    requires IfNotExists(toks, pos).Parsed?
    requires var n := IfNotExists(toks, pos).next;
      && n < |toks| && toks[n].kind in NameKinds
      && !(n + 2 < |toks| && toks[n + 1].kind == BracketOpeningToken)
    ensures TableHead(toks, pos) == Failed(MissingTableDefinition)
  {
  }

  /** The constraint loop rejects any token that starts no constraint. */
  lemma UnknownConstraint(toks: seq<Token>, pos: nat, ty: Decl, cs: seq<Decl>)
    requires pos < |toks|
    requires toks[pos].kind !in ColumnEnd
    requires toks[pos].kind !in {UniqueToken, NotToken, PrimaryToken, AutoincrementToken, WithToken, DefaultToken}
    ensures Constraints(toks, pos, ty, cs) == Failed(SyntaxError(pos))
  {
  }

  /** DEFAULT takes exactly one value of kind FALSE, STRING, NUMBER or
      LOCALTIMESTAMP, which becomes its only child; any other kind is a
      syntax error at the value. */
  lemma DefaultValue(toks: seq<Token>, pos: nat, ty: Decl, cs: seq<Decl>)
    requires pos + 1 < |toks| && toks[pos].kind == DefaultToken
    ensures toks[pos + 1].kind !in DefaultValueKinds ==>
      ConstraintStep(toks, pos, ty, cs) == Failed(SyntaxError(pos + 1))
    ensures toks[pos + 1].kind in DefaultValueKinds ==>
      var r := ConstraintStep(toks, pos, ty, cs);
      && r.Parsed? && r.next == pos + 2 && r.value.0 == ty
      && r.value.1 == cs + [Decl(DefaultToken, toks[pos].lexeme, [NewDecl(toks[pos + 1])])]
  {
    var v := NewDecl(toks[pos + 1]);
    assert Add(NewDecl(toks[pos]), v).children == [v];
  }

  /** WITH is taken only after a type whose lexeme, lower-cased, is
      "timestamp"; then WITH TIME ZONE hangs under the type, not under the
      column, and the constraints are left as they were. */
  lemma WithTimeZone(toks: seq<Token>, pos: nat, ty: Decl, cs: seq<Decl>)
    requires pos < |toks| && toks[pos].kind == WithToken
    ensures !IsTimestamp(ty.lexeme) ==> ConstraintStep(toks, pos, ty, cs) == Failed(NoProgress(pos))
    ensures IsTimestamp(ty.lexeme) && pos + 2 < |toks| &&
            toks[pos + 1].kind == TimeToken && toks[pos + 2].kind == ZoneToken ==>
      var r := ConstraintStep(toks, pos, ty, cs);
      && r.Parsed? && r.next == pos + 3 && r.value.1 == cs
      && r.value.0.kind == ty.kind && r.value.0.lexeme == ty.lexeme
      && r.value.0.children == ty.children + [r.value.0.children[|ty.children|]]
      && IsWithChain(r.value.0.children[|ty.children|])
  {
  }

  /** NOT without NULL and PRIMARY without KEY consume nothing: the source's
      loop would spin on them forever. */
  lemma IncompleteConstraint(toks: seq<Token>, pos: nat, ty: Decl, cs: seq<Decl>)
    requires pos < |toks|
    requires || (toks[pos].kind == NotToken && !IsNext(toks, pos, NullToken))
             || (toks[pos].kind == PrimaryToken && !IsNext(toks, pos, KeyToken))
    ensures Constraints(toks, pos, ty, cs) == Failed(NoProgress(pos))
  {
  }

  /** The names of a composite primary key end at the first `)`: no `)`
      comes before the one the clause stops after. */
  lemma {:induction false} KeyNamesStopAtFirstClose(toks: seq<Token>, pos: nat)
    decreases |toks| - pos
    ensures var r := KeyNames(toks, pos);
      r.Parsed? ==> forall i | pos <= i < r.next - 1 :: toks[i].kind != BracketClosingToken
  {
    var r := KeyNames(toks, pos);
    if r.Parsed? && toks[pos + 1].kind != BracketClosingToken {
      KeyNamesStopAtFirstClose(toks, pos + 2);
    }
  }

  /** A composite PRIMARY KEY needs at least one name between its brackets. */
  lemma EmptyKeyList(toks: seq<Token>, pos: nat)
    requires pos + 3 < |toks|
    requires toks[pos].kind == PrimaryToken && toks[pos + 1].kind == KeyToken
    requires toks[pos + 2].kind == BracketOpeningToken && toks[pos + 3].kind == BracketClosingToken
    ensures PrimaryKey(toks, pos) == Failed(SyntaxError(pos + 3))
  {
  }

  /** A composite PRIMARY KEY clause is read and then dropped: the columns
      parsed around it are exactly those parsed without it. */
  lemma CompositeKeyDropped(toks: seq<Token>, pos: nat, cols: seq<Decl>)
    requires pos < |toks| && toks[pos].kind == PrimaryToken
    requires PrimaryKey(toks, pos).Parsed?
    ensures var n := PrimaryKey(toks, pos).next;
      && pos + 5 <= n <= |toks|
      && Columns(toks, pos, cols) == Columns(toks, n, cols)
  {
  }
}

/**
 * The CREATE TABLE grammar of engine/parser/create.go as pure functions over
 * a token sequence and a position.  Each function is the reference that the
 * imperative `CreateParser.Parser` is proved against; `GrammarShapes` proves
 * the shape of every tree they can build.
 */
module CreateGrammar {
  import opened ParserTypes

  /** Why a parse stopped. */
  datatype ParseError =
    | UnexpectedEnd              // the cursor ran past the last token
    | SyntaxError(pos: nat)      // the token at pos fits no alternative here
    | MissingCreateTarget        // CREATE is the last token
    | UnsupportedCreate(pos: nat)  // CREATE is followed by something other than TABLE
    | MissingTableDefinition     // the table name is not followed by `(` and a further token
    | NoProgress(pos: nat)       // the constraint loop would spin forever at pos

  /** The outcome of a grammar routine: the value built and the position after it. */
  datatype Parse<+T> = Parsed(value: T, next: nat) | Failed(error: ParseError) {

    predicate IsFailure() {
      Failed?
    }

    function PropagateFailure<U>(): Parse<U>
      requires Failed?
    {
      Failed(error)
    }

    function Extract(): Parse<T>
      requires Parsed?
    {
      this
    }
  }

  /** A type name that may carry WITH TIME ZONE: "timestamp" in any case. */
  predicate IsTimestamp(lexeme: string) {
    Lower(lexeme) == "timestamp"
  }

  /** Kinds that end a column definition. */
  const ColumnEnd: set<Kind> := {BracketClosingToken, CommaToken}

  /** Kinds accepted as the value of DEFAULT. */
  const DefaultValueKinds: set<Kind> := {FalseToken, StringToken, NumberToken, LocalTimestampToken}

  /** Kinds accepted as a table name, column name or type name. */
  const NameKinds: set<Kind> := {StringToken}

  // ---------------------------------------------------------------------------
  // Shapes of the trees the grammar builds

  predicate IsLeaf(d: Decl, k: Kind) {
    d.kind == k && d.children == []
  }

  /** `k1 -> k2`: a node with exactly one child, which is a leaf. */
  predicate IsPair(d: Decl, k1: Kind, k2: Kind) {
    d.kind == k1 && |d.children| == 1 && IsLeaf(d.children[0], k2)
  }

  /** `IF` alone, or the chain `IF -> NOT -> EXISTS`. */
  predicate IsIfChain(d: Decl) {
    d.kind == IfToken &&
    (d.children == [] || (|d.children| == 1 && IsPair(d.children[0], NotToken, ExistsToken)))
  }

  /** The chain `WITH -> TIME -> ZONE`. */
  predicate IsWithChain(d: Decl) {
    d.kind == WithToken && |d.children| == 1 && IsPair(d.children[0], TimeToken, ZoneToken)
  }

  /** One column constraint as the constraint loop attaches it to a column. */
  predicate IsConstraint(d: Decl) {
    || IsLeaf(d, UniqueToken)
    || IsLeaf(d, AutoincrementToken)
    || IsPair(d, NotToken, NullToken)
    || IsPair(d, PrimaryToken, KeyToken)
    || (d.kind == DefaultToken && |d.children| == 1 &&
        d.children[0].kind in DefaultValueKinds && d.children[0].children == [])
  }

  /** A column type: a name whose only children are WITH TIME ZONE chains,
      which it may have only when its lexeme, lower-cased, is "timestamp". */
  predicate IsColumnType(d: Decl) {
    && d.kind == StringToken
    && (forall i | 0 <= i < |d.children| :: IsWithChain(d.children[i]))
    && (d.children != [] ==> IsTimestamp(d.lexeme))
  }

  /** A column: a name whose first child is its type and whose other children are constraints. */
  predicate IsColumn(d: Decl) {
    && d.kind == StringToken
    && |d.children| >= 1
    && IsColumnType(d.children[0])
    && forall i | 1 <= i < |d.children| :: IsConstraint(d.children[i])
  }

  /** Number of leading IF children of a table declaration (0 or 1). */
  function IfCount(d: Decl): nat {
    if |d.children| > 0 && d.children[0].kind == IfToken then 1 else 0
  }

  /** A table declaration: TABLE, with an optional IF chain, the table name,
      then one child per column (their order is pinned down by
      `CreateRoundTrip.TableRoundTrip`). */
  predicate IsTable(d: Decl) {
    var k := IfCount(d);
    && d.kind == TableToken
    && |d.children| > k
    && (k == 1 ==> IsIfChain(d.children[0]))
    && IsLeaf(d.children[k], StringToken)
    && forall i | k < i < |d.children| :: IsColumn(d.children[i])
  }

  /** The key list of a composite PRIMARY KEY, from `pos`: `n` names, each
      followed by `,` except the last, which is followed by `)`; it spans
      `2 * n` tokens. */
  predicate KeyListAt(toks: seq<Token>, pos: nat, n: nat) {
    && 1 <= n && pos + 2 * n <= |toks|
    && (forall j | 0 <= j < n :: toks[pos + 2 * j].kind == StringToken)
    && (forall j | 0 <= j < n - 1 :: toks[pos + 2 * j + 1].kind == CommaToken)
    && toks[pos + 2 * n - 1].kind == BracketClosingToken
  }

  /** A name and `,` in front of a key list make a longer key list, and
      every key list of two or more names is built that way. */
  lemma KeyListCons(toks: seq<Token>, pos: nat, m: nat)
    requires pos + 1 < |toks|
    ensures toks[pos].kind == StringToken && toks[pos + 1].kind == CommaToken && KeyListAt(toks, pos + 2, m)
      <==> KeyListAt(toks, pos, m + 1) && m >= 1
  {
    if KeyListAt(toks, pos, m + 1) && m >= 1 {
      KeyListTail(toks, pos, m);
    }
    if toks[pos].kind == StringToken && toks[pos + 1].kind == CommaToken && KeyListAt(toks, pos + 2, m) {
      KeyListFront(toks, pos, m);
    }
  }

  lemma KeyListTail(toks: seq<Token>, pos: nat, m: nat)
    requires KeyListAt(toks, pos, m + 1) && m >= 1
    ensures toks[pos].kind == StringToken && toks[pos + 1].kind == CommaToken && KeyListAt(toks, pos + 2, m)
  {
    assert toks[pos + 2 * 0].kind == StringToken;
    assert toks[pos + 2 * 0 + 1].kind == CommaToken;
    forall j | 0 <= j < m
      ensures toks[pos + 2 + 2 * j].kind == StringToken
    {
      assert pos + 2 + 2 * j == pos + 2 * (j + 1);
    }
    forall j | 0 <= j < m - 1
      ensures toks[pos + 2 + 2 * j + 1].kind == CommaToken
    {
      assert pos + 2 + 2 * j + 1 == pos + 2 * (j + 1) + 1;
    }
  }

  lemma KeyListFront(toks: seq<Token>, pos: nat, m: nat)
    requires pos + 1 < |toks| && toks[pos].kind == StringToken && toks[pos + 1].kind == CommaToken
    requires KeyListAt(toks, pos + 2, m)
    ensures KeyListAt(toks, pos, m + 1)
  {
    forall j | 1 <= j < m + 1
      ensures toks[pos + 2 * j].kind == StringToken
    {
      assert pos + 2 * j == pos + 2 + 2 * (j - 1);
    }
    forall j | 1 <= j < m
      ensures toks[pos + 2 * j + 1].kind == CommaToken
    {
      assert pos + 2 * j + 1 == pos + 2 + 2 * (j - 1) + 1;
    }
  }

  /** A CREATE instruction: one declaration whose only child is a table declaration. */
  predicate IsCreateInstruction(ins: Instruction) {
    |ins.decls| == 1 && |ins.decls[0].children| == 1 && IsTable(ins.decls[0].children[0])
  }

  /** `ty2` is `ty` with zero or more WITH TIME ZONE chains appended, and only
      if `ty` is a timestamp. */
  predicate TypeExtends(ty: Decl, ty2: Decl) {
    && ty2.kind == ty.kind && ty2.lexeme == ty.lexeme
    && |ty.children| <= |ty2.children| && ty2.children[..|ty.children|] == ty.children
    && (forall i | |ty.children| <= i < |ty2.children| :: IsWithChain(ty2.children[i]))
    && (|ty2.children| > |ty.children| ==> IsTimestamp(ty.lexeme))
  }

  /** `cs2` is `cs` with zero or more constraints appended. */
  predicate ConstraintsExtend(cs: seq<Decl>, cs2: seq<Decl>) {
    && |cs| <= |cs2| && cs2[..|cs|] == cs
    && forall i | |cs| <= i < |cs2| :: IsConstraint(cs2[i])
  }

  // ---------------------------------------------------------------------------
  // Primitives of the parser (their Go source is not part of this model)

  /** `consumeToken(ks...)`: succeeds iff the current token's kind is one of
      `ks`; the token becomes a leaf and the cursor moves past it. */
  function Consume(toks: seq<Token>, pos: nat, ks: set<Kind>): (r: Parse<Decl>)
    ensures r.Parsed? <==> pos < |toks| && toks[pos].kind in ks
    ensures r.Parsed? ==> r.value == NewDecl(toks[pos]) && r.next == pos + 1
    ensures r.Failed? ==> r.error == (if pos < |toks| then SyntaxError(pos) else UnexpectedEnd)
  {
    if pos >= |toks| then Failed(UnexpectedEnd)
    else if toks[pos].kind in ks then Parsed(NewDecl(toks[pos]), pos + 1)
    else Failed(SyntaxError(pos))
  }

  /** `isNext(k)`: a token follows the current one and has kind `k`. */
  predicate IsNext(toks: seq<Token>, pos: nat, k: Kind) {
    pos + 1 < |toks| && toks[pos + 1].kind == k
  }

  // ---------------------------------------------------------------------------
  // The grammar

  /** The optional `IF NOT EXISTS` after TABLE: no child, a bare IF, or the
      chain IF -> NOT -> EXISTS. */
  function IfNotExists(toks: seq<Token>, pos: nat): (r: Parse<seq<Decl>>)
    ensures r.Parsed? ==> pos <= r.next <= |toks| && |r.value| <= 1
    ensures r.Parsed? ==> (r.value == [] <==> r.next == pos)
    ensures pos < |toks| && toks[pos].kind == IfToken && IsNext(toks, pos, NotToken) ==>
      (r.Parsed? <==> pos + 2 < |toks| && toks[pos + 2].kind == ExistsToken)
  {
    if pos >= |toks| then Failed(UnexpectedEnd)
    else if toks[pos].kind != IfToken then Parsed([], pos)
    else
      var ifDecl := NewDecl(toks[pos]);
      if pos + 1 >= |toks| then Failed(UnexpectedEnd)
      else if toks[pos + 1].kind != NotToken then Parsed([ifDecl], pos + 1)
      else
        var notDecl := NewDecl(toks[pos + 1]);
        if pos + 2 >= |toks| then Failed(UnexpectedEnd)
        else if toks[pos + 2].kind != ExistsToken then Failed(SyntaxError(pos + 2))
        else Parsed([Add(ifDecl, Add(notDecl, NewDecl(toks[pos + 2])))], pos + 3)
  }

  /** One pass of the constraint loop (create.go lines 117-191) on a current
      token that is neither `)` nor `,`: the type and constraints after it. */
  function ConstraintStep(toks: seq<Token>, pos: nat, ty: Decl, cs: seq<Decl>): (r: Parse<(Decl, seq<Decl>)>)
    requires pos < |toks| && toks[pos].kind !in ColumnEnd
    ensures r.Parsed? ==> pos < r.next <= |toks|
  {
    var t := toks[pos];
    match t.kind
    case UniqueToken =>
      Parsed((ty, cs + [NewDecl(t)]), pos + 1)
    case NotToken =>
      if IsNext(toks, pos, NullToken) then
        Parsed((ty, cs + [Add(NewDecl(t), NewDecl(toks[pos + 1]))]), pos + 2)
      else Failed(NoProgress(pos))
    case PrimaryToken =>
      if !IsNext(toks, pos, KeyToken) then Failed(NoProgress(pos))
      else if pos + 2 >= |toks| then Failed(UnexpectedEnd)
      else Parsed((ty, cs + [Add(NewDecl(t), NewDecl(toks[pos + 1]))]), pos + 2)
    case AutoincrementToken =>
      Parsed((ty, cs + [NewDecl(t)]), pos + 1)
    case WithToken =>
      if !IsTimestamp(ty.lexeme) then Failed(NoProgress(pos))
      else
        var time :- Consume(toks, pos + 1, {TimeToken});
        var zone :- Consume(toks, time.next, {ZoneToken});
        Parsed((Add(ty, Add(NewDecl(t), Add(time.value, zone.value))), cs), zone.next)
    case DefaultToken =>
      var v :- Consume(toks, pos + 1, DefaultValueKinds);
      Parsed((ty, cs + [Add(NewDecl(t), v.value)]), v.next)
    case _ => Failed(SyntaxError(pos))
  }

  /** The constraint loop of one column (create.go lines 116-192), from `pos`
      with the type `ty` and the constraints `cs` collected so far.  It stops at
      the first `)` or `,`, which it does not consume. */
  function Constraints(toks: seq<Token>, pos: nat, ty: Decl, cs: seq<Decl>): (r: Parse<(Decl, seq<Decl>)>)
    decreases |toks| - pos
    ensures r.Parsed? ==> pos <= r.next < |toks| && toks[r.next].kind in ColumnEnd
  {
    if pos >= |toks| then Failed(UnexpectedEnd)
    else if toks[pos].kind in ColumnEnd then Parsed((ty, cs), pos)
    else
      var s :- ConstraintStep(toks, pos, ty, cs);
      Constraints(toks, s.next, s.value.0, s.value.1)
  }

  /** The column names of a composite primary key, each followed by `,` or
      `)`; stops after the first `)`.  The names are not kept. */
  function KeyNames(toks: seq<Token>, pos: nat): (r: Parse<()>)
    decreases |toks| - pos
    ensures r.Parsed? ==> pos + 2 <= r.next <= |toks| && toks[r.next - 1].kind == BracketClosingToken
  {
    var name :- Consume(toks, pos, NameKinds);
    var sep :- Consume(toks, name.next, ColumnEnd);
    if sep.value.kind == BracketClosingToken then Parsed((), sep.next)
    else KeyNames(toks, sep.next)
  }

  /** `parsePrimaryKey`: PRIMARY KEY ( name [, name]* ), giving PRIMARY -> KEY. */
  function PrimaryKey(toks: seq<Token>, pos: nat): (r: Parse<Decl>)
    ensures r.Parsed? ==> pos + 5 <= r.next <= |toks| && IsPair(r.value, PrimaryToken, KeyToken)
  {
    var primary :- Consume(toks, pos, {PrimaryToken});
    var key :- Consume(toks, primary.next, {KeyToken});
    var open :- Consume(toks, key.next, {BracketOpeningToken});
    var names :- KeyNames(toks, open.next);
    Parsed(Add(primary.value, key.value), names.next)
  }

  /** One column definition (create.go lines 100-192): its name, its type and
      its constraints, stopping before the `)` or `,` that ends it. */
  function Column(toks: seq<Token>, pos: nat): (r: Parse<Decl>)
    ensures r.Parsed? ==> pos < r.next < |toks| && toks[r.next].kind in ColumnEnd
  {
    var name :- Consume(toks, pos, NameKinds);
    var ty :- Consume(toks, name.next, NameKinds);
    var c :- Constraints(toks, ty.next, ty.value, []);
    Parsed(Decl(name.value.kind, name.value.lexeme, [c.value.0] + c.value.1), c.next)
  }

  /** The column loop of `parseTable` (create.go lines 82-204), from `pos`
      with the columns `cols` parsed so far. */
  function Columns(toks: seq<Token>, pos: nat, cols: seq<Decl>): (r: Parse<seq<Decl>>)
    requires pos <= |toks|
    decreases |toks| - pos
    ensures r.Parsed? ==> pos <= r.next <= |toks|
  {
    if pos == |toks| then Parsed(cols, pos)
    else if toks[pos].kind == PrimaryToken then
      var pk :- PrimaryKey(toks, pos);
      Columns(toks, pk.next, cols)
    else if toks[pos].kind == BracketClosingToken then Parsed(cols, pos + 1)
    else
      var c :- Column(toks, pos);
      if toks[c.next].kind == BracketClosingToken then Parsed(cols + [c.value], c.next + 1)
      else Columns(toks, c.next + 1, cols + [c.value])
  }

  /** The part of `parseTable` before the columns (create.go lines 46-82):
      the optional IF chain and the table name, with the position after `(`. */
  function TableHead(toks: seq<Token>, pos: nat): (r: Parse<seq<Decl>>)
    ensures r.Parsed? ==> pos < r.next < |toks|
  {
    var ifs :- IfNotExists(toks, pos);
    var name := Consume(toks, ifs.next, NameKinds);
    if name.Failed? then Failed(SyntaxError(ifs.next))
    else if !(name.next + 1 < |toks| && toks[name.next].kind == BracketOpeningToken) then
      Failed(MissingTableDefinition)
    else Parsed(ifs.value + [name.value], name.next + 1)
  }

  /** `parseTable`, with the cursor on TABLE. */
  function TableDef(toks: seq<Token>, pos: nat): (r: Parse<Decl>)
    requires pos < |toks|
    ensures r.Parsed? ==> pos < r.next <= |toks|
    ensures r.Parsed? ==> r.value.kind == toks[pos].kind && r.value.lexeme == toks[pos].lexeme
  {
    var table := NewDecl(toks[pos]);
    var head :- TableHead(toks, pos + 1);
    var cols :- Columns(toks, head.next, []);
    Parsed(table.(children := head.value + cols.value), cols.next)
  }

  /** `parseCreate`, with the cursor on CREATE. */
  function Create(toks: seq<Token>, pos: nat): (r: Parse<Instruction>)
    requires pos < |toks|
    ensures pos + 1 >= |toks| ==> r == Failed(MissingCreateTarget)
    ensures pos + 1 < |toks| && toks[pos + 1].kind != TableToken ==> r == Failed(UnsupportedCreate(pos + 1))
  {
    var create := NewDecl(toks[pos]);
    if pos + 1 >= |toks| then Failed(MissingCreateTarget)
    else if toks[pos + 1].kind != TableToken then Failed(UnsupportedCreate(pos + 1))
    else
      var table :- TableDef(toks, pos + 1);
      Parsed(Instruction([Add(create, table.value)]), table.next)
  }

  // ---------------------------------------------------------------------------
  // One pass of the column loop, stated case by case

  lemma ColumnsAtClose(toks: seq<Token>, pos: nat, cols: seq<Decl>)
    requires pos < |toks| && toks[pos].kind == BracketClosingToken
    ensures Columns(toks, pos, cols) == Parsed(cols, pos + 1)
  {
  }

  lemma ColumnsAtPrimaryKey(toks: seq<Token>, pos: nat, cols: seq<Decl>)
    requires pos < |toks| && toks[pos].kind == PrimaryToken
    ensures PrimaryKey(toks, pos).Failed? ==> Columns(toks, pos, cols) == Failed(PrimaryKey(toks, pos).error)
    ensures PrimaryKey(toks, pos).Parsed? ==>
      Columns(toks, pos, cols) == Columns(toks, PrimaryKey(toks, pos).next, cols)
  {
  }

  lemma ColumnsAtColumn(toks: seq<Token>, pos: nat, cols: seq<Decl>)
    requires pos < |toks| && toks[pos].kind !in {PrimaryToken, BracketClosingToken}
    ensures var c := Column(toks, pos);
      && (c.Failed? ==> Columns(toks, pos, cols) == Failed(c.error))
      && (c.Parsed? && toks[c.next].kind == BracketClosingToken ==>
            Columns(toks, pos, cols) == Parsed(cols + [c.value], c.next + 1))
      && (c.Parsed? && toks[c.next].kind != BracketClosingToken ==>
            Columns(toks, pos, cols) == Columns(toks, c.next + 1, cols + [c.value]))
  {
  }
}

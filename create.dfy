/**
 * engine/parser/create.go: the recursive-descent parser for CREATE TABLE.
 * A `Parser` holds the token sequence and one mutable cursor, `index`, that
 * every routine advances.  Each routine is proved to agree with its reference
 * function in `CreateGrammar`: same value, same error, and the cursor left
 * where the reference parse ends.
 */
module CreateParser {
  import opened Outcomes
  import opened ParserTypes
  import opened CreateGrammar

  /** A routine's outcome agrees with the reference parse `spec`: on success it
      returned the same value and left the cursor where `spec` ends; on failure
      it returned the same error. */
  ghost predicate Agrees<T>(spec: Parse<T>, v: T, err: Option<ParseError>, index: nat) {
    match spec
    case Parsed(x, n) => err == None && v == x && index == n
    case Failed(e) => err == Some(e)
  }

  class Parser {
    const tokens: seq<Token>
    var index: nat

    constructor (tokens: seq<Token>)
      ensures this.tokens == tokens && index == 0
    {
      this.tokens := tokens;
      index := 0;
    }

    // -------------------------------------------------------------------------
    // Primitives (assumed contracts; their Go source is not part of this model)

    /** `hasNext`: a token exists after the current one. */
    method HasNext() returns (b: bool)
      ensures b <==> index + 1 < |tokens|
    {
      b := index + 1 < |tokens|;
    }

    /** `cur`: the current token; the source indexes the slice, so the cursor
        must be on a token. */
    method Cur() returns (t: Token)
      requires index < |tokens|
      ensures t == tokens[index]
    {
      t := tokens[index];
    }

    /** `is(k)`: the current token has kind `k`. */
    method Is(k: Kind) returns (b: bool)
      requires index < |tokens|
      ensures b <==> tokens[index].kind == k
    {
      b := tokens[index].kind == k;
    }

    /** `isNot(ks...)`: the current token's kind is none of `ks`. */
    method IsNot(ks: set<Kind>) returns (b: bool)
      requires index < |tokens|
      ensures b <==> tokens[index].kind !in ks
    {
      b := tokens[index].kind !in ks;
    }

    /** `isNext(k)`: a token follows the current one and has kind `k`. */
    method IsNext(k: Kind) returns (b: bool)
      ensures b <==> CreateGrammar.IsNext(tokens, index, k)
    {
      b := index + 1 < |tokens| && tokens[index + 1].kind == k;
    }

    /** `next`: moves the cursor on by one if a further token exists. */
    method Next() returns (err: Option<ParseError>)
      modifies this
      ensures err == None <==> old(index) + 1 < |tokens|
      ensures index == if err == None then old(index) + 1 else old(index)
    {
      if index + 1 < |tokens| {
        index := index + 1;
        err := None;
      } else {
        err := Some(UnexpectedEnd);
      }
    }

    /** `consumeToken(ks...)`: see `CreateGrammar.Consume`. */
    method ConsumeToken(ks: set<Kind>) returns (d: Decl, err: Option<ParseError>)
      modifies this
      ensures Agrees(Consume(tokens, old(index), ks), d, err, index)
      ensures err != None ==> index == old(index)
    {
      d := Decl(OtherToken(0), "", []);
      if index >= |tokens| {
        err := Some(UnexpectedEnd);
      } else if tokens[index].kind in ks {
        d := NewDecl(tokens[index]);
        index := index + 1;
        err := None;
      } else {
        err := Some(ParseError.SyntaxError(index));
      }
    }

    /** `syntaxError`: an error naming the current position. */
    method SyntaxError() returns (e: ParseError)
      ensures e == ParseError.SyntaxError(index)
    {
      e := ParseError.SyntaxError(index);
    }

    /** `parseQuotedToken`: a column name; modelled as one name token. */
    method ParseQuotedToken() returns (d: Decl, err: Option<ParseError>)
      modifies this
      ensures Agrees(Consume(tokens, old(index), NameKinds), d, err, index)
      ensures err != None ==> index == old(index)
    {
      d, err := ConsumeToken(NameKinds);
    }

    /** `parseType`: a column type; modelled as one name token. */
    method ParseType() returns (d: Decl, err: Option<ParseError>)
      modifies this
      ensures Agrees(Consume(tokens, old(index), NameKinds), d, err, index)
      ensures err != None ==> index == old(index)
    {
      d, err := ConsumeToken(NameKinds);
    }

    /** `parseAttribute`: a table name; modelled as one name token. */
    method ParseAttribute() returns (d: Decl, err: Option<ParseError>)
      modifies this
      ensures Agrees(Consume(tokens, old(index), NameKinds), d, err, index)
      ensures err != None ==> index == old(index)
    {
      d, err := ConsumeToken(NameKinds);
    }

    // -------------------------------------------------------------------------
    // The grammar

    /** `parseCreate`, with the cursor on CREATE. */
    method ParseCreate() returns (i: Instruction, err: Option<ParseError>)
      requires index < |tokens|
      modifies this
      ensures Agrees(Create(tokens, old(index)), i, err, index)
    {
      i, err := Instruction([]), None;
      var createDecl := NewDecl(tokens[index]);

      var hasNext := HasNext();
      if !hasNext {
        return i, Some(MissingCreateTarget);
      }
      index := index + 1;

      if tokens[index].kind != TableToken {
        return i, Some(UnsupportedCreate(index));
      }
      var d, e := ParseTable();
      if e != None {
        return i, e;
      }
      createDecl := Add(createDecl, d);
      i := Instruction([createDecl]);
    }

    /** `parseTable`, with the cursor on TABLE. */
    method ParseTable() returns (tableDecl: Decl, err: Option<ParseError>)
      requires index < |tokens|
      modifies this
      ensures Agrees(TableDef(tokens, old(index)), tableDecl, err, index)
    {
      tableDecl := NewDecl(tokens[index]);
      index := index + 1;

      var head, e1 := ParseTableHead();
      if e1 != None {
        return tableDecl, e1;
      }
      tableDecl := tableDecl.(children := head);

      var cols, e2 := ParseColumns();
      if e2 != None {
        return tableDecl, e2;
      }
      tableDecl := tableDecl.(children := tableDecl.children + cols);
      err := None;
    }

    /** The part of `parseTable` before the columns (create.go lines 46-82):
        the optional IF chain and the table name, leaving the cursor after `(`. */
    method ParseTableHead() returns (head: seq<Decl>, err: Option<ParseError>)
      modifies this
      ensures Agrees(TableHead(tokens, old(index)), head, err, index)
    {
      // Maybe IF NOT EXISTS here.
      var ifs, ifErr := ParseIfNotExists();
      if ifErr != None {
        return ifs, ifErr;
      }

      // The table name; any failure here is reported as a syntax error.
      var nameTable, nameErr := ParseAttribute();
      if nameErr != None {
        var e := SyntaxError();
        return ifs, Some(e);
      }
      head := ifs + [nameTable];

      // The opening bracket, and at least one token after it.
      var hasNext := HasNext();
      if !hasNext || tokens[index].kind != BracketOpeningToken {
        return head, Some(MissingTableDefinition);
      }
      index := index + 1;
      err := None;
    }

    /** The column loop of `parseTable` (create.go lines 82-204): the columns
        in source order; a composite PRIMARY KEY clause adds none. */
    method ParseColumns() returns (cols: seq<Decl>, err: Option<ParseError>)
      requires index <= |tokens|
      modifies this
      ensures Agrees(Columns(tokens, old(index), []), cols, err, index)
    {
      cols, err := [], None;
      ghost var start := index;
      while index < |tokens|
        invariant start <= index <= |tokens| && err == None
        invariant Columns(tokens, start, []) == Columns(tokens, index, cols)
        decreases |tokens| - index
      {
        var t := Cur();
        if t.kind == PrimaryToken {
          var _, e := ParsePrimaryKey();
          if e != None {
            return cols, e;
          }
          continue;
        }

        // Closing bracket ends the table.
        if tokens[index].kind == BracketClosingToken {
          var _, _ := ConsumeToken({BracketClosingToken});
          break;
        }

        var column, e := ParseColumn();
        if e != None {
          return cols, e;
        }
        cols := cols + [column];

        // The current token is either a closing bracket or a comma.
        if tokens[index].kind == BracketClosingToken {
          index := index + 1;
          break;
        }
        index := index + 1;
      }
    }

    /** The optional IF NOT EXISTS of `parseTable` (create.go lines 46-67). */
    method ParseIfNotExists() returns (ifs: seq<Decl>, err: Option<ParseError>)
      modifies this
      ensures Agrees(IfNotExists(tokens, old(index)), ifs, err, index)
    {
      ifs, err := [], None;
      // `is` reads the current token.
      if index >= |tokens| {
        return ifs, Some(UnexpectedEnd);
      }
      var isIf := Is(IfToken);
      if !isIf {
        return;
      }
      var ifDecl, _ := ConsumeToken({IfToken});
      if index >= |tokens| {
        return ifs, Some(UnexpectedEnd);
      }
      var isNot := Is(NotToken);
      if !isNot {
        return [ifDecl], None;
      }
      var notDecl, _ := ConsumeToken({NotToken});
      if index >= |tokens| {
        return ifs, Some(UnexpectedEnd);
      }
      var isExists := Is(ExistsToken);
      if !isExists {
        var e := SyntaxError();
        return ifs, Some(e);
      }
      var existsDecl, _ := ConsumeToken({ExistsToken});
      ifs := [Add(ifDecl, Add(notDecl, existsDecl))];
    }

    /** One column definition of `parseTable` (create.go lines 100-192): a
        new attribute name, its type, then its constraints in any order. */
    method ParseColumn() returns (newAttribute: Decl, err: Option<ParseError>)
      modifies this
      ensures Agrees(Column(tokens, old(index)), newAttribute, err, index)
    {
      var e1, e2;
      newAttribute, e1 := ParseQuotedToken();
      if e1 != None {
        return newAttribute, e1;
      }
      var newAttributeType;
      newAttributeType, e2 := ParseType();
      if e2 != None {
        return newAttribute, e2;
      }
      var attributeType, constraints;
      attributeType, constraints, err := ParseConstraints(newAttributeType);
      if err != None {
        return;
      }
      newAttribute := Decl(newAttribute.kind, newAttribute.lexeme, [attributeType] + constraints);
    }

    /** The constraint loop of `parseTable` (create.go lines 116-192) for a
        column whose type is `ty0`: the type, with any WITH TIME ZONE chains
        attached, and the constraints in the order they were read. */
    method ParseConstraints(ty0: Decl) returns (ty: Decl, cs: seq<Decl>, err: Option<ParseError>)
      modifies this
      ensures Agrees(Constraints(tokens, old(index), ty0, []), (ty, cs), err, index)
    {
      ty, cs, err := ty0, [], None;
      ghost var start := index;
      while true
        invariant start <= index && err == None
        invariant Constraints(tokens, start, ty0, []) == Constraints(tokens, index, ty, cs)
        decreases |tokens| - index
      {
        // `isNot` reads the current token.
        if index >= |tokens| {
          return ty, cs, Some(UnexpectedEnd);
        }
        var more := IsNot(ColumnEnd);
        if !more {
          break;
        }
        ty, cs, err := ParseConstraint(ty, cs);
        if err != None {
          return;
        }
      }
    }

    /** One pass of the constraint loop (create.go lines 117-191), dispatching
        on the current token, for a column whose type is `ty` and whose
        constraints so far are `cs`. */
    method ParseConstraint(ty: Decl, cs: seq<Decl>) returns (ty2: Decl, cs2: seq<Decl>, err: Option<ParseError>)
      requires index < |tokens| && tokens[index].kind !in ColumnEnd
      modifies this
      ensures Agrees(ConstraintStep(tokens, old(index), ty, cs), (ty2, cs2), err, index)
    {
      ty2, cs2, err := ty, cs, None;
      var t := Cur();
      match t.kind {
        case UniqueToken =>
          var uniqueDecl, _ := ConsumeToken({UniqueToken});
          cs2 := cs + [uniqueDecl];
        case NotToken =>
          var nullNext := IsNext(NullToken);
          if !nullNext {
            // The source's loop consumes nothing here and never ends.
            return ty2, cs2, Some(NoProgress(index));
          }
          var notDecl, _ := ConsumeToken({NotToken});
          var nullDecl, _ := ConsumeToken({NullToken});
          cs2 := cs + [Add(notDecl, nullDecl)];
        case PrimaryToken =>
          var keyNext := IsNext(KeyToken);
          if !keyNext {
            // The source's loop consumes nothing here and never ends.
            return ty2, cs2, Some(NoProgress(index));
          }
          var newPrimary := NewDecl(tokens[index]);
          var _ := Next();  // KEY follows
          var newKey := NewDecl(tokens[index]);
          var e := Next();
          if e != None {
            return ty2, cs2, Some(UnexpectedEnd);
          }
          cs2 := cs + [Add(newPrimary, newKey)];
        case AutoincrementToken =>
          var autoincDecl, _ := ConsumeToken({AutoincrementToken});
          cs2 := cs + [autoincDecl];
        case WithToken =>
          if Lower(ty.lexeme) != "timestamp" {
            // The source's loop consumes nothing here and never ends.
            return ty2, cs2, Some(NoProgress(index));
          }
          var withDecl, _ := ConsumeToken({WithToken});
          var timeDecl, e1 := ConsumeToken({TimeToken});
          if e1 != None {
            return ty2, cs2, e1;
          }
          var zoneDecl, e2 := ConsumeToken({ZoneToken});
          if e2 != None {
            return ty2, cs2, e2;
          }
          ty2 := Add(ty, Add(withDecl, Add(timeDecl, zoneDecl)));
        case DefaultToken =>
          var dDecl, _ := ConsumeToken({DefaultToken});
          var vDecl, e := ConsumeToken(DefaultValueKinds);
          if e != None {
            return ty2, cs2, e;
          }
          cs2 := cs + [Add(dDecl, vDecl)];
        case _ =>
          // Unknown column constraint.
          var e := SyntaxError();
          return ty2, cs2, Some(e);
      }
    }

    /** `parsePrimaryKey`: PRIMARY KEY ( name [, name]* ). */
    method ParsePrimaryKey() returns (primaryDecl: Decl, err: Option<ParseError>)
      modifies this
      ensures Agrees(PrimaryKey(tokens, old(index)), primaryDecl, err, index)
    {
      primaryDecl, err := ConsumeToken({PrimaryToken});
      if err != None {
        return;
      }
      var keyDecl;
      keyDecl, err := ConsumeToken({KeyToken});
      if err != None {
        return;
      }
      primaryDecl := Add(primaryDecl, keyDecl);

      var _, e := ConsumeToken({BracketOpeningToken});
      if e != None {
        return primaryDecl, e;
      }

      ghost var start := index;
      while true
        invariant start <= index <= |tokens|
        invariant KeyNames(tokens, start) == KeyNames(tokens, index)
        decreases |tokens| - index
      {
        var _, e1 := ParseQuotedToken();
        if e1 != None {
          return primaryDecl, e1;
        }
        var d, e2 := ConsumeToken(ColumnEnd);
        if e2 != None {
          return primaryDecl, e2;
        }
        if d.kind == BracketClosingToken {
          break;
        }
      }
    }
  }
}

# CREATE TABLE in ramsql, modelled in Dafny

This project models the schema-definition front end of the ramsql embedded
SQL engine. It has two parts.

- **The recursive-descent parser for `CREATE TABLE`** (`engine/parser/create.go`).
  It turns a token sequence into a generic declaration tree (`Decl`). The
  tree holds the optional `IF NOT EXISTS` chain, the table name, and one
  node per column. Each column node has its type first, then its
  constraints: `UNIQUE`, `NOT NULL`, `PRIMARY KEY`, `AUTOINCREMENT`, `DEFAULT`.
  `WITH TIME ZONE` hangs under a `timestamp` type.
- **The table value and `createTableExecutor`** (`engine/table.go`). The
  executor turns a parsed table declaration into a catalog entry.

Modules:

- `ParserTypes` (`tokens.dfy`): tokens, the `Decl` tree and instructions.
- `CreateGrammar` (`create_grammar.dfy`): the grammar as pure reference
  functions over a token sequence and a position. Each returns the value
  built and the position after it, or the error.
- `CreateParser` (`create.dfy`): the parser as a class with a mutable
  cursor, `index`. `parseCreate` and `parsePrimaryKey` each become one
  method. The single routine `parseTable` is split into `ParseTable`,
  `ParseTableHead`, `ParseIfNotExists`, `ParseColumns`, `ParseColumn`,
  `ParseConstraints` and `ParseConstraint`, one per stage of its body. Each
  method is proved to agree with its reference function: the same value,
  the same error, and the cursor left where the reference parse ends.
- `GrammarShapes` (`create_shapes.dfy`): the shape of every tree the
  grammar can build.
- `CreateErrors` (`create_errors.dfy`): which error each malformed
  construct produces, and which near misses are accepted.
- `CreateSpelling` and `CreateRoundTrip` (`create_render.dfy`,
  `create_roundtrip.dfy`): the converse of the shape lemmas. Spell out a
  tree of the right shape as tokens, and the grammar parses exactly that
  tree back and stops right after it.
- `Engine` (`table.dfy`):
  - the `Table` class, with its alias rules and printing;
  - the lookup by alias;
  - `createTableExecutor`, as a method on an `Engine` class that owns the
    catalog of relations, proved against the pure function `CreateTable`.

## Model

| member | source | states |
|---|---|---|
| CreateParser.Parser.ParseCreate | engine/parser/create.go:8-37 | ends exactly as `Create` does: the same instruction or error, with the cursor where the reference parse stops |
| CreateParser.Parser.ParseTable | engine/parser/create.go:39-207 | ends exactly as `TableDef` does, from the cursor on TABLE |
| CreateParser.Parser.ParseTableHead | engine/parser/create.go:44-80 | ends exactly as `TableHead` does, leaving the cursor after `(` |
| CreateParser.Parser.ParseIfNotExists | engine/parser/create.go:44-67 | ends exactly as `IfNotExists` does |
| CreateParser.Parser.ParseColumns | engine/parser/create.go:82-204 | the column loop ends exactly as `Columns` does: the columns in source order, and no column for a composite key clause |
| CreateParser.Parser.ParseColumn | engine/parser/create.go:100-192 | ends exactly as `Column` does: a name, its type, then its constraints |
| CreateParser.Parser.ParseConstraints | engine/parser/create.go:114-192 | the constraint loop ends exactly as `Constraints` does |
| CreateParser.Parser.ParseConstraint | engine/parser/create.go:117-191 | one pass of the constraint loop ends exactly as `ConstraintStep` does |
| CreateParser.Parser.ParsePrimaryKey | engine/parser/create.go:209-242 | ends exactly as `PrimaryKey` does |
| CreateGrammar.Create | engine/parser/create.go:8-37 | fails with MissingCreateTarget when no token follows CREATE, and with UnsupportedCreate when that token is not TABLE |
| CreateGrammar.IfNotExists | engine/parser/create.go:44-67 | takes at most one node, and takes one exactly when it consumes tokens; after `IF NOT` it succeeds iff EXISTS follows |
| CreateGrammar.ConstraintStep | engine/parser/create.go:117-191 | a successful pass consumes at least one token |
| CreateGrammar.Constraints | engine/parser/create.go:116-192 | a successful loop stops on a `)` or `,`, which it does not consume |
| CreateGrammar.KeyNames | engine/parser/create.go:226-239 | reads at least two tokens and stops right after a `)`; which lists it accepts is stated by KeyNamesShape and KeyNamesRoundTrip |
| CreateGrammar.KeyListCons | engine/parser/create.go:226-239 | a key list of two or more names is exactly a name and `,` in front of a shorter key list |
| CreateGrammar.PrimaryKey | engine/parser/create.go:209-242 | a composite key clause spans at least five tokens and yields PRIMARY -> KEY |
| CreateGrammar.Column | engine/parser/create.go:100-192 | a column stops before the `)` or `,` that ends it |
| CreateGrammar.Columns | engine/parser/create.go:82-204 | the column loop never moves backwards and never runs past the tokens |
| CreateGrammar.TableHead | engine/parser/create.go:44-80 | on success at least one token follows the `(` |
| CreateGrammar.TableDef | engine/parser/create.go:39-207 | the table node is the TABLE token, and the parse moves forward |
| CreateGrammar.ColumnsAtClose | engine/parser/create.go:94-98 | a `)` ends the column loop, consuming it and adding nothing |
| CreateGrammar.ColumnsAtPrimaryKey | engine/parser/create.go:84-90 | a composite key clause is skipped, or its error ends the loop |
| CreateGrammar.ColumnsAtColumn | engine/parser/create.go:100-203 | a column is appended; then `)` ends the loop and `,` continues it |
| GrammarShapes.IfNotExistsShape | engine/parser/create.go:44-67 | what IF NOT EXISTS yields is a bare IF or the chain IF -> NOT -> EXISTS |
| GrammarShapes.ConstraintStepShape | engine/parser/create.go:117-191 | one pass appends exactly one node: a WITH TIME ZONE chain under a timestamp type, or one constraint to the list |
| GrammarShapes.ConstraintsShape | engine/parser/create.go:116-192 | the whole constraint loop only appends, as each pass does |
| GrammarShapes.ColumnShape | engine/parser/create.go:100-192 | a parsed column is a name whose first child is its type and whose other children are constraints |
| GrammarShapes.ColumnsShape | engine/parser/create.go:82-204 | the column loop keeps the columns read so far and appends only columns |
| GrammarShapes.ColumnShapeInLoop | engine/parser/create.go:100-203 | a column definition inside the loop appends only columns |
| GrammarShapes.KeyNamesShape | engine/parser/create.go:226-239 | an accepted key list is names, each followed by `,` except the last, which is followed by `)`, and nothing else |
| GrammarShapes.PrimaryKeyShape | engine/parser/create.go:209-239 | an accepted composite key clause is PRIMARY, KEY, `(`, then such a key list |
| GrammarShapes.TableHeadShape | engine/parser/create.go:44-80 | the head is an optional IF chain followed by the table name |
| GrammarShapes.TableDefShape | engine/parser/create.go:39-207 | a parsed table is TABLE over an optional IF chain, its name, and then only columns (their order is proved by TableRoundTrip) |
| GrammarShapes.CreateShape | engine/parser/create.go:8-37 | a parsed statement is one CREATE node whose only child is a table declaration |
| CreateErrors.IfNotExistsCases | engine/parser/create.go:44-67 | a bare IF is kept and the parse goes on after it; IF NOT without EXISTS is a syntax error at the third token; IF NOT EXISTS becomes the chain |
| CreateErrors.TableNameError | engine/parser/create.go:69-73 | any failure to read the table name is a syntax error at the name's position |
| CreateErrors.TableDefinitionMissing | engine/parser/create.go:76-79 | a name that is not followed by `(` and one further token fails with MissingTableDefinition |
| CreateErrors.UnknownConstraint | engine/parser/create.go:188-190 | any token that starts no constraint is a syntax error at that token |
| CreateErrors.DefaultValue | engine/parser/create.go:177-187 | DEFAULT takes one FALSE, STRING, NUMBER or LOCALTIMESTAMP token as its only child; any other kind is a syntax error at the value |
| CreateErrors.WithTimeZone | engine/parser/create.go:159-176 | WITH is taken only after a timestamp type; the chain goes under the type and the constraints stay as they were |
| CreateErrors.IncompleteConstraint | engine/parser/create.go:124-152 | NOT without NULL and PRIMARY without KEY consume nothing (the source's loop spins there) |
| CreateErrors.KeyNamesStopAtFirstClose | engine/parser/create.go:226-239 | the key's names end at the first `)` |
| CreateErrors.EmptyKeyList | engine/parser/create.go:221-230 | `PRIMARY KEY ()` is a syntax error at the `)` |
| CreateErrors.CompositeKeyDropped | engine/parser/create.go:84-90 | a composite key clause is read and dropped: the columns are those parsed from after it |
| CreateRoundTrip.ConstraintRoundTrip | engine/parser/create.go:117-187 | a spelled-out constraint is one pass that appends exactly that constraint |
| CreateRoundTrip.ConstraintListRoundTrip | engine/parser/create.go:116-192 | spelled-out constraints before `)` or `,` are appended in order, and the loop stops at that token |
| CreateRoundTrip.WithRoundTrip | engine/parser/create.go:159-176 | a spelled-out WITH TIME ZONE after a timestamp type is one pass that attaches the chain under the type |
| CreateRoundTrip.ColumnTailRoundTrip | engine/parser/create.go:116-192 | spelled-out chains then constraints: the chains end up under the type and the constraints in the list, each in order |
| CreateRoundTrip.ColumnRoundTrip | engine/parser/create.go:100-192 | a spelled-out column parses back to the same column |
| CreateRoundTrip.LastColumnRoundTrip | engine/parser/create.go:194-199 | the last column, followed by `)`, is appended and the loop ends after the `)` |
| CreateRoundTrip.NextColumnRoundTrip | engine/parser/create.go:202-203 | a column followed by `,` is appended in front of the columns after it |
| CreateRoundTrip.ColumnThenComma | engine/parser/create.go:100-203 | a spelled-out column followed by `,` is appended and the loop goes on after the comma |
| CreateRoundTrip.KeyNamesRoundTrip | engine/parser/create.go:226-239 | every key list of n names is accepted and ends after its 2n tokens |
| CreateRoundTrip.PrimaryKeyRoundTrip | engine/parser/create.go:209-242 | every clause PRIMARY KEY `(` key list is accepted, spans 3 + 2n tokens and yields PRIMARY -> KEY |
| CreateRoundTrip.ColumnsRoundTrip | engine/parser/create.go:82-204 | spelled-out columns separated by commas and closed by `)` are all appended in order, and the loop stops after the `)` |
| CreateRoundTrip.IfChainRoundTrip | engine/parser/create.go:44-67 | a spelled-out IF chain parses back to that chain |
| CreateRoundTrip.TableHeadRoundTrip | engine/parser/create.go:44-80 | a spelled-out head parses back to the table's leading children |
| CreateRoundTrip.TableRoundTrip | engine/parser/create.go:39-207 | a spelled-out table declaration parses back to itself, stopping right after its `)` |
| CreateRoundTrip.CreateOverTable | engine/parser/create.go:8-37 | CREATE over a spelled-out table parses back to one CREATE node over that table |
| CreateRoundTrip.InstructionRoundTrip | engine/parser/create.go:8-37 | a spelled-out statement parses back to the same instruction |
| CreateRoundTrip.CreateRoundTrip | engine/parser/create.go:8-37 | every instruction that parsing can yield, spelled out, parses back to itself, stopping right after the table's `)` |
| Engine.JoinedConcat | engine/table.go:60-71 | printing two attribute lists one after the other puts " \| " between them and nowhere else |
| Engine.JoinedBothWays | engine/table.go:60-71 | the printed attribute list reads the same built from the back or from the front |
| Engine.Table.String | engine/table.go:60-71 | the name, " (", the attributes as `name typeName` separated by " \| ", then ")" |
| Engine.Table.constructor | engine/table.go:19-25 | `NewTable`: the given name, no alias, no attributes |
| Engine.Table.WithAlias | engine/table.go:28-35 | `NewTableWithAlias`: the given name and alias, no attributes |
| Engine.Table.FromDecl | engine/table.go:37-43 | named after the declaration, and aliased only by an AS first child; it requires a child under that first AS child only |
| Engine.Table.AddAttribute | engine/table.go:47-50 | always succeeds; appends the attribute after the others and checks no names |
| Engine.Table.Alias | engine/table.go:52-57 | the alias when there is one, else the name |
| Engine.ByAlias | engine/table.go:75-82 | finds a table iff some table goes by the alias, and returns the first one in order; otherwise null |
| Engine.TableAlias | engine/table.go:135-142 | the alias under the first AS child anywhere, or "" when there is no AS child |
| Engine.DeclAliasAgrees | engine/table.go:37-43 | when the first child is AS, `NewTableFromDecl` and `tableAlias` give the same alias; otherwise `NewTableFromDecl` gives no alias |
| Engine.DeclAliasMissesLaterAlias | engine/table.go:37-43 | for every declaration whose first AS child is at a position past 0, `NewTableFromDecl` gives no alias while `tableAlias` gives that child's alias |
| Engine.RunHandlers | engine/table.go:91-104 | the handlers of the leading children all succeed up to the first child without a handler; or the error is the failure of the first handler that fails, every earlier child having a handler that succeeded |
| Engine.ConvertAll | engine/table.go:115-128 | succeeds iff every column converts, with one attribute per column in order; otherwise fails with the first failure |
| Engine.CreateTable | engine/table.go:84-133 | an empty declaration is malformed, and a created table's name was not in the catalog |
| Engine.RecreateRefused | engine/table.go:106-110 | once a table is created, creating it again is refused with TableExists |
| Engine.CreateParsedTable | engine/table.go:84-133 | a parsed table declaration is created under its own name with one attribute per column in order, or refused if the name exists |
| Engine.Conn.WriteResult | engine/table.go:131 | records the result sent, after the earlier ones |
| Engine.Engine.CreateTableExecutor | engine/table.go:84-133 | on success the catalog gains one fresh relation under the table's name, with the converted columns as attributes, and (0, 1) is written once; on any failure neither the catalog nor the connection changes |
| Engine.Engine.RunLeadingHandlers | engine/table.go:91-104 | the handler loop ends as `RunHandlers` does |
| Engine.Engine.AddAttributes | engine/table.go:115-128 | the attribute loop appends what `ConvertAll` yields, or stops with its first failure |

## Left out

- The tokenizer, and the parser primitives whose source is not part of this model: `consumeToken`, `is`, `isNot`, `isNext`, `hasNext`, `next`, `cur` and `syntaxError`. Each is given the small contract its use implies.
- CreateParser.Parser.ParseQuotedToken, CreateParser.Parser.ParseType, CreateParser.Parser.ParseAttribute: each is modelled as reading one STRING token. Quoted names, sized types such as `VARCHAR(255)`, and qualified or aliased table names are not modelled, since their source is not part of this model.
- Constraint-loop inputs that never end: `NOT` without `NULL`, `PRIMARY` without `KEY`, and `WITH` after a type that is not `timestamp` consume nothing, so the source loops forever. The model returns the error `NoProgress` at that position instead.
- Reading past the last token: the source would panic by indexing the token slice. The model reports `UnexpectedEnd`.
- `Decl` is a value built bottom-up. The source adds children to nodes already attached to the tree. On any error it discards the whole tree, so the finished tree is the same. Aliasing between `Decl` pointers is not modelled.
- Lower-casing in the timestamp check covers ASCII letters only.
- CreateRoundTrip.CreateRoundTrip covers trees without a composite primary key clause. The grammar drops that clause, so no tree records it. `PrimaryKeyRoundTrip` states that every such clause is accepted, and `CompositeKeyDropped` states that the column loop then goes on as if it were absent.
- Error messages are error variants, not text.
- `opsExecutors` handlers and the engine-side `parseAttribute` are given functions, fixed when the engine is built. Their effects on the engine or the connection, if any, are not modelled. `NewRelation` is a relation that holds the table; rows are not modelled.
- `protocol.EngineConn` keeps only the list of results written to it.
- Engine.TableAlias: requires that the first AS child among the children has a child of its own. `tableAlias` reads that child without a check and would panic otherwise.
- Engine.Table.FromDecl: requires a child under the first child only when that first child is AS. `NewTableFromDecl` reads that child without a check and would panic otherwise.
- Engine.CreateTable: when every leading child has a handler, no name is left. The source would index past the children; the model reports `MissingTableName`.
- Locking and concurrent sessions: no locking appears in this code.

Behaviours of the code that the model keeps as written:

- A bare `IF` without `NOT` is accepted. It is kept as a leaf and parsing goes on to the table name.
- `WITH` after a type that is not `timestamp` is not a syntax error. The loop makes no progress there (see `NoProgress` above).
- A composite `PRIMARY KEY (...)` clause keeps only PRIMARY -> KEY. The caller drops even that, and the column names are not kept.
- The column loop also ends, successfully, when the tokens run out. A closing `)` is not required.
- `IF NOT EXISTS` does not stop a duplicate table from being refused unless its handler fails. `RecreateRefused` holds for any handlers.

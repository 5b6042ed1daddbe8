/**
 * engine/table.go: the table schema that CREATE TABLE adds to the engine's
 * catalog, the lookup of a table by alias, and `createTableExecutor`, which
 * turns a parsed table declaration into a catalog entry.
 *
 * The handlers the engine registers per token kind (`opsExecutors`) and the
 * engine-side conversion of a column declaration into an attribute are
 * defined outside this file; they are modelled as given functions that may
 * fail, fixed when the engine is built.
 */
module Engine {
  import opened Outcomes
  import opened ParserTypes
  import opened CreateGrammar

  /** A column of a table: its name and the name of its type. */
  datatype Attribute = Attribute(name: string, typeName: string)

  // ---------------------------------------------------------------------------
  // How a table is printed

  /** One attribute as `String` prints it: its name, a space, its type. */
  function AttributeText(a: Attribute): string {
    a.name + " " + a.typeName
  }

  /** The attributes as `String` prints them, separated by " | ", in the
      order the printing loop visits them. */
  function Joined(attrs: seq<Attribute>): string
    decreases |attrs|
  {
    if attrs == [] then ""
    else if |attrs| == 1 then AttributeText(attrs[0])
    else Joined(attrs[..|attrs| - 1]) + " | " + AttributeText(attrs[|attrs| - 1])
  }

  /** The same text read from the front: the first attribute, then " | " and
      the rest. */
  function JoinedFromFront(attrs: seq<Attribute>): string
    decreases attrs
  {
    if attrs == [] then ""
    else if |attrs| == 1 then AttributeText(attrs[0])
    else AttributeText(attrs[0]) + " | " + JoinedFromFront(attrs[1..])
  }

  /** Printing two non-empty lists one after the other is printing their
      concatenation: " | " goes between them and nowhere else. */
  lemma {:induction false} JoinedConcat(xs: seq<Attribute>, ys: seq<Attribute>)
    requires xs != [] && ys != []
    decreases |ys|
    ensures Joined(xs + ys) == Joined(xs) + " | " + Joined(ys)
  {
    var zs := xs + ys;
    var last := ys[|ys| - 1];
    assert zs[|zs| - 1] == last;
    if |ys| == 1 {
      assert zs[..|zs| - 1] == xs;
    } else {
      var init := ys[..|ys| - 1];
      assert zs[..|zs| - 1] == xs + init;
      JoinedConcat(xs, init);
      assert Joined(ys) == Joined(init) + " | " + AttributeText(last);
      calc {
        Joined(zs);
        Joined(xs + init) + " | " + AttributeText(last);
        Joined(xs) + " | " + Joined(init) + " | " + AttributeText(last);
        Joined(xs) + " | " + (Joined(init) + " | " + AttributeText(last));
      }
    }
  }

  /** Both readings of the attribute list give the same text. */
  lemma {:induction false} JoinedBothWays(attrs: seq<Attribute>)
    decreases attrs
    ensures Joined(attrs) == JoinedFromFront(attrs)
  {
    if |attrs| > 1 {
      var rest := attrs[1..];
      JoinedBothWays(rest);
      JoinedConcat([attrs[0]], rest);
      assert [attrs[0]] + rest == attrs;
    }
  }

  // ---------------------------------------------------------------------------
  // Aliases in a table declaration

  /** No child before position `i` is an AS declaration. */
  predicate NoAliasBefore(ds: seq<Decl>, i: nat)
    requires i <= |ds|
  {
    forall j | 0 <= j < i :: ds[j].kind != AsToken
  }

  /** The first AS child, if there is one, names its alias in a child of its
      own (the source reads that child without checking it exists). */
  predicate AliasNamed(ds: seq<Decl>)
    decreases ds
  {
    ds == [] || (if ds[0].kind == AsToken then ds[0].children != [] else AliasNamed(ds[1..]))
  }

  /** `tableAlias`: the alias given by the first AS child anywhere among `ds`,
      or "" when there is none. */
  function TableAlias(ds: seq<Decl>): (r: string)
    requires AliasNamed(ds)
    decreases ds
    ensures NoAliasBefore(ds, |ds|) ==> r == ""
    ensures forall i | 0 <= i < |ds| && ds[i].kind == AsToken && NoAliasBefore(ds, i) ::
      ds[i].children != [] && r == ds[i].children[0].lexeme
  {
    if ds == [] then ""
    else if ds[0].kind == AsToken then ds[0].children[0].lexeme
    else
      var r := TableAlias(ds[1..]);
      assert forall i | 1 <= i <= |ds| :: NoAliasBefore(ds, i) ==> NoAliasBefore(ds[1..], i - 1);
      r
  }

  /** An AS declaration in first place names its alias in a child of its
      own (`NewTableFromDecl` reads that child without checking it exists). */
  predicate FirstAliasNamed(d: Decl) {
    d.children != [] && d.children[0].kind == AsToken ==> d.children[0].children != []
  }

  /** The alias `NewTableFromDecl` takes: the first child's own first child,
      and only when that first child is an AS declaration. */
  function DeclAlias(d: Decl): string
    requires FirstAliasNamed(d)
  {
    if d.children != [] && d.children[0].kind == AsToken then d.children[0].children[0].lexeme else ""
  }

  /** `NewTableFromDecl` and `tableAlias` agree whenever the declaration
      starts with its alias, and `NewTableFromDecl` sees no alias otherwise. */
  lemma DeclAliasAgrees(d: Decl)
    requires FirstAliasNamed(d)
    ensures d.children != [] && d.children[0].kind == AsToken ==>
      AliasNamed(d.children) && DeclAlias(d) == TableAlias(d.children)
    ensures !(d.children != [] && d.children[0].kind == AsToken) ==> DeclAlias(d) == ""
  {
    if d.children != [] && d.children[0].kind == AsToken {
      assert NoAliasBefore(d.children, 0);
    }
  }

  /** ... but an alias that is not the first child is seen only by
      `tableAlias`: `NewTableFromDecl` gives such a declaration no alias. */
  lemma DeclAliasMissesLaterAlias(d: Decl, i: nat)
    requires 0 < i < |d.children| && d.children[i].kind == AsToken && d.children[i].children != []
    requires NoAliasBefore(d.children, i)
    ensures FirstAliasNamed(d) && AliasNamed(d.children)
    ensures DeclAlias(d) == ""
    ensures TableAlias(d.children) == d.children[i].children[0].lexeme
  {
    AliasNamedAt(d.children, i);
  }

  /** The first AS child at `i` having a child is all `AliasNamed` asks. */
  lemma {:induction false} AliasNamedAt(ds: seq<Decl>, i: nat)
    requires i < |ds| && ds[i].kind == AsToken && ds[i].children != []
    requires NoAliasBefore(ds, i)
    decreases i
    ensures AliasNamed(ds)
  {
    if i > 0 {
      assert NoAliasBefore(ds[1..], i - 1);
      AliasNamedAt(ds[1..], i - 1);
    }
  }

  // ---------------------------------------------------------------------------
  // Tables

  /** A table: a name, an optional alias and its attributes in order. */
  class Table {
    const name: string
    const alias: string
    var attributes: seq<Attribute>

    /** `NewTable`. */
    constructor (name: string)
      ensures this.name == name && alias == "" && attributes == []
    {
      this.name := name;
      alias := "";
      attributes := [];
    }

    /** `NewTableWithAlias`. */
    constructor WithAlias(name: string, alias: string)
      ensures this.name == name && this.alias == alias && attributes == []
    {
      this.name := name;
      this.alias := alias;
      attributes := [];
    }

    /** `NewTableFromDecl`: named after the declaration, aliased by it only
        when its first child is an AS declaration. */
    constructor FromDecl(d: Decl)
      requires FirstAliasNamed(d)
      ensures name == d.lexeme && alias == DeclAlias(d) && attributes == []
    {
      name := d.lexeme;
      if d.children != [] && d.children[0].kind == AsToken {
        alias := d.children[0].children[0].lexeme;
      } else {
        alias := "";
      }
      attributes := [];
    }

    /** `AddAttribute`: always succeeds, appending `attr` after the attributes
        already there; names are not checked for duplicates. */
    method AddAttribute(attr: Attribute) returns (err: Option<ExecError>)
      modifies this
      ensures err == None
      ensures attributes == old(attributes) + [attr]
    {
      attributes := attributes + [attr];
      err := None;
    }

    /** `Alias`: the name the table goes by, its alias when it has one. */
    function Alias(): (r: string)
      ensures alias != "" ==> r == alias
      ensures alias == "" ==> r == name
    {
      if alias == "" then name else alias
    }

    /** `String`: the name, " (", the attributes separated by " | ", ")". */
    method String() returns (s: string)
      ensures s == name + " (" + Joined(attributes) + ")"
    {
      s := name + " (";
      var i := 0;
      while i < |attributes|
        invariant 0 <= i <= |attributes|
        invariant s == name + " (" + Joined(attributes[..i])
      {
        assert attributes[..i + 1][..i] == attributes[..i];
        if i != 0 {
          s := s + " | ";
        }
        s := s + attributes[i].name + " " + attributes[i].typeName;
        i := i + 1;
      }
      assert attributes[..i] == attributes;
      s := s + ")";
    }
  }

  /** `Tables.ByAlias`: the first table, in order, that goes by `alias`. */
  method ByAlias(tables: seq<Table>, alias: string) returns (t: Table?, found: bool)
    ensures found <==> exists i | 0 <= i < |tables| :: tables[i].Alias() == alias
    ensures found ==> exists i | 0 <= i < |tables| ::
      (t == tables[i] && tables[i].Alias() == alias && forall j | 0 <= j < i :: tables[j].Alias() != alias)
    ensures !found ==> t == null
  {
    var i := 0;
    while i < |tables|
      invariant 0 <= i <= |tables|
      invariant forall j | 0 <= j < i :: tables[j].Alias() != alias
    {
      if tables[i].Alias() == alias {
        return tables[i], true;
      }
      i := i + 1;
    }
    return null, false;
  }

  // ---------------------------------------------------------------------------
  // Creating a table in the catalog

  /** Why `createTableExecutor` refused a declaration. */
  datatype ExecError =
    | MalformedQuery              // the table declaration has no children
    | MissingTableName            // every child was taken by a handler
    | HandlerFailed(reason: string)   // a handler for a leading child failed
    | TableExists(name: string)   // the catalog already holds this name
    | AttributeFailed(reason: string) // a column could not become an attribute

  /** A handler the engine registers for a token kind (IF, say); it fails with a reason. */
  type Handler = Decl -> Option<string>

  /** The engine-side conversion of a column declaration into an attribute. */
  type Converter = Decl -> Result<Attribute, string>

  /** A table with data; its rows are not part of this model. */
  datatype Relation = Relation(table: Table)

  /** Runs the handlers of the leading children of `ds` from `i` on, stopping
      at the first child whose kind has no handler: the index of that child,
      or the failure of the first handler that fails, every child before it
      having a handler that succeeded. */
  function RunHandlers(handlers: map<Kind, Handler>, ds: seq<Decl>, i: nat): (r: Result<nat, ExecError>)
    requires i <= |ds|
    decreases |ds| - i
    ensures r.Ok? ==> i <= r.value <= |ds| && (r.value < |ds| ==> ds[r.value].kind !in handlers)
    ensures r.Ok? ==> forall j | i <= j < r.value :: ds[j].kind in handlers && handlers[ds[j].kind](ds[j]) == None
    ensures r.Err? ==> exists j | i <= j < |ds| ::
      && ds[j].kind in handlers && handlers[ds[j].kind](ds[j]).Some?
      && r.error == HandlerFailed(handlers[ds[j].kind](ds[j]).value)
      && forall k | i <= k < j :: ds[k].kind in handlers && handlers[ds[k].kind](ds[k]) == None
  {
    if i == |ds| || ds[i].kind !in handlers then Ok(i)
    else
      match handlers[ds[i].kind](ds[i])
      case Some(reason) => Err(HandlerFailed(reason))
      case None => RunHandlers(handlers, ds, i + 1)
  }

  /** Converts every column declaration, in order; the first failure wins. */
  function ConvertAll(convert: Converter, ds: seq<Decl>): (r: Result<seq<Attribute>, ExecError>)
    decreases ds
    ensures r.Ok? <==> forall j | 0 <= j < |ds| :: convert(ds[j]).Ok?
    ensures r.Ok? ==> |r.value| == |ds| && forall j | 0 <= j < |ds| :: convert(ds[j]) == Ok(r.value[j])
    ensures r.Err? ==> exists j | 0 <= j < |ds| ::
      convert(ds[j]).Err? && r.error == AttributeFailed(convert(ds[j]).error) &&
      forall k | 0 <= k < j :: convert(ds[k]).Ok?
  {
    if ds == [] then Ok([])
    else
      match convert(ds[0])
      case Err(reason) => Err(AttributeFailed(reason))
      case Ok(a) =>
        var rest := ConvertAll(convert, ds[1..]);
        assert forall j | 1 <= j < |ds| :: ds[1..][j - 1] == ds[j];
        if rest.Err? then
          Err(rest.error)
        else
          Ok([a] + rest.value)
  }

  /** What `createTableExecutor` does to a catalog holding the names
      `existing`: the name and attributes of the table it adds, or why it
      refuses. */
  function CreateTable(existing: set<string>, handlers: map<Kind, Handler>, convert: Converter, t: Decl)
    : (r: Result<(string, seq<Attribute>), ExecError>)
    ensures t.children == [] ==> r == Err(MalformedQuery)
    ensures r.Ok? ==> r.value.0 !in existing
  {
    if t.children == [] then Err(MalformedQuery)
    else
      var i :- RunHandlers(handlers, t.children, 0);
      if i == |t.children| then Err(MissingTableName)
      else
        var name := t.children[i].lexeme;
        if name in existing then Err(TableExists(name))
        else
          var attrs :- ConvertAll(convert, t.children[i + 1..]);
          Ok((name, attrs))
  }

  /** Once a table has been created, creating it again is refused. */
  lemma RecreateRefused(existing: set<string>, handlers: map<Kind, Handler>, convert: Converter, t: Decl)
    requires CreateTable(existing, handlers, convert, t).Ok?
    ensures var name := CreateTable(existing, handlers, convert, t).value.0;
      CreateTable(existing + {name}, handlers, convert, t) == Err(TableExists(name))
  {
  }

  /** A table declaration as the parser builds it is created under its own
      name with one attribute per column, in order, provided the IF handler
      lets it through, no handler is registered for names and every column
      converts. */
  lemma CreateParsedTable(existing: set<string>, handlers: map<Kind, Handler>, convert: Converter, t: Decl)
    requires IsTable(t)
    requires StringToken !in handlers
    requires IfCount(t) == 1 ==> IfToken in handlers && handlers[IfToken](t.children[0]) == None
    requires forall i | IfCount(t) < i < |t.children| :: convert(t.children[i]).Ok?
    ensures var k := IfCount(t);
      var name := t.children[k].lexeme;
      var r := CreateTable(existing, handlers, convert, t);
      && (name in existing ==> r == Err(TableExists(name)))
      && (name !in existing ==>
            && r.Ok? && r.value.0 == name && |r.value.1| == |t.children| - k - 1
            && forall j | 0 <= j < |r.value.1| :: convert(t.children[k + 1 + j]) == Ok(r.value.1[j]))
  {
    var k := IfCount(t);
    var ds := t.children;
    if k == 1 {
      assert RunHandlers(handlers, ds, 1) == Ok(1);
    }
    assert RunHandlers(handlers, ds, 0) == Ok(k);
    var cols := ds[k + 1..];
    assert forall j | 0 <= j < |cols| :: cols[j] == ds[k + 1 + j];
  }

  // ---------------------------------------------------------------------------
  // The engine

  /** The connection the executor reports to; only the results it is sent
      are modelled. */
  class Conn {
    var results: seq<(int, int)>

    constructor ()
      ensures results == []
    {
      results := [];
    }

    /** `WriteResult`: sends the id of the last inserted row and the number of
        rows affected. */
    method WriteResult(lastInsertedId: int, rowsAffected: int)
      modifies this
      ensures results == old(results) + [(lastInsertedId, rowsAffected)]
    {
      results := results + [(lastInsertedId, rowsAffected)];
    }
  }

  /** The engine: its catalog of relations by table name, the handlers it
      registers per token kind, and its column conversion. */
  class Engine {
    var relations: map<string, Relation>
    const opsExecutors: map<Kind, Handler>
    const attributeOf: Converter

    constructor (opsExecutors: map<Kind, Handler>, attributeOf: Converter)
      ensures relations == map[] && this.opsExecutors == opsExecutors && this.attributeOf == attributeOf
    {
      relations := map[];
      this.opsExecutors := opsExecutors;
      this.attributeOf := attributeOf;
    }

    /** `createTableExecutor`: on success the catalog gains one relation,
        under the table's name, whose table has the converted columns as its
        attributes, and (0, 1) is written to `conn`; on any failure neither
        the catalog nor `conn` changes. */
    method CreateTableExecutor(tableDecl: Decl, conn: Conn) returns (err: Option<ExecError>)
      modifies this, conn
      ensures match CreateTable(old(relations).Keys, opsExecutors, attributeOf, tableDecl)
        case Err(e) =>
          && err == Some(e)
          && relations == old(relations) && conn.results == old(conn.results)
        case Ok((name, attrs)) =>
          && err == None
          && name in relations && relations == old(relations)[name := relations[name]]
          && fresh(relations[name].table)
          && relations[name].table.name == name && relations[name].table.alias == ""
          && relations[name].table.attributes == attrs
          && conn.results == old(conn.results) + [(0, 1)]
    {
      var ds := tableDecl.children;
      if |ds| == 0 {
        return Some(MalformedQuery);
      }

      // Run the handlers of the leading children (IF NOT EXISTS, say).
      var i, failure := RunLeadingHandlers(ds);
      if failure.Some? {
        return Some(HandlerFailed(failure.value));
      }
      if i == |ds| {
        return Some(MissingTableName);
      }

      // The table must not exist yet.
      var name := ds[i].lexeme;
      if name in relations {
        return Some(TableExists(name));
      }
      var t := new Table(name);

      // The remaining children are the attributes.
      var attrFailure := AddAttributes(t, ds[i + 1..]);
      if attrFailure.Some? {
        return Some(AttributeFailed(attrFailure.value));
      }

      relations := relations[name := Relation(t)];
      conn.WriteResult(0, 1);
      err := None;
    }

    /** The handler loop of `createTableExecutor`: runs the handler of each
        leading child of `ds` and stops at the first child that has none,
        or at the first handler that fails. */
    method RunLeadingHandlers(ds: seq<Decl>) returns (i: nat, failure: Option<string>)
      ensures failure == None ==> RunHandlers(opsExecutors, ds, 0) == Ok(i)
      ensures failure.Some? ==> RunHandlers(opsExecutors, ds, 0) == Err(HandlerFailed(failure.value))
    {
      i, failure := 0, None;
      while i < |ds|
        invariant 0 <= i <= |ds| && failure == None
        invariant RunHandlers(opsExecutors, ds, 0) == RunHandlers(opsExecutors, ds, i)
      {
        var kind := ds[i].kind;
        if kind !in opsExecutors {
          break;
        }
        failure := opsExecutors[kind](ds[i]);
        if failure.Some? {
          return;
        }
        i := i + 1;
      }
    }

    /** The attribute loop of `createTableExecutor`: converts the column
        declarations in order and appends each attribute to `t`, stopping at
        the first declaration that does not convert. */
    method AddAttributes(t: Table, cols: seq<Decl>) returns (failure: Option<string>)
      modifies t
      ensures match ConvertAll(attributeOf, cols)
        case Err(e) => failure.Some? && e == AttributeFailed(failure.value)
        case Ok(attrs) => failure == None && t.attributes == old(t.attributes) + attrs
    {
      ghost var before := t.attributes;
      var i := 0;
      while i < |cols|
        invariant 0 <= i <= |cols|
        invariant |t.attributes| == |before| + i && t.attributes[..|before|] == before
        invariant forall j | 0 <= j < i :: attributeOf(cols[j]) == Ok(t.attributes[|before| + j])
      {
        var attr := attributeOf(cols[i]);
        if attr.Err? {
          return Some(attr.error);
        }
        // AddAttribute never fails.
        var _ := t.AddAttribute(attr.value);
        i := i + 1;
      }
      assert t.attributes == before + ConvertAll(attributeOf, cols).value;
      failure := None;
    }
  }
}

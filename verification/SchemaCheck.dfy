/** The importer's index statements against the verifier's independent schema check. */
module SchemaCheck {
  import opened Basics
  import opened Sorting

  datatype Index = Index(columns: seq<string>, primary: bool)

  datatype Column = Column(definition: string)

  datatype Table = Table(name: string, columns: seq<Column>, indexes: seq<Index>)

  // ----- names -----

  function Digit(n: nat): char
    requires n < 10
  {
    '0' + n as char
  }

  function Decimal(n: nat): string {
    if n < 10 then [Digit(n)] else Decimal(n / 10) + [Digit(n % 10)]
  }

  /** Formatting with %02d. */
  function PadTwo(n: nat): string {
    if n < 10 then "0" + Decimal(n) else Decimal(n)
  }

  /** Go's string(rune(code)): the replacement character for a code point that is not valid. */
  function RuneString(code: nat): string {
    if code < 0xD800 || 0xE000 <= code < 0x110000 then [code as char] else ['\U{FFFD}']
  }

  function TwoDigits(value: nat): string {
    if value < 10 then "0" + RuneString(48 + value) else RuneString(48 + value / 10) + RuneString(48 + value % 10)
  }

  lemma DigitRune(n: nat)
    requires n < 10
    ensures RuneString(48 + n) == [Digit(n)]
  {
    assert '0' as int == 48;
  }

  lemma {:induction false} DecimalLength(n: nat)
    ensures |Decimal(n)| >= 1 && (n >= 10 ==> |Decimal(n)| >= 2) && (n >= 100 ==> |Decimal(n)| >= 3)
  {
    if n >= 10 { DecimalLength(n / 10); }
  }

  /** The checker's own two-digit formatting is that of the writer exactly below one hundred. */
  lemma TwoDigitsExactlyBelowHundred(n: nat)
    ensures TwoDigits(n) == PadTwo(n) <==> n < 100
  {
    if n < 10 {
      DigitRune(n);
    } else if n < 100 {
      DigitRune(n / 10);
      DigitRune(n % 10);
      assert Decimal(n / 10) == [Digit(n / 10)];
    } else {
      DecimalLength(n);
      assert |TwoDigits(n)| == 2;
    }
  }

  const PREFIX := "mss_import_"

  function PrimaryName(table: string): string { PREFIX + table + "_pkey" }

  function IndexName(table: string, digits: string): string { PREFIX + table + "_" + digits + "_idx" }

  // ----- the writer -----

  /** A statement and what it makes; identifiers are quoted only when written out. */
  datatype Statement =
    | AddPrimaryKey(title: string, table: string, constraint: string, columns: seq<string>)
    | CreateIndex(title: string, table: string, index: string, columns: seq<string>)

  function StatementFor(table: string, position: nat, index: Index): Statement {
    if index.primary then AddPrimaryKey("primary-key-" + table, table, PrimaryName(table), index.columns)
    else CreateIndex("index-" + table + "-" + PadTwo(position), table, IndexName(table, PadTwo(position)),
                     index.columns)
  }

  function TableStatements(table: Table, n: nat): seq<Statement>
    requires n <= |table.indexes|
  {
    if n == 0 then [] else TableStatements(table, n - 1) + [StatementFor(table.name, n - 1, table.indexes[n - 1])]
  }

  function Statements(tables: seq<Table>): seq<Statement> {
    if tables == [] then []
    else
      var last := tables[|tables| - 1];
      Statements(tables[..|tables| - 1]) + TableStatements(last, |last.indexes|)
  }

  predicate HasColumns(tables: seq<Table>) {
    forall t, p :: 0 <= t < |tables| && 0 <= p < |tables[t].indexes| ==> tables[t].indexes[p].columns != []
  }

  /** The statements of one table; nothing if an index has no columns. */
  method CreateTableStatements(table: Table) returns (statements: Option<seq<Statement>>)
    ensures statements.Some? <==> forall p :: 0 <= p < |table.indexes| ==> table.indexes[p].columns != []
    ensures statements.Some? ==> statements.value == TableStatements(table, |table.indexes|)
  {
    hide PadTwo, PrimaryName, IndexName;
    var made: seq<Statement> := [];
    for p := 0 to |table.indexes|
      invariant made == TableStatements(table, p)
      invariant forall q :: 0 <= q < p ==> table.indexes[q].columns != []
    {
      var index := table.indexes[p];
      if |index.columns| == 0 {
        assert table.indexes[p].columns == [];
        return None;
      }
      if index.primary {
        made := made + [AddPrimaryKey("primary-key-" + table.name, table.name, PrimaryName(table.name), index.columns)];
        continue;
      }
      made := made + [CreateIndex("index-" + table.name + "-" + PadTwo(p), table.name,
                                  IndexName(table.name, PadTwo(p)), index.columns)];
    }
    return Some(made);
  }

  method CreateIndexStatements(tables: seq<Table>) returns (statements: Option<seq<Statement>>)
    ensures statements == if HasColumns(tables) then Some(Statements(tables)) else None
  {
    hide TableStatements;
    var made: seq<Statement> := [];
    for t := 0 to |tables|
      invariant made == Statements(tables[..t]) && HasColumns(tables[..t])
    {
      assert tables[..t + 1][..t] == tables[..t];
      var own := CreateTableStatements(tables[t]);
      if own.None? { return None; }
      made := made + own.value;
    }
    assert tables[..|tables|] == tables;
    return Some(made);
  }

  // ----- the statements as SQL text -----

  function Quote(identifier: string): string {
    "\"" + ReplaceAll(identifier, '"', "\"\"") + "\""
  }

  function JoinColumns(columns: seq<string>): string
    requires columns != []
  {
    if |columns| == 1 then Quote(columns[0]) else Quote(columns[0]) + ", " + JoinColumns(columns[1..])
  }

  function Sql(s: Statement): string
    requires s.columns != []
  {
    match s
    case AddPrimaryKey(_, table, constraint, columns) =>
      "ALTER TABLE \"public\"." + Quote(table) + " ADD CONSTRAINT " + Quote(constraint) + " PRIMARY KEY ("
          + JoinColumns(columns) + ")"
    case CreateIndex(_, table, index, columns) =>
      "CREATE INDEX " + Quote(index) + " ON \"public\"." + Quote(table) + " USING btree (" + JoinColumns(columns) + ")"
  }

  /** Reads a quoted identifier up to its closing quote; a doubled quote stands for one. */
  function ReadBody(text: string): Option<(string, string)> {
    if text == "" then None
    else if text[0] != '"' then
      match ReadBody(text[1..]) case None => None case Some((value, rest)) => Some(([text[0]] + value, rest))
    else if |text| >= 2 && text[1] == '"' then
      match ReadBody(text[2..]) case None => None case Some((value, rest)) => Some(("\"" + value, rest))
    else Some(("", text[1..]))
  }

  function After(text: string, prefix: string): Option<string> {
    if prefix <= text then Some(text[|prefix|..]) else None
  }

  /** A keyword text, then a quoted identifier. */
  function ReadName(text: string, prefix: string): Option<(string, string)> {
    var start := After(text, prefix + "\"");
    if start.None? then None else ReadBody(start.value)
  }

  function ReadColumns(text: string, prefix: string): Option<(seq<string>, string)>
    decreases |text|
  {
    match ReadName(text, prefix)
    case None => None
    case Some((column, rest)) =>
      if ")" <= rest then Some(([column], rest[1..]))
      else if |rest| >= |text| then None
      else
        match ReadColumns(rest, ", ")
        case None => None
        case Some((more, end)) => Some(([column] + more, end))
  }

  /** What a statement text asks for. */
  function Understood(sql: string): Option<Statement> {
    var table := ReadName(sql, "ALTER TABLE \"public\".");
    if table.Some? then
      var name := ReadName(table.value.1, " ADD CONSTRAINT ");
      if name.None? then None
      else
        var columns := ReadColumns(name.value.1, " PRIMARY KEY (");
        if columns.None? || columns.value.1 != "" then None
        else Some(AddPrimaryKey("", table.value.0, name.value.0, columns.value.0))
    else
      var name := ReadName(sql, "CREATE INDEX ");
      if name.None? then None
      else
        var onTable := ReadName(name.value.1, " ON \"public\".");
        if onTable.None? then None
        else
          var columns := ReadColumns(onTable.value.1, " USING btree (");
          if columns.None? || columns.value.1 != "" then None
          else Some(CreateIndex("", onTable.value.0, name.value.0, columns.value.0))
  }

  lemma {:induction false} BodyIsRead(identifier: string, rest: string)
    requires rest != "" ==> rest[0] != '"'
    ensures ReadBody(ReplaceAll(identifier, '"', "\"\"") + "\"" + rest) == Some((identifier, rest))
  {
    var text := ReplaceAll(identifier, '"', "\"\"") + "\"" + rest;
    if identifier == "" {
      assert text == "\"" + rest && text[1..] == rest;
    } else {
      BodyIsRead(identifier[1..], rest);
      var tail := ReplaceAll(identifier[1..], '"', "\"\"") + "\"" + rest;
      assert [identifier[0]] + identifier[1..] == identifier;
      if identifier[0] == '"' {
        assert text == "\"\"" + tail && text[2..] == tail;
      } else {
        assert text == [identifier[0]] + tail && text[1..] == tail;
      }
    }
  }

  lemma NameIsRead(prefix: string, identifier: string, rest: string)
    requires rest != "" ==> rest[0] != '"'
    ensures ReadName(prefix + Quote(identifier) + rest, prefix) == Some((identifier, rest))
  {
    hide ReadBody;
    var body := ReplaceAll(identifier, '"', "\"\"") + "\"" + rest;
    assert prefix + Quote(identifier) + rest == (prefix + "\"") + body;
    BodyIsRead(identifier, rest);
  }

  lemma {:induction false} ColumnsAreRead(prefix: string, columns: seq<string>)
    requires columns != []
    ensures ReadColumns(prefix + JoinColumns(columns) + ")", prefix) == Some((columns, ""))
    decreases |columns|
  {
    hide ReadName, Quote;
    var text := prefix + JoinColumns(columns) + ")";
    if |columns| == 1 {
      assert text == prefix + Quote(columns[0]) + ")";
      NameIsRead(prefix, columns[0], ")");
      assert ")"[1..] == "" && [columns[0]] == columns;
    } else {
      var rest := ", " + JoinColumns(columns[1..]) + ")";
      assert text == prefix + Quote(columns[0]) + rest;
      NameIsRead(prefix, columns[0], rest);
      ColumnsAreRead(", ", columns[1..]);
      QuoteIsLong(columns[0]);
      assert [columns[0]] + columns[1..] == columns;
    }
  }

  lemma QuoteIsLong(identifier: string)
    ensures |Quote(identifier)| >= 2
  {
  }

  /** Whatever characters the identifiers hold, the text of a statement asks for exactly its table,
      name and columns. */
  lemma SqlIsUnderstood(s: Statement)
    requires s.columns != []
    ensures Understood(Sql(s)) == Some(s.(title := ""))
  {
    hide ReadName, ReadColumns, Quote, JoinColumns;
    match s
    case AddPrimaryKey(_, table, constraint, columns) =>
      var last := " PRIMARY KEY (" + JoinColumns(columns) + ")";
      var middle := " ADD CONSTRAINT " + Quote(constraint) + last;
      assert Sql(s) == "ALTER TABLE \"public\"." + Quote(table) + middle;
      NameIsRead("ALTER TABLE \"public\".", table, middle);
      NameIsRead(" ADD CONSTRAINT ", constraint, last);
      ColumnsAreRead(" PRIMARY KEY (", columns);
    case CreateIndex(_, table, index, columns) =>
      var last := " USING btree (" + JoinColumns(columns) + ")";
      var middle := " ON \"public\"." + Quote(table) + last;
      assert Sql(s) == "CREATE INDEX " + Quote(index) + middle;
      NotAlter(index, middle);
      NameIsRead("CREATE INDEX ", index, middle);
      NameIsRead(" ON \"public\".", table, last);
      ColumnsAreRead(" USING btree (", columns);
  }

  lemma NotAlter(index: string, rest: string)
    ensures ReadName("CREATE INDEX " + Quote(index) + rest, "ALTER TABLE \"public\".").None?
  {
    hide ReadBody;
    var text, prefix := "CREATE INDEX " + Quote(index) + rest, "ALTER TABLE \"public\".\"";
    assert text[0] == 'C' && prefix[0] == 'A';
  }

  // ----- what the database then holds -----

  datatype TargetIndex = TargetIndex(table: string, name: string, primary: bool, unique: bool, columns: seq<string>,
                                     reviewed: bool)

  datatype Constraint = Constraint(table: string, name: string, kind: string)

  function IndexMade(s: Statement): TargetIndex {
    match s
    case AddPrimaryKey(_, table, constraint, columns) => TargetIndex(table, constraint, true, true, columns, true)
    case CreateIndex(_, table, index, columns) => TargetIndex(table, index, false, false, columns, true)
  }

  function IndexesMade(statements: seq<Statement>): seq<TargetIndex> {
    if statements == [] then []
    else IndexesMade(statements[..|statements| - 1]) + [IndexMade(statements[|statements| - 1])]
  }

  function ConstraintsMade(statements: seq<Statement>): seq<Constraint> {
    if statements == [] then []
    else
      var last := statements[|statements| - 1];
      var front := ConstraintsMade(statements[..|statements| - 1]);
      if last.AddPrimaryKey? then front + [Constraint(last.table, last.constraint, "p")] else front
  }

  // ----- the checker -----

  datatype Schema = Schema(columns: map<string, seq<Column>>, indexes: seq<TargetIndex>, constraints: seq<Constraint>)

  function ExpectedIndex(table: string, position: nat, index: Index): TargetIndex {
    TargetIndex(table, if index.primary then PrimaryName(table) else IndexName(table, TwoDigits(position)),
                index.primary, index.primary, index.columns, true)
  }

  function TableIndexes(table: Table, n: nat): seq<TargetIndex>
    requires n <= |table.indexes|
  {
    if n == 0 then [] else TableIndexes(table, n - 1) + [ExpectedIndex(table.name, n - 1, table.indexes[n - 1])]
  }

  function TableConstraints(table: Table, n: nat): seq<Constraint>
    requires n <= |table.indexes|
  {
    if n == 0 then []
    else
      TableConstraints(table, n - 1)
      + if table.indexes[n - 1].primary then [Constraint(table.name, PrimaryName(table.name), "p")] else []
  }

  function ExpectedIndexes(tables: seq<Table>): seq<TargetIndex> {
    if tables == [] then []
    else
      var last := tables[|tables| - 1];
      ExpectedIndexes(tables[..|tables| - 1]) + TableIndexes(last, |last.indexes|)
  }

  function ExpectedConstraints(tables: seq<Table>): seq<Constraint> {
    if tables == [] then []
    else
      var last := tables[|tables| - 1];
      ExpectedConstraints(tables[..|tables| - 1]) + TableConstraints(last, |last.indexes|)
  }

  function IndexKey(index: TargetIndex): Key { [index.table, index.name] }

  function ConstraintKey(constraint: Constraint): Key { [constraint.table, constraint.name] }

  predicate ColumnsMatch(columns: map<string, seq<Column>>, tables: seq<Table>) {
    && |columns| == |tables|
    && forall t :: 0 <= t < |tables| ==> tables[t].name in columns && columns[tables[t].name] == tables[t].columns
  }

  /** Any sorted arrangement: the sort is not stable, so equal keys may come in any order. */
  method SortIndexes(indexes: seq<TargetIndex>) returns (sorted: seq<TargetIndex>)
    ensures multiset(sorted) == multiset(indexes) && SortedBy(IndexKey, sorted)
  {
    sorted := Sort(IndexKey, indexes);
    SortIsSorted(IndexKey, indexes);
  }

  method SortConstraints(constraints: seq<Constraint>) returns (sorted: seq<Constraint>)
    ensures multiset(sorted) == multiset(constraints) && SortedBy(ConstraintKey, sorted)
  {
    sorted := Sort(ConstraintKey, constraints);
    SortIsSorted(ConstraintKey, constraints);
  }

  /** The schema is the expected one, in whatever order the catalog listed it. */
  ghost predicate Agrees(actual: Schema, tables: seq<Table>) {
    && ColumnsMatch(actual.columns, tables)
    && multiset(actual.indexes) == multiset(ExpectedIndexes(tables))
    && multiset(actual.constraints) == multiset(ExpectedConstraints(tables))
  }

  /** The inventory of one table, index by index. */
  method ExpectTable(table: Table) returns (indexes: seq<TargetIndex>, constraints: seq<Constraint>)
    ensures indexes == TableIndexes(table, |table.indexes|) && constraints == TableConstraints(table, |table.indexes|)
  {
    indexes, constraints := [], [];
    for p := 0 to |table.indexes|
      invariant indexes == TableIndexes(table, p) && constraints == TableConstraints(table, p)
    {
      var index := table.indexes[p];
      var name := IndexName(table.name, TwoDigits(p));
      if index.primary {
        name := PrimaryName(table.name);
        constraints := constraints + [Constraint(table.name, name, "p")];
      }
      indexes := indexes + [TargetIndex(table.name, name, index.primary, index.primary, index.columns, true)];
    }
  }

  method ExpectInventory(columns: map<string, seq<Column>>, tables: seq<Table>)
    returns (ok: bool, indexes: seq<TargetIndex>, constraints: seq<Constraint>)
    ensures ok == ColumnsMatch(columns, tables)
    ensures ok ==> indexes == ExpectedIndexes(tables) && constraints == ExpectedConstraints(tables)
  {
    hide TableIndexes, TableConstraints;
    indexes, constraints := [], [];
    if |columns| != |tables| { return false, [], []; }
    for t := 0 to |tables|
      invariant indexes == ExpectedIndexes(tables[..t]) && constraints == ExpectedConstraints(tables[..t])
      invariant forall u :: 0 <= u < t ==> tables[u].name in columns && columns[tables[u].name] == tables[u].columns
    {
      var table := tables[t];
      assert tables[..t + 1][..t] == tables[..t];
      if table.name !in columns || columns[table.name] != table.columns { return false, [], []; }
      var ownIndexes, ownConstraints := ExpectTable(table);
      indexes, constraints := indexes + ownIndexes, constraints + ownConstraints;
    }
    assert tables[..|tables|] == tables;
    ok := true;
  }

  // ----- distinct keys -----

  /** A manifest with distinct table names, at most one primary index per table and at most 100 indexes. */
  predicate WellFormed(tables: seq<Table>) {
    && (forall t, u :: 0 <= t < u < |tables| ==> tables[t].name != tables[u].name)
    && (forall t, p, q :: 0 <= t < |tables| && 0 <= p < q < |tables[t].indexes| ==>
          !(tables[t].indexes[p].primary && tables[t].indexes[q].primary))
    && (forall t :: 0 <= t < |tables| ==> |tables[t].indexes| <= 100)
  }

  lemma Middle(head: string, a: string, b: string, tail: string)
    requires head + a + tail == head + b + tail
    ensures a == b
  {
    assert |a| == |b|;
    assert (head + a + tail)[|head|..|head| + |a|] == a;
    assert (head + b + tail)[|head|..|head| + |b|] == b;
  }

  lemma TwoDigitsDiffer(p: nat, q: nat)
    requires p < q < 100
    ensures TwoDigits(p) != TwoDigits(q)
  {
    assert RuneString(48 + p / 10)[0] as int == 48 + p / 10 && RuneString(48 + q / 10)[0] as int == 48 + q / 10;
    assert RuneString(48 + p % 10)[0] as int == 48 + p % 10 && RuneString(48 + q % 10)[0] as int == 48 + q % 10;
    TwoDigitsText(p);
    TwoDigitsText(q);
    assert p == 10 * (p / 10) + p % 10 && q == 10 * (q / 10) + q % 10;
  }

  lemma TwoDigitsText(p: nat)
    requires p < 100
    ensures |TwoDigits(p)| == 2 && TwoDigits(p)[0] as int == 48 + p / 10 && TwoDigits(p)[1] as int == 48 + p % 10
  {
    if p < 10 { assert "0"[0] as int == 48; }
  }

  lemma {:induction false} TableIndexAt(table: Table, n: nat, p: nat)
    requires p < n <= |table.indexes|
    ensures |TableIndexes(table, n)| == n && TableIndexes(table, n)[p] == ExpectedIndex(table.name, p, table.indexes[p])
  {
    hide ExpectedIndex;
    if p < n - 1 {
      TableIndexAt(table, n - 1, p);
    } else if n > 1 {
      TableIndexAt(table, n - 1, 0);
    }
  }

  lemma NamesDiffer(table: string, p: nat, q: nat, x: Index, y: Index)
    requires p < q < 100 && !(x.primary && y.primary)
    ensures ExpectedIndex(table, p, x).name != ExpectedIndex(table, q, y).name
  {
    var head, a, b := PREFIX + table + "_", TwoDigits(p), TwoDigits(q);
    TwoDigitsDiffer(p, q);
    assert IndexName(table, a) == head + a + "_idx" && IndexName(table, b) == head + b + "_idx";
    if IndexName(table, a) == IndexName(table, b) { Middle(head, a, b, "_idx"); }
    SuffixesDiffer(table, a);
    SuffixesDiffer(table, b);
  }

  lemma SuffixesDiffer(table: string, digits: string)
    ensures PrimaryName(table) != IndexName(table, digits)
  {
    var a, b := PrimaryName(table), IndexName(table, digits);
    assert a[|a| - 1] == 'y' && b[|b| - 1] == 'x';
  }

  lemma TableKeysDistinct(table: Table)
    requires |table.indexes| <= 100
    requires forall p, q :: 0 <= p < q < |table.indexes| ==> !(table.indexes[p].primary && table.indexes[q].primary)
    ensures DistinctBy(IndexKey, TableIndexes(table, |table.indexes|))
    ensures forall x :: x in TableIndexes(table, |table.indexes|) ==> x.table == table.name
  {
    hide ExpectedIndex;
    var n, all := |table.indexes|, TableIndexes(table, |table.indexes|);
    if n > 0 { TableIndexAt(table, n, 0); }
    forall p, q | 0 <= p < q < n ensures IndexKey(all[p]) != IndexKey(all[q]) {
      TableIndexAt(table, n, p);
      TableIndexAt(table, n, q);
      NamesDiffer(table.name, p, q, table.indexes[p], table.indexes[q]);
      assert IndexKey(all[p])[1] == all[p].name && IndexKey(all[q])[1] == all[q].name;
    }
    forall x | x in all ensures x.table == table.name {
      var p :| 0 <= p < n && all[p] == x;
      TableIndexAt(table, n, p);
      assert ExpectedIndex(table.name, p, table.indexes[p]).table == table.name
          by { EntryTable(table.name, p, table.indexes[p]); }
    }
  }

  lemma EntryTable(table: string, p: nat, index: Index)
    ensures ExpectedIndex(table, p, index).table == table
  {
  }

  lemma DistinctAppend<T>(key: T -> Key, a: seq<T>, b: seq<T>)
    requires DistinctBy(key, a) && DistinctBy(key, b) && forall x, y :: x in a && y in b ==> key(x) != key(y)
    ensures DistinctBy(key, a + b)
  {
    forall i, j | 0 <= i < j < |a + b| ensures key((a + b)[i]) != key((a + b)[j]) {
      if i < |a| <= j { assert (a + b)[i] in a && (a + b)[j] in b; }
    }
  }

  lemma {:induction false} IndexKeysDistinct(tables: seq<Table>)
    requires WellFormed(tables)
    ensures DistinctBy(IndexKey, ExpectedIndexes(tables))
    ensures forall x :: x in ExpectedIndexes(tables) ==> exists t :: 0 <= t < |tables| && tables[t].name == x.table
  {
    if tables != [] {
      var n := |tables| - 1;
      var front, last := tables[..n], tables[n];
      assert forall t :: 0 <= t < n ==> front[t] == tables[t];
      IndexKeysDistinct(front);
      TableKeysDistinct(last);
      var a, b := ExpectedIndexes(front), TableIndexes(last, |last.indexes|);
      forall x, y | x in a && y in b ensures IndexKey(x) != IndexKey(y) {
        assert IndexKey(x)[0] == x.table && IndexKey(y)[0] == y.table;
      }
      DistinctAppend(IndexKey, a, b);
    }
  }

  lemma {:induction false} TableConstraintsOnce(table: Table, n: nat)
    requires n <= |table.indexes|
    requires forall p, q :: 0 <= p < q < n ==> !(table.indexes[p].primary && table.indexes[q].primary)
    ensures |TableConstraints(table, n)| <= 1
    ensures TableConstraints(table, n) == [] || exists p :: 0 <= p < n && table.indexes[p].primary
    ensures forall x :: x in TableConstraints(table, n) ==> x.table == table.name
  {
    if n > 0 { TableConstraintsOnce(table, n - 1); }
  }

  lemma {:induction false} ConstraintKeysDistinct(tables: seq<Table>)
    requires WellFormed(tables)
    ensures DistinctBy(ConstraintKey, ExpectedConstraints(tables))
    ensures forall x :: x in ExpectedConstraints(tables) ==> exists t :: 0 <= t < |tables| && tables[t].name == x.table
  {
    if tables != [] {
      var n := |tables| - 1;
      var front, last := tables[..n], tables[n];
      assert forall t :: 0 <= t < n ==> front[t] == tables[t];
      ConstraintKeysDistinct(front);
      TableConstraintsOnce(last, |last.indexes|);
      var a, b := ExpectedConstraints(front), TableConstraints(last, |last.indexes|);
      forall x, y | x in a && y in b ensures ConstraintKey(x) != ConstraintKey(y) {
        assert ConstraintKey(x)[0] == x.table && ConstraintKey(y)[0] == y.table;
      }
      DistinctAppend(ConstraintKey, a, b);
    }
  }

  method ValidateTargetSchema(actual: Schema, tables: seq<Table>) returns (ok: bool)
    ensures ok ==> Agrees(actual, tables)
    ensures WellFormed(tables) && Agrees(actual, tables) ==> ok
  {
    hide WellFormed, DistinctBy, SortedBy, ExpectedIndexes, ExpectedConstraints, ColumnsMatch;
    var indexes, constraints;
    ok, indexes, constraints := ExpectInventory(actual.columns, tables);
    if !ok { return; }
    if WellFormed(tables) {
      IndexKeysDistinct(tables);
      ConstraintKeysDistinct(tables);
    }
    var wantedIndexes := SortIndexes(indexes);
    var actualIndexes := SortIndexes(actual.indexes);
    SameWhenSorted(IndexKey, indexes, wantedIndexes, actual.indexes, actualIndexes);
    if actualIndexes != wantedIndexes { return false; }
    var wantedConstraints := SortConstraints(constraints);
    var actualConstraints := SortConstraints(actual.constraints);
    SameWhenSorted(ConstraintKey, constraints, wantedConstraints, actual.constraints, actualConstraints);
    return actualConstraints == wantedConstraints;
  }

  lemma SameWhenSorted<T>(key: T -> Key, wanted: seq<T>, wantedSorted: seq<T>, actual: seq<T>, actualSorted: seq<T>)
    requires multiset(wantedSorted) == multiset(wanted) && SortedBy(key, wantedSorted)
    requires multiset(actualSorted) == multiset(actual) && SortedBy(key, actualSorted)
    ensures actualSorted == wantedSorted ==> multiset(actual) == multiset(wanted)
    ensures multiset(actual) == multiset(wanted) && DistinctBy(key, wanted) ==> actualSorted == wantedSorted
  {
    hide DistinctBy, SortedBy;
    if multiset(actual) == multiset(wanted) && DistinctBy(key, wanted) {
      DistinctIsOrderless(key, wanted, wantedSorted);
      SortedIsUnique(key, wantedSorted, actualSorted);
    }
  }

  // ----- writer and checker agree -----

  /** No ordinary index at position 100 or beyond. */
  predicate AtMostHundred(tables: seq<Table>) {
    forall t, p :: 0 <= t < |tables| && 100 <= p < |tables[t].indexes| ==> tables[t].indexes[p].primary
  }

  lemma {:induction false} SameEntry(table: string, position: nat, index: Index)
    ensures IndexMade(StatementFor(table, position, index)) == ExpectedIndex(table, position, index) <==>
              index.primary || position < 100
  {
    if !index.primary {
      TwoDigitsExactlyBelowHundred(position);
      var a, b := TwoDigits(position), PadTwo(position);
      var head, tail := PREFIX + table + "_", "_idx";
      assert IndexName(table, a) == head + a + tail && IndexName(table, b) == head + b + tail;
      if IndexName(table, a) == IndexName(table, b) { Middle(head, a, b, tail); }
    }
  }

  lemma {:induction false} MadeConcat(a: seq<Statement>, b: seq<Statement>)
    ensures IndexesMade(a + b) == IndexesMade(a) + IndexesMade(b)
    ensures ConstraintsMade(a + b) == ConstraintsMade(a) + ConstraintsMade(b)
  {
    hide IndexMade;
    if b == [] {
      assert a + b == a;
    } else {
      var front, whole := b[..|b| - 1], a + b;
      MadeConcat(a, front);
      assert whole[..|whole| - 1] == a + front && whole[|whole| - 1] == b[|b| - 1];
    }
  }

  lemma {:induction false} TableConstraintsAgree(table: Table, n: nat)
    requires n <= |table.indexes|
    ensures ConstraintsMade(TableStatements(table, n)) == TableConstraints(table, n)
  {
    hide PrimaryName, IndexName, PadTwo;
    if n > 0 {
      TableConstraintsAgree(table, n - 1);
      var s := TableStatements(table, n);
      assert s[..|s| - 1] == TableStatements(table, n - 1);
    }
  }

  lemma {:induction false} TableIndexesAgree(table: Table, n: nat)
    requires n <= |table.indexes|
    ensures |IndexesMade(TableStatements(table, n))| == n == |TableIndexes(table, n)|
    ensures IndexesMade(TableStatements(table, n)) == TableIndexes(table, n) <==>
              forall p :: 100 <= p < n ==> table.indexes[p].primary
  {
    hide StatementFor, ExpectedIndex, IndexMade;
    if n > 0 {
      TableIndexesAgree(table, n - 1);
      var last := table.indexes[n - 1];
      SameEntry(table.name, n - 1, last);
      var s := TableStatements(table, n);
      assert s[..|s| - 1] == TableStatements(table, n - 1);
      SplitEqual(IndexesMade(TableStatements(table, n - 1)), [IndexMade(StatementFor(table.name, n - 1, last))],
                 TableIndexes(table, n - 1), [ExpectedIndex(table.name, n - 1, last)]);
    }
  }

  /** The schema the writer makes is the one the checker expects, entry by entry, exactly when no
      table has an ordinary index at position 100 or beyond. */
  lemma {:induction false} WriterMakesWhatIsExpected(tables: seq<Table>)
    ensures ConstraintsMade(Statements(tables)) == ExpectedConstraints(tables)
    ensures |IndexesMade(Statements(tables))| == |ExpectedIndexes(tables)|
    ensures IndexesMade(Statements(tables)) == ExpectedIndexes(tables) <==> AtMostHundred(tables)
  {
    if tables != [] {
      var n := |tables| - 1;
      var front, last := tables[..n], tables[n];
      WriterMakesWhatIsExpected(front);
      TableConstraintsAgree(last, |last.indexes|);
      TableIndexesAgree(last, |last.indexes|);
      MadeConcat(Statements(front), TableStatements(last, |last.indexes|));
      HundredSplits(tables);
      SplitEqual(IndexesMade(Statements(front)), IndexesMade(TableStatements(last, |last.indexes|)),
                 ExpectedIndexes(front), TableIndexes(last, |last.indexes|));
    }
  }

  /** For a well-formed manifest the checker accepts exactly the permutations of what the writer makes. */
  lemma AgreesMeansWritten(actual: Schema, tables: seq<Table>)
    requires WellFormed(tables)
    ensures Agrees(actual, tables) <==>
              && ColumnsMatch(actual.columns, tables)
              && multiset(actual.indexes) == multiset(IndexesMade(Statements(tables)))
              && multiset(actual.constraints) == multiset(ConstraintsMade(Statements(tables)))
  {
    hide ExpectedIndexes, ExpectedConstraints, IndexesMade, ConstraintsMade, Statements, ColumnsMatch;
    WriterMakesWhatIsExpected(tables);
  }

  // ----- both sides spelled out -----

  /** The number that a text of decimal digits denotes. */
  function NumberOf(digits: string): int {
    if digits == "" then 0
    else 10 * NumberOf(digits[..|digits| - 1]) + (digits[|digits| - 1] as int - '0' as int)
  }

  /** The decimal number, with a leading zero if it is below ten and without one otherwise. */
  ghost predicate TwoOrMoreDigits(digits: string, n: nat) {
    && |digits| >= 2 && (forall i :: 0 <= i < |digits| ==> '0' <= digits[i] <= '9') && NumberOf(digits) == n
    && (|digits| > 2 ==> digits[0] != '0')
  }

  lemma {:induction false} DecimalDenotes(n: nat)
    ensures (forall i :: 0 <= i < |Decimal(n)| ==> '0' <= Decimal(n)[i] <= '9') && NumberOf(Decimal(n)) == n
    ensures Decimal(n) != "" && (n > 0 ==> Decimal(n)[0] != '0')
  {
    if n < 10 {
      assert [Digit(n)][..0] == "";
    } else {
      DecimalDenotes(n / 10);
      assert Decimal(n)[..|Decimal(n)| - 1] == Decimal(n / 10);
    }
  }

  lemma PadTwoDenotes(n: nat)
    ensures TwoOrMoreDigits(PadTwo(n), n) && (n < 100 ==> TwoOrMoreDigits(TwoDigits(n), n))
  {
    DecimalDenotes(n);
    DecimalLength(n);
    TwoDigitsExactlyBelowHundred(n);
    if n < 10 {
      assert PadTwo(n) == ['0', Digit(n)] && PadTwo(n)[..1] == ['0'] && ['0'][..0] == "";
    }
  }

  /** How many indexes the tables before one have. */
  function IndexesBefore(tables: seq<Table>, t: nat): nat
    requires t <= |tables|
  {
    if t == 0 then 0 else IndexesBefore(tables, t - 1) + |tables[t - 1].indexes|
  }

  lemma {:induction false} BeforeInFront(tables: seq<Table>, t: nat)
    requires tables != [] && t < |tables|
    ensures IndexesBefore(tables[..|tables| - 1], t) == IndexesBefore(tables, t)
  {
    if t > 0 { BeforeInFront(tables, t - 1); }
  }

  lemma {:induction false} TableStatementAt(table: Table, n: nat, p: nat)
    requires p < n <= |table.indexes|
    ensures |TableStatements(table, n)| == n
    ensures TableStatements(table, n)[p] == StatementFor(table.name, p, table.indexes[p])
  {
    hide StatementFor;
    if p < n - 1 {
      TableStatementAt(table, n - 1, p);
    } else if n > 1 {
      TableStatementAt(table, n - 1, 0);
    }
  }

  lemma TableSizes(table: Table, n: nat)
    requires n <= |table.indexes|
    ensures |TableStatements(table, n)| == n == |TableIndexes(table, n)|
  {
    hide StatementFor, ExpectedIndex;
    if n > 0 {
      TableStatementAt(table, n, 0);
      TableIndexAt(table, n, 0);
    }
  }

  lemma {:induction false} EntriesAt(tables: seq<Table>, t: nat, p: nat)
    requires t < |tables| && p < |tables[t].indexes|
    ensures IndexesBefore(tables, t) + p < |Statements(tables)| == |ExpectedIndexes(tables)|
    ensures Statements(tables)[IndexesBefore(tables, t) + p] == StatementFor(tables[t].name, p, tables[t].indexes[p])
    ensures ExpectedIndexes(tables)[IndexesBefore(tables, t) + p] ==
            ExpectedIndex(tables[t].name, p, tables[t].indexes[p])
  {
    hide StatementFor, ExpectedIndex, Statements, ExpectedIndexes, TableStatements, TableIndexes, IndexesBefore;
    var n := |tables| - 1;
    var front, last := tables[..n], tables[n];
    LastSplits(tables);
    TableSizes(last, |last.indexes|);
    Counted(front);
    BeforeInFront(tables, n);
    if t < n {
      EntriesAt(front, t, p);
      BeforeInFront(tables, t);
    } else {
      TableStatementAt(last, |last.indexes|, p);
      TableIndexAt(last, |last.indexes|, p);
    }
  }

  lemma LastSplits(tables: seq<Table>)
    requires tables != []
    ensures var n := |tables| - 1;
            var front, last := tables[..n], tables[n];
            && Statements(tables) == Statements(front) + TableStatements(last, |last.indexes|)
            && ExpectedIndexes(tables) == ExpectedIndexes(front) + TableIndexes(last, |last.indexes|)
  {
  }

  lemma {:induction false} Counted(tables: seq<Table>)
    ensures |Statements(tables)| == |ExpectedIndexes(tables)| == IndexesBefore(tables, |tables|)
  {
    hide StatementFor, ExpectedIndex;
    if tables != [] {
      var last := tables[|tables| - 1];
      Counted(tables[..|tables| - 1]);
      TableSizes(last, |last.indexes|);
      FrontCount(tables);
    }
  }

  lemma FrontCount(tables: seq<Table>)
    requires tables != []
    ensures IndexesBefore(tables, |tables|) ==
            IndexesBefore(tables[..|tables| - 1], |tables| - 1) + |tables[|tables| - 1].indexes|
  {
    BeforeInFront(tables, |tables| - 1);
  }

  /** The statement for each index of each table in order, and the index the checker expects at the same place:
      below one hundred the same two digits, a primary key under the name of its table alone. */
  lemma EntriesSpelled(tables: seq<Table>, t: nat, p: nat) returns (written: string, checked: string)
    requires t < |tables| && p < |tables[t].indexes|
    ensures TwoOrMoreDigits(written, p) && (p < 100 ==> checked == written)
    ensures var (table, index) := (tables[t].name, tables[t].indexes[p]);
            var k, key := IndexesBefore(tables, t) + p, "mss_import_" + table + "_pkey";
            && k < |Statements(tables)| == |ExpectedIndexes(tables)| == IndexesBefore(tables, |tables|)
            && Statements(tables)[k] ==
               (if index.primary then AddPrimaryKey("primary-key-" + table, table, key, index.columns)
                else CreateIndex("index-" + table + "-" + written, table,
                                 "mss_import_" + table + "_" + written + "_idx",
                                 index.columns))
            && ExpectedIndexes(tables)[k] ==
               (if index.primary then TargetIndex(table, key, true, true, index.columns, true)
                else TargetIndex(table, "mss_import_" + table + "_" + checked + "_idx", false, false, index.columns,
                                 true))
  {
    hide PadTwo, TwoDigits, TwoOrMoreDigits, Statements, ExpectedIndexes;
    EntriesAt(tables, t, p);
    Counted(tables);
    PadTwoDenotes(p);
    TwoDigitsExactlyBelowHundred(p);
    written, checked := PadTwo(p), TwoDigits(p);
  }

  /** The constraints the checker expects are the primary keys, under their names. */
  lemma {:induction false} ConstraintsSpelled(tables: seq<Table>, c: Constraint)
    ensures c in ExpectedConstraints(tables) <==>
              exists t :: 0 <= t < |tables| && IsPrimaryKey(tables[t], c)
  {
    hide IsPrimaryKey;
    if tables != [] {
      var n := |tables| - 1;
      var last := tables[n];
      ConstraintsSpelled(tables[..n], c);
      TableKey(last, c);
      assert forall t :: 0 <= t < n ==> tables[..n][t] == tables[t];
    }
  }

  /** The constraint is the primary key of a table that has one. */
  ghost predicate IsPrimaryKey(table: Table, c: Constraint) {
    && c == Constraint(table.name, "mss_import_" + table.name + "_pkey", "p")
    && exists p :: 0 <= p < |table.indexes| && table.indexes[p].primary
  }

  lemma TableKey(table: Table, c: Constraint)
    ensures c in TableConstraints(table, |table.indexes|) <==> IsPrimaryKey(table, c)
  {
    TableConstraintsSpelled(table, |table.indexes|, c);
  }

  lemma {:induction false} TableConstraintsSpelled(table: Table, n: nat, c: Constraint)
    requires n <= |table.indexes|
    ensures c in TableConstraints(table, n) <==>
              && c == Constraint(table.name, "mss_import_" + table.name + "_pkey", "p")
              && exists p :: 0 <= p < n && table.indexes[p].primary
  {
    if n > 0 { TableConstraintsSpelled(table, n - 1, c); }
  }

  lemma HundredSplits(tables: seq<Table>)
    requires tables != []
    ensures var n := |tables| - 1;
            AtMostHundred(tables) <==>
              AtMostHundred(tables[..n]) && forall p :: 100 <= p < |tables[n].indexes| ==> tables[n].indexes[p].primary
  {
    var n := |tables| - 1;
    assert forall t :: 0 <= t < n ==> tables[..n][t] == tables[t];
    if AtMostHundred(tables[..n]) && forall p :: 100 <= p < |tables[n].indexes| ==> tables[n].indexes[p].primary {
      forall t, p | 0 <= t < |tables| && 100 <= p < |tables[t].indexes| ensures tables[t].indexes[p].primary {
        if t < n { assert tables[..n][t].indexes[p].primary; }
      }
    }
  }

  lemma SplitEqual<T>(a: seq<T>, b: seq<T>, c: seq<T>, d: seq<T>)
    requires |a| == |c| && |b| == |d|
    ensures a + b == c + d <==> a == c && b == d
  {
    if a + b == c + d {
      assert a == (a + b)[..|a|] && b == (a + b)[|a|..];
      assert c == (c + d)[..|c|] && d == (c + d)[|c|..];
    }
  }
}

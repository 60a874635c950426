/**
 The reader of the table schemas: splitting a column list at the commas outside parentheses,
 and turning CREATE TABLE statements into typed fields.
 */
module Schema {
  import opened Text
  import opened Wrappers

  // ---------------------------------------------------------------------------------------
  // The column splitter

  /** The parenthesis depth after one more character; it does not go below zero. */
  function Deeper(depth: nat, c: char): nat {
    if c == '(' then depth + 1 else if c == ')' && depth > 0 then depth - 1 else depth
  }

  function DepthAfter(s: string, depth: nat): nat {
    if s == "" then depth else DepthAfter(s[1..], Deeper(depth, s[0]))
  }

  /** Read from `depth` on, no comma stands outside parentheses. */
  predicate Guarded(s: string, depth: nat) {
    s == "" || (!(s[0] == ',' && depth == 0) && Guarded(s[1..], Deeper(depth, s[0])))
  }

  /** The position of the first comma outside parentheses, or the length. */
  function CutAt(s: string, depth: nat): (c: nat)
    ensures c <= |s| && (c < |s| ==> s[c] == ',')
  {
    if s == "" || (s[0] == ',' && depth == 0) then 0 else 1 + CutAt(s[1..], Deeper(depth, s[0]))
  }

  function Columns(s: string): (r: seq<string>)
    ensures r != []
    decreases |s|
  {
    var c := CutAt(s, 0);
    if c == |s| then [s] else [s[..c]] + Columns(s[c + 1..])
  }

  /** No piece ends between `start` and `index`, and the depth there is `depth`. */
  predicate Scanning(s: string, start: nat, index: nat, depth: nat)
    requires start <= index <= |s|
  {
    CutAt(s[start..], 0) == index - start + CutAt(s[index..], depth)
  }

  lemma ScanStart(s: string)
    ensures Scanning(s, 0, 0, 0)
  {
  }

  lemma ScanOn(s: string, start: nat, index: nat, depth: nat)
    requires start <= index < |s| && Scanning(s, start, index, depth) && !(s[index] == ',' && depth == 0)
    ensures Scanning(s, start, index + 1, Deeper(depth, s[index]))
  {
    assert s[index..][0] == s[index] && s[index..][1..] == s[index + 1..];
  }

  lemma ScanCut(s: string, start: nat, index: nat)
    requires start <= index < |s| && Scanning(s, start, index, 0) && s[index] == ','
    ensures Columns(s[start..]) == [s[start..index]] + Columns(s[index + 1..])
    ensures Scanning(s, index + 1, index + 1, 0)
  {
    assert s[index..][0] == s[index];
    var tail, c := s[start..], index - start;
    assert tail[..c] == s[start..index] && tail[c + 1..] == s[index + 1..];
  }

  lemma ScanEnd(s: string, start: nat, depth: nat)
    requires start <= |s| && Scanning(s, start, |s|, depth)
    ensures Columns(s[start..]) == [s[start..]]
  {
  }

  lemma Regroup(a: seq<string>, piece: string, b: seq<string>)
    ensures a + ([piece] + b) == (a + [piece]) + b
  {
  }

  method SplitColumns(value: string) returns (result: seq<string>)
    ensures result == Columns(value)
  {
    hide Columns, CutAt, Scanning;
    result := [];
    var depth, start := 0, 0;
    ghost var todo := Columns(value);
    assert value[0..] == value;
    ScanStart(value);
    for index := 0 to |value|
      invariant start <= index && Scanning(value, start, index, depth)
      invariant todo == Columns(value[start..]) && result + todo == Columns(value)
    {
      if value[index] == ',' && depth == 0 {
        ScanCut(value, start, index);
        todo := Columns(value[index + 1..]);
        Regroup(result, value[start..index], todo);
        result := result + [value[start..index]];
        start := index + 1;
      } else {
        ScanOn(value, start, index, depth);
        depth := Deeper(depth, value[index]);
      }
    }
    ScanEnd(value, start, depth);
    result := result + [value[start..]];
  }

  /** A way to cut `s` at the commas outside parentheses. */
  predicate Cuts(pieces: seq<string>, s: string) {
    && pieces != []
    && Join(pieces, ',') == s
    && (forall i :: 0 <= i < |pieces| ==> Guarded(pieces[i], 0))
    && (forall i :: 0 <= i < |pieces| - 1 ==> DepthAfter(pieces[i], 0) == 0)
  }

  lemma {:induction false} CutExact(s: string, depth: nat)
    ensures var c := CutAt(s, depth); Guarded(s[..c], depth) && (c < |s| ==> DepthAfter(s[..c], depth) == 0)
  {
    if s != "" && !(s[0] == ',' && depth == 0) {
      var c := CutAt(s, depth);
      CutExact(s[1..], Deeper(depth, s[0]));
      assert s[..c][1..] == s[1..][..c - 1];
    }
  }

  lemma CutsCons(piece: string, pieces: seq<string>, rest: string)
    requires Guarded(piece, 0) && DepthAfter(piece, 0) == 0 && Cuts(pieces, rest)
    ensures Cuts([piece] + pieces, piece + [','] + rest)
  {
    hide Guarded, DepthAfter;
    var all := [piece] + pieces;
    assert all[1..] == pieces;
    forall i | 0 <= i < |all| ensures Guarded(all[i], 0) && (i < |all| - 1 ==> DepthAfter(all[i], 0) == 0) {
      assert i > 0 ==> all[i] == pieces[i - 1];
    }
  }

  /** Joining the pieces gives the text back, and no piece has a comma outside parentheses. */
  lemma {:induction false} ColumnsCut(s: string)
    ensures Cuts(Columns(s), s)
    decreases |s|
  {
    var c := CutAt(s, 0);
    CutExact(s, 0);
    if c == |s| {
      assert s[..c] == s;
    } else {
      var rest := s[c + 1..];
      ColumnsCut(rest);
      CutsCons(s[..c], Columns(rest), rest);
      assert s == s[..c] + [','] + rest;
    }
  }

  lemma {:induction false} CutEnd(s: string, depth: nat)
    requires Guarded(s, depth)
    ensures CutAt(s, depth) == |s|
  {
    if s != "" {
      CutEnd(s[1..], Deeper(depth, s[0]));
    }
  }

  lemma {:induction false} CutComma(s: string, depth: nat, rest: string)
    requires Guarded(s, depth) && DepthAfter(s, depth) == 0
    ensures CutAt(s + [','] + rest, depth) == |s|
  {
    var all := s + [','] + rest;
    if s != "" {
      assert all[1..] == s[1..] + [','] + rest;
      CutComma(s[1..], Deeper(depth, s[0]), rest);
    }
  }

  /** There is only one way to cut: a comma-join of pieces that are balanced and free of commas
      outside parentheses splits into just these pieces. */
  lemma {:induction false} ColumnsUnique(pieces: seq<string>, s: string)
    requires Cuts(pieces, s)
    ensures Columns(s) == pieces
  {
    hide Guarded, DepthAfter;
    if |pieces| == 1 {
      CutEnd(s, 0);
    } else {
      var rest := Join(pieces[1..], ',');
      assert s == pieces[0] + [','] + rest;
      CutComma(pieces[0], 0, rest);
      ColumnsUnique(pieces[1..], rest);
      assert s[..|pieces[0]|] == pieces[0] && s[|pieces[0]| + 1..] == rest;
    }
  }

  // ---------------------------------------------------------------------------------------
  // Statements

  datatype Kind = TimestampMicros | Utf8 | UInt64 | Int64 | Int32 | Decimal128 | Boolean

  datatype Field = Field(name: string, kind: Kind)

  const DECIMAL := "DECIMAL(38,18)"

  function ArrowType(sql: string): Option<Kind> {
    if sql == "TIMESTAMPTZ" then Some(TimestampMicros)
    else if sql == "VARCHAR" || sql == "JSON" then Some(Utf8)
    else if sql == "UBIGINT" then Some(UInt64)
    else if sql == "BIGINT" then Some(Int64)
    else if sql == "INTEGER" then Some(Int32)
    else if sql == DECIMAL then Some(Decimal128)
    else if sql == "BOOLEAN" then Some(Boolean)
    else None
  }

  const CREATE := "CREATE TABLE IF NOT EXISTS "

  /** A statement is not a table, or a table, or a table with a column that cannot be read. */
  datatype Statement = Skipped | Table(name: string, fields: seq<Field>) | Broken

  /** The text without its trailing closing parentheses. */
  function StripParens(s: string): string {
    if s != "" && s[|s| - 1] == ')' then StripParens(s[..|s| - 1]) else s
  }

  /** The position of the first " (", or the length. */
  function FindOpening(s: string): (i: nat)
    ensures i == |s| || (i + 1 < |s| && s[i] == ' ' && s[i + 1] == '(')
  {
    if |s| < 2 then |s| else if s[0] == ' ' && s[1] == '(' then 0 else 1 + FindOpening(s[1..])
  }

  function ParseColumn(column: string): Option<Field> {
    var text := Trim(column);
    var space := Find(text, ' ');
    if space == |text| then None
    else
      match ArrowType(text[space + 1..])
      case None => None
      case Some(kind) => Some(Field(text[..space], kind))
  }

  function ParseFields(columns: seq<string>): Option<seq<Field>> {
    if columns == [] then Some([])
    else
      match (ParseColumn(columns[0]), ParseFields(columns[1..]))
      case (Some(field), Some(rest)) => Some([field] + rest)
      case _ => None
  }

  function ParseStatement(text: string): Statement {
    var statement := Trim(text);
    if !(CREATE <= statement) then Skipped
    else
      var rest := statement[|CREATE|..];
      var opening := FindOpening(rest);
      if opening == |rest| then Skipped
      else
        match ParseFields(Columns(StripParens(rest[opening + 2..])))
        case None => Broken
        case Some(fields) => Table(rest[..opening], fields)
  }

  // ---------------------------------------------------------------------------------------
  // The schema file

  function Parsed(texts: seq<string>): (r: seq<Statement>)
    ensures |r| == |texts|
  {
    if texts == [] then [] else [ParseStatement(texts[0])] + Parsed(texts[1..])
  }

  lemma {:induction false} ParsedAt(texts: seq<string>, n: nat)
    requires n < |texts|
    ensures Parsed(texts)[n] == ParseStatement(texts[n])
  {
    if n > 0 {
      ParsedAt(texts[1..], n - 1);
    }
  }

  /** The fields that the last of the first `n` statements on table `name` gives it. */
  function Defined(statements: seq<Statement>, n: nat, name: string): Option<seq<Field>>
    requires n <= |statements|
  {
    if n == 0 then None
    else if statements[n - 1].Table? && statements[n - 1].name == name then Some(statements[n - 1].fields)
    else Defined(statements, n - 1, name)
  }

  function Lookup(schemas: map<string, seq<Field>>, name: string): Option<seq<Field>> {
    if name in schemas then Some(schemas[name]) else None
  }

  /** The map holds, for every table, what its last statement so far gives it. */
  ghost predicate Agrees(schemas: map<string, seq<Field>>, statements: seq<Statement>, n: nat)
    requires n <= |statements|
  {
    forall name :: Lookup(schemas, name) == Defined(statements, n, name)
  }

  function Entered(schemas: map<string, seq<Field>>, statement: Statement): map<string, seq<Field>> {
    if statement.Table? then schemas[statement.name := statement.fields] else schemas
  }

  lemma AgreesAtFirst(statements: seq<Statement>)
    ensures Agrees(map[], statements, 0)
  {
  }

  lemma AgreesOn(schemas: map<string, seq<Field>>, statements: seq<Statement>, n: nat)
    requires n < |statements| && Agrees(schemas, statements, n)
    ensures Agrees(Entered(schemas, statements[n]), statements, n + 1)
  {
    var next := Entered(schemas, statements[n]);
    forall name ensures Lookup(next, name) == Defined(statements, n + 1, name) {
      assert Lookup(schemas, name) == Defined(statements, n, name);
    }
  }

  predicate SomeBroken(statements: seq<Statement>) {
    exists i :: 0 <= i < |statements| && statements[i].Broken?
  }

  predicate Sound(statements: seq<Statement>, n: nat)
    requires n <= |statements|
  {
    forall i :: 0 <= i < n ==> !statements[i].Broken?
  }

  /** Reads one statement. */
  method ReadStatement(texts: seq<string>, n: nat) returns (statement: Statement)
    requires n < |texts|
    ensures statement == Parsed(texts)[n]
  {
    ParsedAt(texts, n);
    return ParseStatement(texts[n]);
  }

  method ParseSchemas(text: string) returns (r: Result<map<string, seq<Field>>, string>)
    ensures r.Err? <==> SomeBroken(Parsed(Split(text, ';')))
    ensures r.Ok? ==> Agrees(r.value, Parsed(Split(text, ';')), |Split(text, ';')|)
  {
    hide Parsed, Split, Defined, Lookup;
    var texts := Split(text, ';');
    ghost var statements := Parsed(texts);
    AgreesAtFirst(statements);
    var schemas: map<string, seq<Field>> := map[];
    for n := 0 to |texts|
      invariant Sound(statements, n)
      invariant Agrees(schemas, statements, n)
    {
      var statement := ReadStatement(texts, n);
      if statement.Broken? {
        assert statements[n].Broken?;
        return Err(texts[n]);
      }
      AgreesOn(schemas, statements, n);
      schemas := Entered(schemas, statement);
    }
    return Ok(schemas);
  }

  // ---------------------------------------------------------------------------------------
  // Printed tables

  datatype Column = Column(name: string, sql: string)

  predicate IsWordChar(c: char) {
    !IsSpace(c) && c != ',' && c != '(' && c != ')' && c != ';'
  }

  predicate Word(s: string) {
    s != "" && forall i :: 0 <= i < |s| ==> IsWordChar(s[i])
  }

  predicate Printable(columns: seq<Column>) {
    && columns != [] && Word(columns[0].name) && ArrowType(columns[0].sql).Some?
    && (|columns| > 1 ==> Printable(columns[1..]))
  }

  function Bare(column: Column): string {
    column.name + " " + column.sql
  }

  /** The columns as they stand between the commas: a blank before each but the first. */
  function PieceTexts(columns: seq<Column>, lead: string): seq<string> {
    if columns == [] then [] else [lead + Bare(columns[0])] + PieceTexts(columns[1..], " ")
  }

  function PrintColumns(columns: seq<Column>): string {
    Join(PieceTexts(columns, ""), ',')
  }

  function PrintTable(name: string, columns: seq<Column>): string {
    CREATE + (name + (" (" + (PrintColumns(columns) + ")")))
  }

  function FieldsOf(columns: seq<Column>): seq<Field>
    requires Printable(columns)
  {
    [Field(columns[0].name, ArrowType(columns[0].sql).value)]
    + if |columns| == 1 then [] else FieldsOf(columns[1..])
  }

  /** Free of commas and parentheses. */
  predicate Flat(s: string) {
    forall i :: 0 <= i < |s| ==> s[i] != ',' && s[i] != '(' && s[i] != ')'
  }

  lemma {:induction false} FlatSkipped(s: string, rest: string, depth: nat)
    requires Flat(s)
    ensures Guarded(s + rest, depth) == Guarded(rest, depth) && DepthAfter(s + rest, depth) == DepthAfter(rest, depth)
  {
    if s == "" {
      assert s + rest == rest;
    } else {
      assert (s + rest)[1..] == s[1..] + rest;
      FlatSkipped(s[1..], rest, depth);
    }
  }

  lemma OneSkipped(c: char, rest: string, depth: nat)
    requires !(c == ',' && depth == 0)
    ensures Guarded([c] + rest, depth) == Guarded(rest, Deeper(depth, c))
    ensures DepthAfter([c] + rest, depth) == DepthAfter(rest, Deeper(depth, c))
  {
    assert ([c] + rest)[1..] == rest;
  }

  /** The scale of a decimal type, with or without its closing parenthesis. */
  lemma ScaleGuarded(close: string)
    requires close == ")" || close == ""
    ensures Guarded("(38,18" + close, 0) && (close == ")" ==> DepthAfter("(38,18" + close, 0) == 0)
  {
    var tail := "18" + close;
    assert "(38,18" + close == ['('] + ("38" + ([','] + tail));
    OneSkipped('(', "38" + ([','] + tail), 0);
    FlatSkipped("38", [','] + tail, 1);
    OneSkipped(',', tail, 1);
    FlatSkipped("18", close, 1);
    if close == ")" {
      assert close == [')'] + "";
      OneSkipped(')', "", 1);
    }
  }

  const CLIPPED := "DECIMAL(38,18"

  /** The printed types, and the decimal type that has lost its closing parenthesis. */
  predicate SqlText(sql: string) {
    ArrowType(sql).Some? || sql == CLIPPED
  }

  /** Printable, except that the last type may be clipped. */
  predicate Listed(columns: seq<Column>) {
    && columns != [] && Word(columns[0].name)
    && if |columns| == 1 then SqlText(columns[0].sql) else ArrowType(columns[0].sql).Some? && Listed(columns[1..])
  }

  predicate Closed(s: string) {
    Guarded(s, 0) && DepthAfter(s, 0) == 0
  }

  lemma DecimalGuarded()
    ensures Closed(DECIMAL) && Guarded(CLIPPED, 0)
  {
    assert DECIMAL == "DECIMAL" + ("(38,18" + ")") && CLIPPED == "DECIMAL" + ("(38,18" + "");
    FlatSkipped("DECIMAL", "(38,18" + ")", 0);
    FlatSkipped("DECIMAL", "(38,18" + "", 0);
    ScaleGuarded(")");
    ScaleGuarded("");
  }

  lemma FlatClosed(s: string)
    requires Flat(s)
    ensures Closed(s)
  {
    assert s + "" == s;
    FlatSkipped(s, "", 0);
  }

  lemma SqlFlat(sql: string)
    requires ArrowType(sql).Some? && sql != DECIMAL
    ensures Flat(sql)
  {
  }

  lemma SqlGuarded(sql: string)
    requires SqlText(sql)
    ensures Guarded(sql, 0) && (sql != CLIPPED ==> Closed(sql))
  {
    if sql == DECIMAL || sql == CLIPPED {
      DecimalGuarded();
    } else {
      SqlFlat(sql);
      FlatClosed(sql);
    }
  }

  predicate Lead(lead: string) {
    lead == "" || lead == " "
  }

  lemma PieceGuarded(lead: string, name: string, sql: string)
    requires Lead(lead) && Word(name)
    ensures Guarded(lead + (name + " " + sql), 0) == Guarded(sql, 0)
    ensures DepthAfter(lead + (name + " " + sql), 0) == DepthAfter(sql, 0)
  {
    var front := lead + name + " ";
    assert lead + (name + " " + sql) == front + sql;
    FlatSkipped(front, sql, 0);
  }

  lemma SqlEnds(sql: string)
    requires SqlText(sql)
    ensures sql != "" && !IsSpace(sql[|sql| - 1])
    ensures sql[|sql| - 1] == ')' <==> sql == DECIMAL
  {
  }

  lemma TrimLead(lead: string, s: string)
    requires Lead(lead) && Trimmed(s)
    ensures Trim(lead + s) == s
  {
    if lead == " " {
      assert (lead + s)[1..] == s;
      assert TrimStart(lead + s) == TrimStart(s);
    } else {
      assert lead + s == s;
    }
  }

  lemma BareSplits(name: string, sql: string)
    requires Word(name) && sql != "" && !IsSpace(sql[|sql| - 1])
    ensures var text := name + " " + sql;
      && Trimmed(text) && Find(text, ' ') == |name|
      && text[..|name|] == name && text[|name| + 1..] == sql
  {
    var text := name + " " + sql;
    assert text[0] == name[0] && text[|text| - 1] == sql[|sql| - 1];
    assert text[..|name|] == name && text[|name|] == ' ';
    assert ' ' !in name;
    FindFirst(text, ' ', |name|);
  }

  lemma ColumnReadBack(lead: string, name: string, sql: string)
    requires Lead(lead) && Word(name) && sql != "" && !IsSpace(sql[|sql| - 1])
    ensures ParseColumn(lead + (name + " " + sql))
         == if ArrowType(sql).Some? then Some(Field(name, ArrowType(sql).value)) else None
  {
    var text := name + " " + sql;
    BareSplits(name, sql);
    TrimLead(lead, text);
  }

  lemma ClippedUnknown()
    ensures ArrowType(CLIPPED).None?
  {
  }

  lemma {:induction false} PiecesGuarded(columns: seq<Column>, lead: string)
    requires Listed(columns) && Lead(lead)
    ensures var pieces := PieceTexts(columns, lead);
      && |pieces| == |columns|
      && (forall i :: 0 <= i < |pieces| ==> Guarded(pieces[i], 0))
      && (forall i :: 0 <= i < |pieces| - 1 ==> DepthAfter(pieces[i], 0) == 0)
  {
    PieceGuarded(lead, columns[0].name, columns[0].sql);
    SqlGuarded(columns[0].sql);
    if |columns| > 1 {
      ClippedUnknown();
      PiecesGuarded(columns[1..], " ");
    }
  }

  lemma ParseFieldsOne(piece: string)
    ensures ParseFields([piece])
         == match ParseColumn(piece) { case None => None case Some(field) => Some([field]) }
  {
    assert [piece][1..] == [] && ParseFields([]) == Some([]);
    if ParseColumn(piece).Some? {
      var field := ParseColumn(piece).value;
      assert [field] + [] == [field];
    }
  }

  function LastOf(columns: seq<Column>): Column
    requires columns != []
  {
    columns[|columns| - 1]
  }

  lemma OnePiece(columns: seq<Column>, lead: string)
    requires |columns| == 1
    ensures PieceTexts(columns, lead) == [lead + Bare(columns[0])]
  {
    assert PieceTexts(columns[1..], " ") == [];
  }

  lemma {:induction false} PiecesRead(columns: seq<Column>, lead: string)
    requires Printable(columns) && Lead(lead)
    ensures ParseFields(PieceTexts(columns, lead)) == Some(FieldsOf(columns))
  {
    var column := columns[0];
    SqlEnds(column.sql);
    ColumnReadBack(lead, column.name, column.sql);
    if |columns| == 1 {
      OnePiece(columns, lead);
      ParseFieldsOne(lead + Bare(column));
    } else {
      PiecesRead(columns[1..], " ");
    }
  }

  lemma {:induction false} PiecesUnread(columns: seq<Column>, lead: string)
    requires Listed(columns) && Lead(lead) && LastOf(columns).sql == CLIPPED
    ensures ParseFields(PieceTexts(columns, lead)).None?
  {
    if |columns| == 1 {
      ClippedUnknown();
      SqlEnds(CLIPPED);
      ColumnReadBack(lead, columns[0].name, CLIPPED);
      OnePiece(columns, lead);
      ParseFieldsOne(lead + Bare(columns[0]));
    } else {
      PiecesUnread(columns[1..], " ");
    }
  }

  lemma ColumnsReadBack(columns: seq<Column>)
    requires Listed(columns)
    ensures Columns(PrintColumns(columns)) == PieceTexts(columns, "")
  {
    PiecesGuarded(columns, "");
    ColumnsUnique(PieceTexts(columns, ""), PrintColumns(columns));
  }

  function Extended(columns: seq<Column>, x: string): seq<Column>
    requires columns != []
  {
    var last := columns[|columns| - 1];
    columns[..|columns| - 1] + [Column(last.name, last.sql + x)]
  }

  lemma {:induction false} PrintExtended(columns: seq<Column>, lead: string, x: string)
    requires columns != []
    ensures Join(PieceTexts(Extended(columns, x), lead), ',') == Join(PieceTexts(columns, lead), ',') + x
  {
    var longer := Extended(columns, x);
    if |columns| == 1 {
      assert PieceTexts([], " ") == [];
      assert columns[1..] == [] && longer[1..] == [];
    } else {
      assert longer[0] == columns[0] && longer[1..] == Extended(columns[1..], x);
      PrintExtended(columns[1..], " ", x);
    }
  }

  lemma BareEnd(column: Column)
    requires column.sql != ""
    ensures Bare(column) != "" && Bare(column)[|Bare(column)| - 1] == column.sql[|column.sql| - 1]
  {
  }

  lemma JoinCons(piece: string, more: seq<string>)
    requires more != [] && Join(more, ',') != ""
    ensures var text, rest := Join([piece] + more, ','), Join(more, ',');
      text != "" && text[|text| - 1] == rest[|rest| - 1]
  {
    assert ([piece] + more)[1..] == more;
  }

  lemma MorePieces(columns: seq<Column>, lead: string)
    requires |columns| > 1
    ensures PieceTexts(columns, lead) == [lead + Bare(columns[0])] + PieceTexts(columns[1..], " ")
    ensures PieceTexts(columns[1..], " ") != []
  {
    hide Bare;
  }

  lemma {:induction false} PrintEnd(columns: seq<Column>, lead: string)
    requires columns != [] && LastOf(columns).sql != ""
    ensures var text, sql := Join(PieceTexts(columns, lead), ','), LastOf(columns).sql;
      text != "" && text[|text| - 1] == sql[|sql| - 1]
  {
    hide PieceTexts, Bare;
    if |columns| == 1 {
      OnePiece(columns, lead);
      BareEnd(columns[0]);
    } else {
      hide Join;
      PrintEnd(columns[1..], " ");
      MorePieces(columns, lead);
      JoinCons(lead + Bare(columns[0]), PieceTexts(columns[1..], " "));
    }
  }

  lemma StripOne(s: string)
    requires s != "" && s[|s| - 1] != ')'
    ensures StripParens(s) == s && StripParens(s + ")") == s && StripParens(s + "))") == s
  {
    assert (s + ")")[..|s|] == s;
    assert (s + "))")[..|s| + 1] == s + ")";
  }

  lemma {:induction false} PrintableLast(columns: seq<Column>)
    requires Printable(columns)
    ensures ArrowType(LastOf(columns).sql).Some? && Listed(columns)
  {
    if |columns| > 1 {
      PrintableLast(columns[1..]);
    }
  }

  /** The last type does not end in a parenthesis: stripping takes away the printed one only. */
  lemma StrippedClean(columns: seq<Column>)
    requires Printable(columns) && LastOf(columns).sql != DECIMAL
    ensures StripParens(PrintColumns(columns) + ")") == PrintColumns(columns)
  {
    PrintableLast(columns);
    SqlEnds(LastOf(columns).sql);
    PrintEnd(columns, "");
    StripOne(PrintColumns(columns));
  }

  function Clipped(columns: seq<Column>): seq<Column>
    requires columns != []
  {
    columns[..|columns| - 1] + [Column(LastOf(columns).name, CLIPPED)]
  }

  lemma {:induction false} ClippedListed(columns: seq<Column>)
    requires Printable(columns)
    ensures Listed(Clipped(columns)) && LastOf(Clipped(columns)).sql == CLIPPED
  {
    if |columns| > 1 {
      assert Clipped(columns)[1..] == Clipped(columns[1..]);
      ClippedListed(columns[1..]);
    }
  }

  /** The last type ends in a parenthesis: stripping takes that away as well. */
  lemma StrippedClipped(columns: seq<Column>)
    requires columns != [] && LastOf(columns).sql == DECIMAL
    ensures StripParens(PrintColumns(columns) + ")") == PrintColumns(Clipped(columns))
  {
    var kept := Clipped(columns);
    assert CLIPPED + ")" == DECIMAL;
    assert Extended(kept, ")") == columns;
    PrintExtended(kept, "", ")");
    SqlEnds(CLIPPED);
    PrintEnd(kept, "");
    var text := PrintColumns(kept);
    StripOne(text);
    assert PrintColumns(columns) + ")" == text + "))";
  }

  lemma {:induction false} OpeningFound(name: string, rest: string)
    requires ' ' !in name
    ensures FindOpening(name + (" (" + rest)) == |name|
  {
    var s := name + (" (" + rest);
    if name != "" {
      assert s[0] == name[0] && name[0] in name;
      assert s[1..] == name[1..] + (" (" + rest);
      OpeningFound(name[1..], rest);
    }
  }

  lemma TableTrimmed(name: string, columns: seq<Column>)
    requires Word(name) && Printable(columns)
    ensures var text := PrintTable(name, columns);
      Trim(text) == text && CREATE <= text && text[|CREATE|..] == name + (" (" + (PrintColumns(columns) + ")"))
  {
    var text := PrintTable(name, columns);
    assert text[0] == CREATE[0] == 'C' && text[|text| - 1] == ')';
    assert text[..|CREATE|] == CREATE;
  }

  /** What is left of a printed table once its name is read. */
  lemma TableOpened(name: string, columns: seq<Column>)
    requires Word(name) && Printable(columns)
    ensures ParseStatement(PrintTable(name, columns))
         == match ParseFields(Columns(StripParens(PrintColumns(columns) + ")"))) {
              case None => Broken
              case Some(fields) => Table(name, fields)
            }
  {
    var list := PrintColumns(columns) + ")";
    var rest := name + (" (" + list);
    TableTrimmed(name, columns);
    assert ' ' !in name;
    OpeningFound(name, list);
    assert rest[..|name|] == name && rest[|name| + 2..] == list;
  }

  /** A printed table is read back exactly when its last type does not end in a parenthesis;
      otherwise the reader takes that parenthesis for the end of the list and fails. */
  lemma TableReadBack(name: string, columns: seq<Column>)
    requires Word(name) && Printable(columns)
    ensures ParseStatement(PrintTable(name, columns))
         == if LastOf(columns).sql == DECIMAL then Broken else Table(name, FieldsOf(columns))
  {
    TableOpened(name, columns);
    if LastOf(columns).sql == DECIMAL {
      StrippedClipped(columns);
      ClippedListed(columns);
      ColumnsReadBack(Clipped(columns));
      PiecesUnread(Clipped(columns), "");
    } else {
      StrippedClean(columns);
      PrintableLast(columns);
      ColumnsReadBack(columns);
      PiecesRead(columns, "");
    }
  }

  // ---------------------------------------------------------------------------------------
  // A printed file

  datatype TableDef = TableDef(name: string, columns: seq<Column>)

  predicate Legible(def: TableDef) {
    Word(def.name) && Printable(def.columns) && LastOf(def.columns).sql != DECIMAL
  }

  function PrintFile(defs: seq<TableDef>): seq<string> {
    if defs == [] then [] else [PrintTable(defs[0].name, defs[0].columns)] + PrintFile(defs[1..])
  }

  function TablesOf(defs: seq<TableDef>): seq<Statement>
    requires forall i :: 0 <= i < |defs| ==> Legible(defs[i])
  {
    if defs == [] then []
    else
      assert Legible(defs[0]);
      [Table(defs[0].name, FieldsOf(defs[0].columns))] + TablesOf(defs[1..])
  }

  lemma SqlPlain(sql: string)
    requires ArrowType(sql).Some?
    ensures ';' !in sql
  {
  }

  lemma BarePlain(column: Column, lead: string)
    requires Word(column.name) && ArrowType(column.sql).Some? && Lead(lead)
    ensures ';' !in lead + Bare(column)
  {
    SqlPlain(column.sql);
    hide ArrowType;
    assert ';' !in column.name;
  }

  lemma JoinPlain(piece: string, more: seq<string>)
    requires ';' !in piece && ';' !in Join(more, ',')
    ensures ';' !in Join([piece] + more, ',')
  {
    assert ([piece] + more)[1..] == more;
  }

  lemma {:induction false} ColumnsPlain(columns: seq<Column>, lead: string)
    requires Printable(columns) && Lead(lead)
    ensures ';' !in Join(PieceTexts(columns, lead), ',')
  {
    hide Bare;
    BarePlain(columns[0], lead);
    if |columns| == 1 {
      OnePiece(columns, lead);
    } else {
      MorePieces(columns, lead);
      ColumnsPlain(columns[1..], " ");
      hide PieceTexts;
      JoinPlain(lead + Bare(columns[0]), PieceTexts(columns[1..], " "));
    }
  }

  lemma TablePlain(name: string, columns: seq<Column>)
    requires Word(name) && Printable(columns)
    ensures ';' !in PrintTable(name, columns)
  {
    ColumnsPlain(columns, "");
    assert ';' !in name && ';' !in CREATE;
  }

  lemma {:induction false} FilePlain(defs: seq<TableDef>)
    requires forall i :: 0 <= i < |defs| ==> Legible(defs[i])
    ensures Free(PrintFile(defs), ';') && |PrintFile(defs)| == |defs|
    ensures Parsed(PrintFile(defs)) == TablesOf(defs)
  {
    if defs != [] {
      assert Legible(defs[0]);
      hide ParseStatement, PrintTable;
      TablePlain(defs[0].name, defs[0].columns);
      TableReadBack(defs[0].name, defs[0].columns);
      FilePlain(defs[1..]);
      assert PrintFile(defs)[1..] == PrintFile(defs[1..]);
    }
  }

  /** A whole printed file is read back: every statement gives its table with its columns. */
  lemma FileReadBack(defs: seq<TableDef>)
    requires defs != [] && forall i :: 0 <= i < |defs| ==> Legible(defs[i])
    ensures Parsed(Split(Join(PrintFile(defs), ';'), ';')) == TablesOf(defs)
  {
    FilePlain(defs);
    SplitJoin(PrintFile(defs), ';');
  }
}

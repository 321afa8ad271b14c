/** The foreign keys of the local schema. An import captures them, saves a statement that
    recreates each in a table of its own, drops them, and recreates them when it succeeds. */
module ForeignKeys {
  import opened Bytes

  datatype Rule = Cascade | SetNull | NoAction | Restrict | SetDefault

  datatype ForeignKey = ForeignKey(
    table: string,
    name: string,
    columns: seq<string>,
    refSchema: string,
    refTable: string,
    refColumns: seq<string>,
    onUpdate: Rule,
    onDelete: Rule)

  /** A table and a constraint name. */
  type Key = (string, string)

  // ------------------------------------------------------------------
  // The statement that recreates a key
  // ------------------------------------------------------------------

  function EscapeIdent(name: string): string {
    if name == "" then "" else (if name[0] == '`' then "``" else [name[0]]) + EscapeIdent(name[1..])
  }

  function Quoted(name: string): string { "`" + EscapeIdent(name) + "`" }

  function QuoteList(names: seq<string>): string {
    if names == [] then ""
    else if |names| == 1 then Quoted(names[0])
    else Quoted(names[0]) + (", " + QuoteList(names[1..]))
  }

  function RuleText(r: Rule): string {
    match r
    case Cascade => "CASCADE"
    case SetNull => "SET NULL"
    case NoAction => "NO ACTION"
    case Restrict => "RESTRICT"
    case SetDefault => "SET DEFAULT"
  }

  const ALTER := "ALTER TABLE "
  const ADD := " ADD CONSTRAINT "
  const KEY := " FOREIGN KEY ("
  const REFERENCES := ") REFERENCES "
  const UPDATE := ") ON UPDATE "
  const DELETE := " ON DELETE "

  /** `ref` names the referenced table. */
  function Statement(fk: ForeignKey, ref: string): string {
    ALTER + (Quoted(fk.table) + (ADD + (Quoted(fk.name) + (KEY + (QuoteList(fk.columns) + (REFERENCES
    + (ref + (" (" + (QuoteList(fk.refColumns) + (UPDATE
    + (RuleText(fk.onUpdate) + (DELETE + RuleText(fk.onDelete)))))))))))))
  }

  function Ddl(fk: ForeignKey): string { Statement(fk, Quoted(fk.refSchema) + ("." + Quoted(fk.refTable))) }

  /** For a key of the source: the referenced table is in the local schema, and not qualified. */
  function SourceDdl(fk: ForeignKey): string { Statement(fk, Quoted(fk.refTable)) }

  // ------------------------------------------------------------------
  // How MySQL reads it
  // ------------------------------------------------------------------

  type Parsed<T> = Option<(T, string)>

  function Expect(word: string, s: string): Option<string> {
    if word <= s then Some(s[|word|..]) else None
  }

  /** The rest of a quoted identifier; a doubled backtick stands for one. */
  function ReadIdent(s: string): (p: Parsed<string>)
    ensures p.Some? ==> |p.value.1| < |s|
  {
    if s == "" then None
    else if s[0] == '`' && (|s| == 1 || s[1] != '`') then Some(("", s[1..]))
    else
      var p :- ReadIdent(s[if s[0] == '`' then 2 else 1..]);
      Some(([s[0]] + p.0, p.1))
  }

  function ReadQuoted(s: string): (p: Parsed<string>)
    ensures p.Some? ==> |p.value.1| < |s|
  {
    var s :- Expect("`", s);
    ReadIdent(s)
  }

  function ReadList(s: string): Parsed<seq<string>>
    decreases |s|
  {
    match ReadQuoted(s)
    case None => Some(([], s))
    case Some(p) =>
      match Expect(", ", p.1)
      case None => Some(([p.0], p.1))
      case Some(more) =>
        var q :- ReadList(more);
        Some(([p.0] + q.0, q.1))
  }

  function ReadRule(s: string): Parsed<Rule> {
    if "CASCADE" <= s then Some((Cascade, s[7..]))
    else if "SET NULL" <= s then Some((SetNull, s[8..]))
    else if "NO ACTION" <= s then Some((NoAction, s[9..]))
    else if "RESTRICT" <= s then Some((Restrict, s[8..]))
    else if "SET DEFAULT" <= s then Some((SetDefault, s[11..]))
    else None
  }

  /** A table's schema and name; one without a schema is in the current one. */
  function ReadTable(here: string, s: string): Parsed<(string, string)> {
    var first :- ReadQuoted(s);
    match Expect(".", first.1)
    case None => Some(((here, first.0), first.1))
    case Some(more) =>
      var second :- ReadQuoted(more);
      Some(((first.0, second.0), second.1))
  }

  function ParseIn(here: string, s: string): Option<ForeignKey> {
    var s :- Expect("ALTER TABLE ", s);
    var table :- ReadQuoted(s);
    var s :- Expect(" ADD CONSTRAINT ", table.1);
    var name :- ReadQuoted(s);
    var s :- Expect(" FOREIGN KEY (", name.1);
    var columns :- ReadList(s);
    var s :- Expect(") REFERENCES ", columns.1);
    var ref :- ReadTable(here, s);
    var s :- Expect(" (", ref.1);
    var refColumns :- ReadList(s);
    var s :- Expect(") ON UPDATE ", refColumns.1);
    var onUpdate :- ReadRule(s);
    var s :- Expect(" ON DELETE ", onUpdate.1);
    var onDelete :- ReadRule(s);
    Some(ForeignKey(table.0, name.0, columns.0, ref.0.0, ref.0.1, refColumns.0, onUpdate.0, onDelete.0))
  }

  /** A saved statement, which names the schema of the referenced table. */
  function ParseDdl(s: string): Option<ForeignKey> { ParseIn("", s) }

  lemma Expected(word: string, rest: string)
    ensures Expect(word, word + rest) == Some(rest)
  {
  }

  lemma {:induction false} ReadEscaped(name: string, rest: string)
    requires rest == "" || rest[0] != '`'
    ensures ReadIdent(EscapeIdent(name) + ("`" + rest)) == Some((name, rest))
  {
    var s := EscapeIdent(name) + ("`" + rest);
    if name == "" {
      assert s == "`" + rest;
    } else {
      var tail := EscapeIdent(name[1..]) + ("`" + rest);
      ReadEscaped(name[1..], rest);
      assert s == (if name[0] == '`' then "``" else [name[0]]) + tail;
      assert s[if s[0] == '`' then 2 else 1..] == tail;
      assert [name[0]] + name[1..] == name;
    }
  }

  lemma QuotedReads(name: string, rest: string)
    requires rest == "" || rest[0] != '`'
    ensures ReadQuoted(Quoted(name) + rest) == Some((name, rest))
  {
    ReadEscaped(name, rest);
    assert Quoted(name) + rest == "`" + (EscapeIdent(name) + ("`" + rest));
    Expected("`", EscapeIdent(name) + ("`" + rest));
  }

  lemma {:induction false} ListReads(names: seq<string>, rest: string)
    requires rest != "" && rest[0] == ')'
    ensures ReadList(QuoteList(names) + rest) == Some((names, rest))
  {
    if |names| == 1 {
      QuotedReads(names[0], rest);
      assert [names[0]] == names;
    } else if |names| > 1 {
      var more := QuoteList(names[1..]) + rest;
      assert QuoteList(names) + rest == Quoted(names[0]) + (", " + more);
      QuotedReads(names[0], ", " + more);
      Expected(", ", more);
      ListReads(names[1..], rest);
      assert [names[0]] + names[1..] == names;
    } else {
      assert QuoteList(names) + rest == rest;
    }
  }

  lemma RuleReads(r: Rule, rest: string)
    ensures ReadRule(RuleText(r) + rest) == Some((r, rest))
  {
    var s := RuleText(r) + rest;
    assert RuleText(r) <= s && s[0] == RuleText(r)[0] && s[4] == RuleText(r)[4];
    NotPrefix(Cascade, s);
    NotPrefix(SetNull, s);
    NotPrefix(NoAction, s);
    NotPrefix(Restrict, s);
    match r
    case Cascade => assert s[7..] == rest;
    case SetNull => assert s[8..] == rest;
    case NoAction => assert s[9..] == rest;
    case Restrict => assert s[8..] == rest;
    case SetDefault => assert s[11..] == rest;
  }

  lemma NotPrefix(r: Rule, s: string)
    ensures RuleText(r) <= s ==> s[0] == RuleText(r)[0] && s[4] == RuleText(r)[4]
  {
  }

  lemma {:induction false} StatementReads(fk: ForeignKey, here: string, ref: string, schema: string)
    requires forall rest :: ReadTable(here, ref + (" (" + rest)) == Some(((schema, fk.refTable), " (" + rest))
    ensures ParseIn(here, Statement(fk, ref)) == Some(fk.(refSchema := schema))
  {
    hide Expect, ReadQuoted, ReadList, ReadRule, Quoted, QuoteList, RuleText, ReadTable;
    var onDelete := RuleText(fk.onDelete);
    var afterUpdate := DELETE + onDelete;
    var onUpdate := RuleText(fk.onUpdate) + afterUpdate;
    var afterColumns := UPDATE + onUpdate;
    var refColumns := QuoteList(fk.refColumns) + afterColumns;
    var afterRef := " (" + refColumns;
    var table := ref + afterRef;
    var afterList := REFERENCES + table;
    var columns := QuoteList(fk.columns) + afterList;
    var afterName := KEY + columns;
    var name := Quoted(fk.name) + afterName;
    var afterTable := ADD + name;
    Expected(ALTER, Quoted(fk.table) + afterTable);
    QuotedReads(fk.table, afterTable);
    Expected(ADD, name);
    QuotedReads(fk.name, afterName);
    Expected(KEY, columns);
    ListReads(fk.columns, afterList);
    Expected(REFERENCES, table);
    assert ReadTable(here, table) == Some(((schema, fk.refTable), afterRef));
    Expected(" (", refColumns);
    ListReads(fk.refColumns, afterColumns);
    Expected(UPDATE, onUpdate);
    RuleReads(fk.onUpdate, afterUpdate);
    Expected(DELETE, onDelete);
    assert onDelete + "" == onDelete;
    RuleReads(fk.onDelete, "");
  }

  /** A saved statement recreates exactly the key it was made from, whatever its names contain. */
  lemma DdlRecreates(fk: ForeignKey)
    ensures ParseDdl(Ddl(fk)) == Some(fk)
  {
    hide Expect, ReadQuoted, Quoted, ParseIn, Statement;
    var ref := Quoted(fk.refSchema) + ("." + Quoted(fk.refTable));
    forall rest
      ensures ReadTable("", ref + (" (" + rest)) == Some(((fk.refSchema, fk.refTable), " (" + rest))
    {
      var more := Quoted(fk.refTable) + (" (" + rest);
      assert ref + (" (" + rest) == Quoted(fk.refSchema) + ("." + more);
      QuotedReads(fk.refSchema, "." + more);
      Expected(".", more);
      QuotedReads(fk.refTable, " (" + rest);
    }
    StatementReads(fk, "", ref, fk.refSchema);
  }

  /** The statement run, or printed, for a key of the source makes that key, to a table of the
      schema it is run in. */
  lemma SourceDdlRecreates(fk: ForeignKey, here: string)
    ensures ParseIn(here, SourceDdl(fk)) == Some(fk.(refSchema := here))
  {
    hide ReadQuoted, Quoted, ParseIn, Statement;
    forall rest
      ensures ReadTable(here, Quoted(fk.refTable) + (" (" + rest)) == Some(((here, fk.refTable), " (" + rest))
    {
      QuotedReads(fk.refTable, " (" + rest);
      assert (" (" + rest)[0] == ' ';
    }
    StatementReads(fk, here, Quoted(fk.refTable), here);
  }
}

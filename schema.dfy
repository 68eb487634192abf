/**
 * `format_schema`: the schema mapping as text for the prompt, one line per table.
 *
 * A Python dict iterates in insertion order, so the mapping is the sequence of
 * its `(table, columns)` items.
 */
module SchemaFormat {
  import opened Text

  type Schema = seq<(string, seq<string>)>

  /** The line of one table: `- TABLE(col1, col2, ...)`. */
  function TableLine(table: string, columns: seq<string>): string {
    "- " + table + "(" + Join(columns, ", ") + ")"
  }

  /** The lines of the tables, in the mapping's order. */
  function TableLines(schema: Schema): (lines: seq<string>)
    ensures |lines| == |schema|
    ensures forall i :: 0 <= i < |schema| ==> lines[i] == TableLine(schema[i].0, schema[i].1)
  {
    seq(|schema|, i requires 0 <= i < |schema| => TableLine(schema[i].0, schema[i].1))
  }

  /** The text `format_schema` returns. */
  function SchemaText(schema: Schema): string {
    Join(TableLines(schema), "\n")
  }

  /** `format_schema`: the lines gathered in a loop, then joined with newlines. */
  method FormatSchema(schema: Schema) returns (text: string)
    ensures text == SchemaText(schema)
  {
    var lines: seq<string> := [];
    for i := 0 to |schema|
      invariant lines == TableLines(schema[..i])
    {
      var (table, columns) := schema[i];
      lines := lines + [TableLine(table, columns)];
    }
    assert schema[..|schema|] == schema;
    text := Join(lines, "\n");
  }

  lemma {:induction false} JoinEnds(parts: seq<string>, sep: string)
    requires |parts| > 0
    ensures EndsWith(Join(parts, sep), parts[|parts| - 1])
    ensures StartsWith(Join(parts, sep), parts[0])
    decreases |parts|
  {
    if |parts| > 1 {
      JoinEnds(parts[1..], sep);
      var rest := Join(parts[1..], sep);
      assert Join(parts, sep) == parts[0] + sep + rest;
      var last := parts[|parts| - 1];
      assert parts[1..][|parts[1..]| - 1] == last;
      assert rest[|rest| - |last|..] == last;
      assert (parts[0] + sep + rest)[|parts[0] + sep + rest| - |last|..] == rest[|rest| - |last|..];
      assert (parts[0] + sep + rest)[..|parts[0]|] == parts[0];
    }
  }

  /**
   * The text is empty exactly for an empty schema; otherwise it starts with the
   * first table's line and ends with the last one's closing parenthesis, so there
   * is no trailing newline.
   */
  lemma SchemaTextEnds(schema: Schema)
    ensures SchemaText(schema) == "" <==> schema == []
    ensures schema != [] ==> StartsWith(SchemaText(schema), TableLine(schema[0].0, schema[0].1))
    ensures schema != [] ==> SchemaText(schema)[|SchemaText(schema)| - 1] == ')'
  {
    if schema != [] {
      var lines := TableLines(schema);
      JoinEnds(lines, "\n");
      var last := lines[|lines| - 1];
      var text := SchemaText(schema);
      assert text[|text| - |last|..] == last;
      assert last[|last| - 1] == ')';
      assert text[|text| - 1] == text[|text| - |last|..][|last| - 1];
    }
  }

  /** A table without columns gives `- T()`; the columns appear in their given order, separated by `, `. */
  lemma TableLineShape(table: string, columns: seq<string>)
    ensures columns == [] ==> TableLine(table, columns) == "- " + table + "()"
    ensures |columns| == 1 ==> TableLine(table, columns) == "- " + table + "(" + columns[0] + ")"
    ensures |columns| > 1 ==>
      TableLine(table, columns) == "- " + table + "(" + columns[0] + ", " + Join(columns[1..], ", ") + ")"
  {
  }

  /**
   * When no table or column name contains a newline, splitting the text at newlines
   * gives back exactly one line per table, in the schema's order.
   */
  lemma {:induction false} SchemaTextLines(schema: Schema)
    requires schema != []
    requires forall i :: 0 <= i < |schema| ==> '\n' !in schema[i].0
    requires forall i, j :: 0 <= i < |schema| && 0 <= j < |schema[i].1| ==> '\n' !in schema[i].1[j]
    ensures Split(SchemaText(schema), '\n') == TableLines(schema)
  {
    var lines := TableLines(schema);
    forall i | 0 <= i < |lines| ensures '\n' !in lines[i] {
      NoNewlineInLine(schema[i].0, schema[i].1);
    }
    SplitJoin(lines, '\n');
  }

  lemma {:induction false} NoNewlineInJoin(parts: seq<string>)
    requires forall j :: 0 <= j < |parts| ==> '\n' !in parts[j]
    ensures '\n' !in Join(parts, ", ")
    decreases |parts|
  {
    if |parts| > 1 {
      NoNewlineInJoin(parts[1..]);
    }
  }

  lemma NoNewlineInLine(table: string, columns: seq<string>)
    requires '\n' !in table
    requires forall j :: 0 <= j < |columns| ==> '\n' !in columns[j]
    ensures '\n' !in TableLine(table, columns)
  {
    NoNewlineInJoin(columns);
  }
}

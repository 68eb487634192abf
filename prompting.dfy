/** The instructions sent to the text-generation backend: `SYSTEM_PROMPT` and `build_user_prompt`. */
module Prompting {
  import opened Wrappers
  import opened Text
  import opened SchemaFormat

  /** `SYSTEM_PROMPT` */
  const SystemPrompt: string :=
    "You are an expert data analyst who writes correct SQL.\n"
    + "\n"
    + "Hard rules:\n"
    + "- Output ONLY SQL (no markdown, no backticks, no explanations).\n"
    + "- Output exactly ONE statement.\n"
    + "- The statement MUST be a SELECT (read-only).\n"
    + "- The SQL MUST end with a semicolon ';'.\n"
    + "- Use only tables/columns that exist in the provided schema.\n"
    + "- Prefer simple SQL.\n"

  /** The dialect line and the schema heading that open the user prompt. */
  function Header(dialect: string): string {
    "Database dialect: " + dialect + "\n\nSchema:\n"
  }

  /** The text between the schema and the question. */
  const TaskLead: string := "\n\nTask:\nWrite ONE SELECT query that answers:\n"

  /** The closing instruction. */
  const Closing: string := "\n\nReturn ONLY the SQL and end it with a semicolon.\n"

  /** Everything the prompt holds before the question. */
  function BeforeQuestion(schema: Schema, dialect: string): string {
    Header(dialect) + SchemaText(schema) + TaskLead
  }

  /** The pieces of a three-part concatenation can be sliced back out. */
  lemma Pieces(a: string, b: string, c: string)
    ensures (a + b + c)[..|a|] == a
    ensures (a + b + c)[|a|..|a| + |b|] == b
    ensures (a + b + c)[|a + b + c| - |c|..] == c
  {
  }

  /**
   * `build_user_prompt(question, schema, dialect)`. It opens with the dialect line
   * and the schema heading, the schema section is exactly the formatted schema
   * followed by the task line, the question comes right after the task line
   * verbatim, and the closing instruction ends it.
   */
  function BuildUserPrompt(question: string, schema: Schema, dialect: string): (prompt: string)
    ensures |prompt| == |BeforeQuestion(schema, dialect)| + |question| + |Closing|
    ensures StartsWith(prompt, Header(dialect))
    ensures prompt[|Header(dialect)|..|Header(dialect)| + |SchemaText(schema)|] == SchemaText(schema)
    ensures prompt[..|BeforeQuestion(schema, dialect)|] == BeforeQuestion(schema, dialect)
    ensures prompt[|BeforeQuestion(schema, dialect)|..|prompt| - |Closing|] == question
    ensures EndsWith(prompt, Closing)
  {
    var before := BeforeQuestion(schema, dialect);
    Pieces(before, question, Closing);
    Pieces(Header(dialect), SchemaText(schema), TaskLead);
    var p := before + question + Closing;
    assert p[..|before|] == before;
    assert p[..|Header(dialect)|] == before[..|Header(dialect)|];
    assert p[|Header(dialect)|..|Header(dialect)| + |SchemaText(schema)|]
        == before[|Header(dialect)|..|Header(dialect)| + |SchemaText(schema)|];
    p
  }

  /** The question read back out of a prompt built for this schema and dialect, if the prompt has that frame. */
  function QuestionOf(prompt: string, schema: Schema, dialect: string): Option<string> {
    var before := BeforeQuestion(schema, dialect);
    if |before| + |Closing| <= |prompt| && prompt[..|before|] == before && prompt[|prompt| - |Closing|..] == Closing
    then Some(prompt[|before|..|prompt| - |Closing|])
    else None
  }

  /** The question can be recovered from the prompt, so different questions give different prompts. */
  lemma QuestionRecovered(question: string, schema: Schema, dialect: string)
    ensures QuestionOf(BuildUserPrompt(question, schema, dialect), schema, dialect) == Some(question)
  {
    var p := BuildUserPrompt(question, schema, dialect);
  }

  lemma PromptInjective(q1: string, q2: string, schema: Schema, dialect: string)
    requires BuildUserPrompt(q1, schema, dialect) == BuildUserPrompt(q2, schema, dialect)
    ensures q1 == q2
  {
    QuestionRecovered(q1, schema, dialect);
    QuestionRecovered(q2, schema, dialect);
  }
}

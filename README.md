# Text-to-SQL: a verified model of the request path

Text-to-SQL is a Streamlit page. It turns a natural-language question into a SQLite
query through a text-generation backend (Groq or a local Ollama), then runs the query
read-only and keeps an audit record of each request it handles (a request whose
provider cannot be created is not logged). This project models in Dafny
the text and decision logic on that path, and proves what it promises:

- the SQL safety gate, `validate_and_rewrite_select` (module `Safety`, `safety.dfy`).
  It refuses empty text, parse failures, more than one statement and anything but a
  read-only query, then gives the outermost query a LIMIT when it has none;
- the execution guard `_prepare_for_execute` and the client key `_get_client_key` of
  the page (module `AppGuards`, `app_guards.dfy`);
- the page's request flow from the Run button to the audit records (module
  `AppFlow`, `app_flow.dfy`). It covers the length check, the rate check, the
  creation of the provider by `get_provider`, the schema, the prompt and the request
  body sent, the streamed or generated reply, the gate, the guard, the query, and the
  `except` and `finally` clauses;
- the sliding-window rate limiter `check_rate_limit` / `reset_rate_limits` (module
  `RateLimit`, `rate_limit.dfy`). It is a class whose map field plays `_HITS`;
- `format_schema` (module `SchemaFormat`, `schema.dfy`), and `build_user_prompt` with
  `SYSTEM_PROMPT` (module `Prompting`, `prompting.dfy`);
- the provider helpers of `GroqProvider` and `OllamaProvider` (modules `Groq` and
  `Ollama`, with `Chat` for what they share). These are constructor normalisation,
  the endpoint rule, the payloads, the reply text, and the framing of the streamed
  reply's lines.

`Text` (`text.dfy`) holds the Python string operations the model needs: `str.strip`
and `str.rstrip` over the `str.isspace` set, `startswith`, `join`, `split`, and `str(int)`.
`Wrappers` (`wrappers.dfy`) holds `Option` and `Result`.

Foreign code enters as function-typed parameters:
- the sqlglot parser and printer (`parse`, `render` over a small statement tree);
- the JSON decoder of one reply line;
- the candidate extractor;
- what the Ollama server replies to a request body, generated or streamed;
- the database query.

The clock reading, the request headers, the session identifier and the HTTP status
outcomes are plain parameters.

The provider objects are modelled as values (`GroqProvider`, `OllamaProvider`
datatypes): their constructors set fields once and nothing updates them later. The
rate limiter's `_HITS` is updated per call and is a class field. The places where the
source works step by step are methods with loops, proved equal to the pure
functions that define them:
- the LIMIT rewrite through the `top_query` alias;
- the `format_schema` loop;
- the framing loops of both providers;
- the accumulation of `buf` and the locals of the request flow.

Two behaviours of the page's `try`/`finally` structure (ui/app.py:675-813) are worth
knowing, and the model keeps both as the code has them:

- When a stream raises part way, the record written by `finally` has an empty
  `raw_sql`, although `buf` holds the text received so far: `buf` is never copied into
  `raw_sql`. This is `AppFlow.StreamFailureDropsText`.
- In stream mode a normal reply is logged twice. The first record comes from the
  `log_event` inside the `try`. The second comes from `finally`, which runs as
  `st.stop()` raises, and has every stage empty. This is `AppFlow.StreamLogsTwice`.

Other points the proofs make plain:
- On denial, `retry_after` is never negative in exact arithmetic, because every kept
  time is at least `now - window_sec`. The `max(0.0, …)` clamp therefore never acts,
  floating-point rounding aside (`RateLimit.RetryAfterBounds`).
- `GroqProvider` tests the API key before stripping it, so a key of blanks is
  accepted and becomes empty (`Groq.BlankKeyAccepted`).
- The execution guard refuses `a; ;`: only the final run of semicolons is removed
  (`AppGuards.SpacedSemicolonsExample`).
- `get_provider` passes `max_output_tokens` to `GroqProvider`, whose constructor does
  not take it, so with the groq provider every request past the two checks crashes
  unlogged and no question reaches a model (`AppFlow.OnlyOllamaGenerates`).
- A forwarded-for header that is present but blank in its first field hides the
  real-ip header: the key falls back to the session (`AppGuards.BlankFirstHopFallsBack`).

## Model

| member | source | states |
|---|---|---|
| Safety.IsSelectStatement | t2s/sql/safety.py:17-26 | a SELECT, a set operation, or a WITH whose body is one of those; the statement kinds `GateAccepts` and `GateRejects` are stated over |
| Safety.Gate | t2s/sql/safety.py:28-62 | the gate as a function of the text, the parser and printer and the default; what it accepts and refuses is stated by `GateAccepts`, `GateRejects` and `AcceptedResult` |
| Safety.WithTopLimit | t2s/sql/safety.py:48-58 | setting the top query's LIMIT (the WITH body, or the tree itself) keeps the tree of an accepted shape, and the top LIMIT is then the one set |
| Safety.RewriteLimit | t2s/sql/safety.py:46-59 | after the rewrite the top query always has a LIMIT; `limit_added` holds exactly when it had none; the LIMIT is the default when added, the old one otherwise; nothing but the top LIMIT argument differs from the input tree |
| Safety.ValidateAndRewriteSelect | t2s/sql/safety.py:28-62 | the gate as the code runs it: the checks in order, the LIMIT set in place through the `top_query` alias. Its result equals the gate function `Gate` |
| Safety.GateAccepts | t2s/sql/safety.py:17-44 | the gate accepts exactly non-blank text that parses to one statement that is a SELECT, a UNION/INTERSECT/EXCEPT, or a WITH whose body is one of those |
| Safety.GateRejects | t2s/sql/safety.py:29-44 | which error is raised, in the order of the checks: empty, parse error with the parser's message, not a single statement, not a SELECT |
| Safety.EmptyRejectedBeforeParsing | t2s/sql/safety.py:29-30 | blank text is refused as empty whatever the parser would do with it |
| Safety.AcceptedResult | t2s/sql/safety.py:47-62 | an accepted query's output is the printing of the parsed tree, with the default LIMIT set exactly when `limit_added`, and of the unchanged tree otherwise |
| Safety.TopLimitAndRestDetermineTree | t2s/sql/safety.py:56-61 | two accepted trees that agree on their top LIMIT and on everything else are equal, so the rewrite changes one argument only |
| Safety.RewriteIdempotent | t2s/sql/safety.py:56-59 | rewriting a rewritten tree changes nothing and reports no LIMIT added |
| Safety.SecondPassAddsNoLimit | t2s/sql/safety.py:56-62 | when the printer's output parses back to the same tree, the gate accepts its own output unchanged with `limit_added = false` |
| Safety.SingleSelect | t2s/sql/safety.py:46-62 | a single parsed SELECT gains the default LIMIT, reported, when it has none, and keeps its own LIMIT, not reported, otherwise |
| Safety.ScenarioAddsLimit | tests/test_safety.py:4-7 | `SELECT * FROM STUDENT` with default 50 becomes the printing of the query with `LIMIT 50`, and `limit_added` is true |
| Safety.ScenarioKeepsLimit | tests/test_safety.py:17-20 | `SELECT * FROM STUDENT LIMIT 10` with default 50 keeps `LIMIT 10`, and `limit_added` is false |
| Safety.SeveralStatements | t2s/sql/safety.py:38-39 | more than one parsed statement is refused as not a single statement |
| Safety.ScenarioTwoStatements | tests/test_safety.py:9-11 | `SELECT 1; DROP TABLE STUDENT` is refused |
| Safety.ScenarioNotSelect | tests/test_safety.py:13-15 | a DELETE, or a WITH whose body is not a query, is refused with "Only SELECT queries are allowed." |
| RateLimit.Pruned | t2s/security/rate_limit.py:22-23 | the pruned list holds exactly the times at or after the cutoff, the boundary included |
| RateLimit.PrunedAppend | t2s/security/rate_limit.py:23 | pruning keeps the surviving times in their order |
| RateLimit.PrunedKeepsAll | t2s/security/rate_limit.py:23 | a list inside the window is kept whole |
| RateLimit.PrunedDropsAll | t2s/security/rate_limit.py:23 | a list entirely before the cutoff is emptied |
| RateLimit.Step | t2s/security/rate_limit.py:11-32 | one check on the map of recorded times; its effect is stated by `StepEffect`, `RetryAfterBounds`, `StepKeepsBounded` and `BurstThenDeny` |
| RateLimit.RateLimiter.constructor | t2s/security/rate_limit.py:8 | the limiter starts with no recorded times |
| RateLimit.RateLimiter.Check | t2s/security/rate_limit.py:11-32 | one check as the code runs it: the new `_HITS` and the answer are those of the step function `Step` |
| RateLimit.RateLimiter.Reset | t2s/security/rate_limit.py:35-37 | every key is forgotten |
| RateLimit.DegenerateConfigAdmits | t2s/security/rate_limit.py:16-17 | a non-positive maximum or window admits with `(True, 0.0)` and leaves the state untouched |
| RateLimit.StepEffect | t2s/security/rate_limit.py:21-32 | a check denies exactly when the pruned times number at least the maximum; a denial stores the pruned list, an admission stores it with `now` appended and answers 0.0; no other key is written |
| RateLimit.RetryAfterBounds | t2s/security/rate_limit.py:25-28 | on denial the retry time runs until the oldest kept time leaves the window; it is never negative and at most the window |
| RateLimit.StepKeepsBounded | t2s/security/rate_limit.py:25-31 | with a fixed maximum no key's list grows beyond it |
| RateLimit.ReadmittedAfterRetry | t2s/security/rate_limit.py:21-32 | a denied key holding at most the maximum number of times is admitted by a check made after the denial's retry time has passed |
| RateLimit.WindowExpiry | t2s/security/rate_limit.py:21-32 | once every recorded time of a key is outside the window, the next check is admitted and starts a new list |
| RateLimit.AdmitInsideWindow | t2s/security/rate_limit.py:25-32 | fewer than the maximum recorded times, all inside the window: admitted and `now` appended |
| RateLimit.BurstPrefix | t2s/security/rate_limit.py:25-32 | the first checks of a fresh key inside one window, up to the maximum, are all admitted and recorded in order |
| RateLimit.BurstThenDeny | t2s/security/rate_limit.py:25-32 | the maximum number of checks inside one window is admitted and the next is denied, with the retry time until the first admitted time leaves the window |
| SchemaFormat.TableLines | t2s/sql/schema.py:24-25 | one line per table, in the mapping's order; the line's shape is `TableLineShape` and the text's lines are `SchemaTextLines` |
| SchemaFormat.FormatSchema | t2s/sql/schema.py:22-26 | the loop that gathers the lines, then joins them, returns the schema text |
| SchemaFormat.SchemaTextEnds | t2s/sql/schema.py:23-26 | the text is empty exactly for an empty schema; otherwise it starts with the first table's line and ends with `)`, with no trailing newline |
| SchemaFormat.TableLineShape | t2s/sql/schema.py:25 | a table without columns gives `- T()`; the columns appear in order, separated by `, ` |
| SchemaFormat.SchemaTextLines | t2s/sql/schema.py:25-26 | when no name holds a newline, splitting the text at newlines gives back the lines of the tables in order |
| Prompting.SystemPrompt | t2s/sql/prompting.py:6-15 | the fixed system instruction; `AppFlow.Sent` states that it is the first message of every request body |
| Prompting.BuildUserPrompt | t2s/sql/prompting.py:17-29 | the prompt opens with the dialect line and the schema heading; the schema section is the formatted schema; the question follows the task line verbatim; the closing instruction ends it |
| Prompting.QuestionRecovered | t2s/sql/prompting.py:17-29 | the question can be read back out of the prompt |
| Prompting.PromptInjective | t2s/sql/prompting.py:17-29 | different questions give different prompts for the same schema and dialect |
| Chat.Messages | t2s/providers/groq.py:43-46 | the messages list is the system instruction, then the user instruction; `AppFlow.Sent` ties them to `SYSTEM_PROMPT` and the built prompt |
| Groq.NormaliseBaseUrl | t2s/providers/groq.py:21 | the base URL is the given one, or the default when empty, stripped, with all its trailing slashes removed |
| Groq.NewGroqProvider | t2s/providers/groq.py:17-22 | an empty key is refused with the missing-key message; otherwise the key is stripped and the base URL normalised |
| Groq.BlankKeyAccepted | t2s/providers/groq.py:18-20 | a key of blanks passes the check and is stored empty |
| Groq.Endpoint | t2s/providers/groq.py:31-36 | the endpoint is the base followed by the path when the base ends with `/openai/v1`, and by `/openai/v1` then the path otherwise; either way it ends with `/openai/v1` and the path |
| Groq.EndpointEitherBase | t2s/providers/groq.py:31-36 | a base with or without its `/openai/v1` part gives the same endpoint |
| Groq.DocumentedBaseUrls | t2s/providers/groq.py:12-21 | the two documented base URL forms, host alone and host with `/openai/v1/`, give the same endpoint |
| Groq.Payload | t2s/providers/groq.py:38-47 | the payload carries the provider's model, the given stream flag, and the system then the user message (a definition; the Ollama counterpart is used by `AppFlow.Sent`) |
| Groq.CompletionText | t2s/providers/groq.py:57-61 | a status of 400 or more raises with the status and the body; otherwise the content, a null read as empty, is returned stripped; `GenerateSqlStream` raises the same error for the streamed call |
| Groq.EventText | t2s/providers/groq.py:81-82 | a `data:` prefix removed and the rest stripped; `Frames`, `NothingAfterDone` and `SkippedLines` are stated over it |
| Groq.IsDoneLine | t2s/providers/groq.py:83-84 | a non-empty line whose event text is `[DONE]`; `NothingAfterDone` states that nothing follows it |
| Groq.Frames | t2s/providers/groq.py:73-92 | no empty chunk is ever yielded |
| Groq.FramesAppend | t2s/providers/groq.py:73-92 | the lines of a reply can be framed part by part: framing distributes over concatenation of line lists |
| Groq.NothingAfterDone | t2s/providers/groq.py:83-84 | nothing after a `[DONE]` line is yielded, and that line yields nothing itself |
| Groq.SkippedLines | t2s/providers/groq.py:74-88 | empty lines and lines that do not decode change nothing in the stream |
| Groq.FramesOfDeltas | t2s/providers/groq.py:89-92 | when every line decodes to a delta, the chunks are the non-empty contents in arrival order |
| Groq.GenerateSqlStream | t2s/providers/groq.py:63-92 | the streaming loop: an error status raises before anything is yielded; otherwise the chunks and the way the stream stops are those of the framing function |
| Ollama.NewOllamaProvider | t2s/providers/ollama.py:10-13 | all trailing slashes of the base URL removed and nothing else; the model kept; a missing token cap read as 0 |
| Ollama.ChatUrl | t2s/providers/ollama.py:32 | the request URL is the base URL followed by `/api/chat` |
| Ollama.TrailingSlashesIgnored | t2s/providers/ollama.py:11 | a base URL given with trailing slashes leads to the same chat URL as without them |
| Ollama.Payload | t2s/providers/ollama.py:16-29 | the payload carries the model, the stream flag and the two messages; `num_predict` is present exactly when the token cap is positive, and equals it |
| Ollama.CompletionText | t2s/providers/ollama.py:37-38 | a failed status check raises its message; otherwise the content, missing read as empty, is returned stripped, and is empty exactly when the content is blank |
| Ollama.Frames | t2s/providers/ollama.py:46-57 | no empty chunk is ever yielded |
| Ollama.FramesAppend | t2s/providers/ollama.py:46-57 | framing distributes over concatenation of line lists, the same law as `Groq.FramesAppend` for the other framing; `NothingFromDoneOn` rests on it |
| Ollama.NothingFromDoneOn | t2s/providers/ollama.py:53-54 | a done object ends the stream: its own content and every later line are ignored |
| Ollama.SkippedLines | t2s/providers/ollama.py:46-52 | empty lines and lines that do not decode change nothing in the stream |
| Ollama.FramesOfObjects | t2s/providers/ollama.py:55-57 | when every line is an object that is not done, the chunks are the non-empty contents in order |
| Ollama.GenerateSqlStream | t2s/providers/ollama.py:40-57 | the streaming loop: a failed status check raises before anything is yielded; otherwise the chunks and the ending are those of the framing function |
| AppGuards.DropTrailingSemicolons | ui/app.py:413 | the text is changed exactly when it ends, before trailing whitespace, in a semicolon; then only a final run of semicolons followed by whitespace is removed, and what remains does not end in a semicolon |
| AppGuards.SubstitutionOnStripped | ui/app.py:412-413 | on stripped text the substitution removes exactly the trailing semicolons |
| AppGuards.PrepareForExecute | ui/app.py:411-416 | an accepted text is the stripped input with trailing semicolons removed and holds no semicolon; a refusal carries the multiple-statements message |
| AppGuards.MissingTextIsEmpty | ui/app.py:412 | a missing text and an empty one both give the empty text |
| AppGuards.PrepareVerdict | ui/app.py:412-416 | acceptance holds exactly when every semicolon of the stripped text is followed only by semicolons, and the result is then the text without its trailing semicolons |
| AppGuards.PrepareTerminated | ui/app.py:413-416 | a statement followed by any number of semicolons is executed as the bare statement |
| AppGuards.TerminatedExample | ui/app.py:413-416 | `a;;` gives `a` |
| AppGuards.SpacedSemicolonsExample | ui/app.py:413-415 | `a; ;` is refused |
| AppGuards.InnerSemicolonRefused | ui/app.py:414-415 | text not ending in a semicolon is refused as soon as it contains one |
| AppGuards.SecondStatementExample | ui/app.py:414-415 | `SELECT 1; DROP TABLE STUDENT` is refused |
| AppGuards.ReportedAddress | ui/app.py:430-432 | the forwarded-for header, lower-case spelling first, else the real-ip header; its readings are stated by `ForwardedForDecides` and `RealIpFallback` |
| AppGuards.ClientKey | ui/app.py:423-438 | the session id when the headers cannot be read; otherwise the first comma-separated field of the reported address, stripped, or the session id when that field is blank; any key other than the session id is non-empty, comma-free and stripped |
| AppGuards.ForwardedForDecides | ui/app.py:430-432 | a non-empty forwarded-for value (the lower-case header, else the capitalised one) alone decides the key, whatever the real-ip headers say |
| AppGuards.FirstHopIsKey | ui/app.py:432-434 | a single forwarded-for address, or the first hop of a list, is the key, stripped |
| AppGuards.BlankFirstHopFallsBack | ui/app.py:430-438 | a non-empty forwarded-for header whose first field is blank, with or without more hops, gives the session id, and the real-ip headers are not consulted |
| AppGuards.RealIpFallback | ui/app.py:430-434 | without a forwarded-for header in either spelling, the real-ip header's first hop (lower-case spelling first) is the key, stripped |
| AppGuards.NoAddressIsSession | ui/app.py:430-438 | with no address header at all the key is the session id |
| AppFlow.SuggestedWaitCovers | ui/app.py:646 | the wait the rate-limit message suggests, `int(retry_after)+1`, is a whole number of seconds above the retry time and at most one second more |
| AppFlow.GetProvider | t2s/providers/factory.py:9-24 | creation succeeds exactly for `ollama`, with the settings' model, token cap and base URL, that URL with exactly its trailing slashes removed; `groq` always raises the unexpected-keyword error; any other name raises the unknown-provider message |
| AppFlow.Sent | ui/app.py:676-707 | the request body the provider sends carries `SYSTEM_PROMPT` then the built user prompt, the provider's model and the stream flag |
| AppFlow.AfterGeneration | ui/app.py:709-741 | the gate, the guard and the query after generation; stated by `AfterGenerationResults`, `SafetyBlockLogged` and `AfterGenerationIgnoresExtract` |
| AppFlow.TryBlock | ui/app.py:675-795 | the `try` block with its `except` clauses; stated by `TryBlockFacts` and proved equal to the method `RunAttempt` |
| AppFlow.Attempt | ui/app.py:675-813 | the `try` block followed by the `finally` record; stated by `AttemptDescribes` and `AttemptIgnoresExtract` |
| AppFlow.Ask | ui/app.py:616-813 | one run of the page script; its lemmas below state the order of the checks, the records and the screens |
| AppFlow.RunAttempt | ui/app.py:664-813 | the `try` block as the code runs it, with its locals set stage by stage, `buf` accumulated chunk by chunk and the `finally` record written last. Its screen and records are those of the function `Attempt` |
| AppFlow.HandleRun | ui/app.py:616-813 | the whole script from the Run button, with the process's limiter: its screen, its records and the limiter's new state are those of the function `Ask` |
| AppFlow.AfterGenerationResults | ui/app.py:709-741 | rows are shown only when the gate accepted the generated text, the guard passed the gate's output and the database answered; the locals then hold that output, the count and no error |
| AppFlow.TryBlockFacts | ui/app.py:675-795 | the `try` block ends on a stream, safety-block, error or results screen, and writes a record of its own only in stream mode |
| AppFlow.AfterGenerationIgnoresExtract | ui/app.py:709-710 | the extractor changes the `cleaned_sql` local and nothing else |
| AppFlow.AttemptDescribes | ui/app.py:689-813 | every record of the `try` block and its `finally` is about the question |
| AppFlow.AttemptIgnoresExtract | ui/app.py:696-813 | the extractor changes only the `cleaned_sql` field of the records, and without stream mode not the screen |
| AppFlow.NoRunNoEffect | ui/app.py:616 | nothing happens unless the button is pressed with a non-blank question |
| AppFlow.TooLongStopsFirst | ui/app.py:617-636 | an over-long stripped question writes one record with empty SQL stages and the length message, and stops before the limiter is consulted, whatever the rest of the world does |
| AppFlow.ZeroBoundNoLengthCheck | ui/app.py:620 | a bound of 0 switches the length check off |
| AppFlow.RateLimitedStopsSecond | ui/app.py:638-662 | a denied request writes one record with the rate-limit message and stops before the provider is created; the suggested wait exceeds the retry time |
| AppFlow.ProviderFailureUnlogged | ui/app.py:664 | when creating the provider raises (every provider but `ollama`), after both checks, nothing is logged but the request has been counted; for `groq` the screen shows the unexpected-keyword error |
| AppFlow.OnlyOllamaGenerates | t2s/providers/factory.py:17-24 | with any provider but `ollama` the outcome depends only on the headers, the session and the clock, at most one record is written and it has every SQL stage empty, and the screen is a refusal or the crash |
| AppFlow.CurrentModel | ui/app.py:419-420 | the groq model for provider `groq`, the ollama model otherwise; `RecordsDescribeRequest` states that every record's model is this one |
| AppFlow.RecordsDescribeRequest | ui/app.py:616-813 | every record names the configured provider, its model, the database, the dialect and the stripped question |
| AppFlow.NonStreamLogsOnce | ui/app.py:705-813 | without stream mode, a request past the provider writes exactly one record |
| AppFlow.StreamLogsTwice | ui/app.py:680-813 | in stream mode a normal reply shows the accumulated text and is logged twice: with the text and its candidate, then from `finally` with every stage empty |
| AppFlow.StreamFailureDropsText | ui/app.py:683-813 | a stream that raises is logged once, with the error and without the text received before it |
| AppFlow.GateSeesRawText | ui/app.py:709-710 | the gate is given the generated text, not the candidate: the extractor changes nothing but the `cleaned_sql` field of the records |
| AppFlow.SafetyBlockLogged | ui/app.py:779-780 | a refused text shows a safety block, logs the gate's message after `Blocked by safety gate: ` with the candidate, and the database is not consulted |
| AppFlow.ResultsPassedGate | ui/app.py:705-813 | rows are shown only for a generated text the gate accepted; the statement shown is the gate's output, the database got it through the guard without a semicolon, and the one record reports the count without an error |

## Left out

- sqlglot parsing and printing are the parameters `parse` and `render`. They stand for sqlglot at the configured dialect: `validate_and_rewrite_select` takes a `dialect`, and the page passes `SETTINGS.db_dialect` (ui/app.py:710), so the model's `Gate` has no dialect argument of its own. What the printer writes (for instance that the text contains `LIMIT 50`) is beyond the model; the scenarios say which tree is printed.
- The statement tree keeps only what the gate tells apart. Each node's other arguments are one opaque text, and every other statement kind is `Other`.
- `extract_sql_candidate` is imported at ui/app.py:24 from `t2s/sql/safety.py`, but that file does not define it. It is the parameter `extract`, and the import as written would fail when the page loads.
- `get_sqlite_schema`, `run_query` and `log_event` are not part of this model. Reading the schema and running a query are parameters (a schema or an error, a row count or an error). The records `log_event` receives are returned as a list, in call order, and their storage is not modelled.
- The Groq provider is modelled on its own (module `Groq`) but never reached by the request flow: `get_provider` cannot create it, as `AppFlow.GetProvider` states. The flow's replies are the Ollama server's answers to the request body `AppFlow.Sent`; how `generate_sql` turns them into text is `Ollama.CompletionText` and `Ollama.GenerateSqlStream`, not re-derived inside the flow.
- Configuration loading (`t2s/config.py`) is not part of this model: the settings are a value.
- The HTTP exchange and JSON decoding are not modelled. The status outcome, the reply's content, its lines and a decoder for one line are parameters. `_headers` (an authorization header built from the key) is left out with the transport.
- Temperatures (floating-point constants in both payloads), timings and `exec_ms` are left out.
- Streamlit rendering, `show_sql` panels, the debug expander, the CSV export, the history sidebar and the CSS are left out. Only the final screen is modelled, as the `Screen` value.
- The session identifier `uuid4().hex` is the parameter `sessionId`. Reading the headers either gives a map or fails (`None`).
- The `threading.Lock` is dropped: the limiter is a single-owner object. `time.time()` is the real parameter `now`, and floating-point rounding is not modelled.
- `RateLimit.RetryAfterBounds`: the clamp `max(0.0, …)` is shown never to act in exact arithmetic; with floating-point times a rounding error could make it act.
- `Groq.Frames` and `Ollama.Frames`: a line is given as text. The byte-to-text decoding of the Groq loop (replacing invalid UTF-8) is part of the decoder parameter.
- `Ollama.CompletionText`: a reply whose `message` is JSON null makes `data.get("message", {})` return `None`, and the `.get` on it raises an `AttributeError`. The model reads a missing or null message as an empty content instead.
- `Groq.CompletionText`: a reply without `choices[0].message.content` raises a lookup error in the source. The model takes the content as given, null read as empty.
- The question from the text area is taken as a string. Its `None` case (`question or ""`) is not modelled.

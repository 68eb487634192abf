/**
 * The request flow of the web page, from the Run button to the audit record: the
 * length check, the rate check, the creation of the provider, then, inside the
 * `try`, the schema, the prompt and either the streamed reply or generation,
 * the safety gate, the execution guard and the query, with the `finally` block
 * writing one audit record.
 *
 * `get_provider()` is computed from the settings: only the ollama branch
 * succeeds, since the groq branch passes a keyword `GroqProvider` does not take.
 * Everything else outside the flow is a value of `World`: the request headers and
 * the session identifier, the clock reading, what reading the schema gives, what
 * the Ollama server replies to a request body, the SQL parser and printer, the
 * candidate extractor and what the database gives for a statement (its row count
 * or an error message). `st.stop()` raises an
 * exception that the `except Exception` clauses do not catch, so the `finally`
 * block still runs after it.
 */
module AppFlow {
  import opened Wrappers
  import opened Text
  import opened Safety
  import opened RateLimit
  import opened SchemaFormat
  import opened Prompting
  import opened Chat
  import opened AppGuards
  import Ollama

  /** The settings the flow reads. */
  datatype Settings = Settings(
    provider: string,
    dbPath: string,
    dialect: string,
    maxInputChars: int,
    rateLimitMaxRequests: int,
    rateLimitWindowSec: int,
    groqModel: string,
    ollamaModel: string,
    ollamaBaseUrl: string,
    maxOutputTokens: int)

  /** `_current_model()` */
  function CurrentModel(s: Settings): string {
    if s.provider == "groq" then s.groqModel else s.ollamaModel
  }

  /** The `TypeError` Python raises for the groq branch of `get_provider`: `GroqProvider` takes no `max_output_tokens`. */
  const GroqKeywordError: string := "GroqProvider.__init__() got an unexpected keyword argument 'max_output_tokens'"

  function UnknownProviderMessage(name: string): string {
    "Unknown provider '" + name + "'. Use 'ollama' or 'groq'."
  }

  /**
   * `get_provider()`: an Ollama provider from the settings for `ollama`; the groq
   * branch always raises, and any other name is refused.
   */
  function GetProvider(s: Settings): (r: Result<Ollama.OllamaProvider, string>)
    ensures r.Ok? <==> s.provider == "ollama"
    ensures r.Ok? ==> r.value.model == s.ollamaModel && r.value.maxOutputTokens == s.maxOutputTokens
    ensures r.Ok? ==> StartsWith(s.ollamaBaseUrl, r.value.baseUrl) && (r.value.baseUrl == [] || r.value.baseUrl[|r.value.baseUrl| - 1] != '/')
    ensures r.Ok? ==> forall i :: |r.value.baseUrl| <= i < |s.ollamaBaseUrl| ==> s.ollamaBaseUrl[i] == '/'
    ensures s.provider == "groq" ==> r == Err(GroqKeywordError)
    ensures s.provider != "groq" && s.provider != "ollama" ==> r == Err(UnknownProviderMessage(s.provider))
  {
    if s.provider == "ollama" then Ok(Ollama.NewOllamaProvider(s.ollamaBaseUrl, s.ollamaModel, Some(s.maxOutputTokens)))
    else if s.provider == "groq" then Err(GroqKeywordError)
    else Err(UnknownProviderMessage(s.provider))
  }

  /** One `log_event` call (the timing aside). */
  datatype LogRecord = LogRecord(
    provider: string,
    model: string,
    dbPath: string,
    dialect: string,
    question: string,
    rawSql: string,
    cleanedSql: string,
    safeSql: string,
    limitAdded: bool,
    rowCount: Option<nat>,
    error: Option<string>)

  function Record(s: Settings, q: string, rawSql: string, cleanedSql: string, safeSql: string,
                  limitAdded: bool, rowCount: Option<nat>, error: Option<string>): LogRecord {
    LogRecord(s.provider, CurrentModel(s), s.dbPath, s.dialect, q, rawSql, cleanedSql, safeSql, limitAdded, rowCount, error)
  }

  /** A record with every SQL stage empty. */
  function Blank(s: Settings, q: string, error: Option<string>): LogRecord {
    Record(s, q, "", "", "", false, None, error)
  }

  /** The state of the page when one run of the script is over. */
  datatype Screen =
    | Idle                                           // the button was not pressed, or the question is blank
    | TooLong(maxChars: int)
    | RateLimited(message: string)
    | Crashed(message: string)                       // an exception outside the `try`
    | StreamShown(text: string)
    | SafetyBlock(message: string)
    | Failed(message: string)                        // an exception caught by `except Exception`
    | Results(safeSql: string, limitAdded: bool, rowCount: nat)

  /** What the flow consults outside itself for one run. */
  datatype World = World(
    headers: Option<map<string, string>>,
    sessionId: string,
    now: real,
    schema: Result<Schema, string>,
    generate: Ollama.OllamaPayload -> Result<string, string>,
    generateStream: Ollama.OllamaPayload -> Streamed,
    extract: string -> string,
    parse: string -> ParseOutcome,
    render: Stmt -> string,
    runQuery: string -> Result<nat, string>)

  /** The button press and the two toggles the flow reads. */
  datatype Request = Request(run: bool, question: string, streamOnly: bool)

  /** The screen, the audit records written, in order, and the limiter's new state. */
  datatype Outcome = Outcome(screen: Screen, log: seq<LogRecord>, hits: map<string, seq<real>>)

  const DefaultLimit: int := 100

  const SafetyPrefix: string := "Blocked by safety gate: "

  function TooLongMessage(maxChars: int): string {
    "Input too long (> " + IntToString(maxChars) + " chars)"
  }

  /** Python's `int(x)`: the fractional part dropped, toward zero. */
  function Truncate(x: real): int {
    if x >= 0.0 then x.Floor else -((-x).Floor)
  }

  /** The wait the rate-limit message suggests, in whole seconds. */
  function SuggestedWait(retryAfter: real): int {
    Truncate(retryAfter) + 1
  }

  function RateLimitMessage(retryAfter: real): string {
    "Rate limit exceeded. Try again in ~" + IntToString(SuggestedWait(retryAfter)) + " seconds."
  }

  /** A delay that is not negative is never undersold: the suggested wait is the next whole second after it. */
  lemma SuggestedWaitCovers(retryAfter: real)
    requires retryAfter >= 0.0
    ensures SuggestedWait(retryAfter) >= 1
    ensures retryAfter < SuggestedWait(retryAfter) as real <= retryAfter + 1.0
  {
  }

  /** The locals the `finally` block logs: `raw_sql`, `cleaned_sql`, `safe_sql`, `limit_added`, `row_count`, `error_msg`. */
  datatype Locals = Locals(rawSql: string, cleanedSql: string, safeSql: string, limitAdded: bool,
                           rowCount: Option<nat>, error: Option<string>)

  /** Their values before the `try`. */
  const Initial: Locals := Locals("", "", "", false, None, None)

  /** The record `finally` writes from the locals. */
  function Logged(s: Settings, q: string, l: Locals): LogRecord {
    Record(s, q, l.rawSql, l.cleanedSql, l.safeSql, l.limitAdded, l.rowCount, l.error)
  }

  /** The request body the provider sends for the question: the system instruction, the user prompt and the stream flag. */
  function Sent(p: Ollama.OllamaProvider, s: Settings, q: string, schema: Schema, stream: bool): (r: Ollama.OllamaPayload)
    ensures r.messages == [ChatMessage(System, SystemPrompt), ChatMessage(User, BuildUserPrompt(q, schema, s.dialect))]
    ensures r.model == p.model && r.stream == stream
  {
    Ollama.Payload(p, SystemPrompt, BuildUserPrompt(q, schema, s.dialect), stream)
  }

  /** How the `try` block ends: the screen, the records written inside it, and the locals. */
  datatype TryEnd = TryEnd(screen: Screen, written: seq<LogRecord>, locals: Locals)

  /** From the generated text on: the extractor, the gate, the execution guard and the query. */
  function AfterGeneration(rawSql: string, w: World): (Screen, Locals) {
    var l := Initial.(rawSql := rawSql, cleanedSql := w.extract(rawSql));
    match Gate(rawSql, w.parse, w.render, DefaultLimit)
    case Err(e) => (SafetyBlock(e.Message()), l.(error := Some(SafetyPrefix + e.Message())))
    case Ok(safe) =>
      var l := l.(safeSql := safe.sql, limitAdded := safe.limitAdded);
      match PrepareForExecute(Some(safe.sql))
      case Err(m) => (Failed(m), l.(error := Some(m)))
      case Ok(execSql) =>
        match w.runQuery(execSql)
        case Err(m) => (Failed(m), l.(error := Some(m)))
        case Ok(n) => (Results(safe.sql, safe.limitAdded, n), l.(rowCount := Some(n)))
  }

  /**
   * The `try` block with its `except` clauses, for the question `q`: the schema, the
   * prompt, then either the streamed reply (shown, logged, then `st.stop()`) or
   * generation and what follows it.
   */
  function TryBlock(s: Settings, p: Ollama.OllamaProvider, q: string, streamOnly: bool, w: World): TryEnd {
    match w.schema
    case Err(m) => TryEnd(Failed(m), [], Initial.(error := Some(m)))
    case Ok(schema) =>
      if streamOnly then
        var reply := w.generateStream(Sent(p, s, q, schema, true));
        match reply.end
        case Raised(m) => TryEnd(Failed(m), [], Initial.(error := Some(m)))
        case _ =>
          var buf := Concat(reply.chunks);
          TryEnd(StreamShown(buf), [Record(s, q, buf, w.extract(buf), "", false, None, None)], Initial)
      else
        match w.generate(Sent(p, s, q, schema, false))
        case Err(m) => TryEnd(Failed(m), [], Initial.(error := Some(m)))
        case Ok(raw) =>
          var (screen, l) := AfterGeneration(raw, w);
          TryEnd(screen, [], l)
  }

  /** The `try` block followed by its `finally`: the screen and every record written, in order. */
  function Attempt(s: Settings, p: Ollama.OllamaProvider, q: string, streamOnly: bool, w: World): (Screen, seq<LogRecord>) {
    var t := TryBlock(s, p, q, streamOnly, w);
    (t.screen, t.written + [Logged(s, q, t.locals)])
  }

  /** One run of the page script for a request, with the limiter in state `hits`. */
  function Ask(s: Settings, req: Request, w: World, hits: map<string, seq<real>>): Outcome {
    if !req.run || Strip(req.question) == "" then Outcome(Idle, [], hits)
    else
      var q := Strip(req.question);
      if s.maxInputChars != 0 && |q| > s.maxInputChars then
        Outcome(TooLong(s.maxInputChars), [Blank(s, q, Some(TooLongMessage(s.maxInputChars)))], hits)
      else
        var (hits', d) := Step(hits, ClientKey(w.headers, w.sessionId), s.rateLimitMaxRequests, s.rateLimitWindowSec, w.now);
        if !d.allowed then
          Outcome(RateLimited(RateLimitMessage(d.retryAfter)), [Blank(s, q, Some(RateLimitMessage(d.retryAfter)))], hits')
        else match GetProvider(s)
          case Err(m) => Outcome(Crashed(m), [], hits')
          case Ok(p) =>
            var (screen, log) := Attempt(s, p, q, req.streamOnly, w);
            Outcome(screen, log, hits')
  }

  /**
   * The `try` block as the script runs it: the locals `raw_sql`, `cleaned_sql`,
   * `safe_sql`, `limit_added`, `row_count` and `error_msg` set stage by stage, the
   * streamed chunks accumulated in `buf`, and the `finally` record written last.
   */
  method RunAttempt(s: Settings, p: Ollama.OllamaProvider, q: string, streamOnly: bool, w: World)
    returns (screen: Screen, log: seq<LogRecord>)
    ensures (screen, log) == Attempt(s, p, q, streamOnly, w)
  {
    log := [];
    var rawSql, cleanedSql, safeSql := "", "", "";
    var limitAdded := false;
    var rowCount: Option<nat> := None;
    var errorMsg: Option<string> := None;
    if w.schema.Err? {
      errorMsg := Some(w.schema.error);
      screen := Failed(w.schema.error);
    } else {
      if streamOnly {
        var reply := w.generateStream(Sent(p, s, q, w.schema.value, true));
        var buf := "";
        for i := 0 to |reply.chunks|
          invariant buf == Concat(reply.chunks[..i])
        {
          assert reply.chunks[..i + 1][..i] == reply.chunks[..i];
          buf := buf + reply.chunks[i];
        }
        assert reply.chunks[..|reply.chunks|] == reply.chunks;
        if reply.end.Raised? {
          errorMsg := Some(reply.end.message);
          screen := Failed(reply.end.message);
        } else {
          log := log + [Record(s, q, buf, w.extract(buf), "", false, None, None)];
          screen := StreamShown(buf);
        }
      } else {
        var generated := w.generate(Sent(p, s, q, w.schema.value, false));
        if generated.Err? {
          errorMsg := Some(generated.error);
          screen := Failed(generated.error);
        } else {
          rawSql := generated.value;
          cleanedSql := w.extract(rawSql);
          var safe := ValidateAndRewriteSelect(rawSql, w.parse, w.render, DefaultLimit);
          if safe.Err? {
            errorMsg := Some(SafetyPrefix + safe.error.Message());
            screen := SafetyBlock(safe.error.Message());
          } else {
            safeSql := safe.value.sql;
            limitAdded := safe.value.limitAdded;
            var prepared := PrepareForExecute(Some(safeSql));
            if prepared.Err? {
              errorMsg := Some(prepared.error);
              screen := Failed(prepared.error);
            } else {
              var rows := w.runQuery(prepared.value);
              if rows.Err? {
                errorMsg := Some(rows.error);
                screen := Failed(rows.error);
              } else {
                rowCount := Some(rows.value);
                screen := Results(safeSql, limitAdded, rows.value);
              }
            }
          }
        }
      }
    }
    assert TryEnd(screen, log, Locals(rawSql, cleanedSql, safeSql, limitAdded, rowCount, errorMsg)) == TryBlock(s, p, q, streamOnly, w);
    log := log + [Record(s, q, rawSql, cleanedSql, safeSql, limitAdded, rowCount, errorMsg)];
  }

  /** The script from the Run button on, with the process's rate limiter. */
  method HandleRun(limiter: RateLimiter, s: Settings, req: Request, w: World) returns (screen: Screen, log: seq<LogRecord>)
    modifies limiter
    ensures Outcome(screen, log, limiter.hits) == Ask(s, req, w, old(limiter.hits))
  {
    if !req.run || Strip(req.question) == "" {
      return Idle, [];
    }
    var q := Strip(req.question);
    if s.maxInputChars != 0 && |q| > s.maxInputChars {
      return TooLong(s.maxInputChars), [Blank(s, q, Some(TooLongMessage(s.maxInputChars)))];
    }
    var clientKey := ClientKey(w.headers, w.sessionId);
    var allowed, retryAfter := limiter.Check(clientKey, s.rateLimitMaxRequests, s.rateLimitWindowSec, w.now);
    if !allowed {
      var msg := RateLimitMessage(retryAfter);
      return RateLimited(msg), [Blank(s, q, Some(msg))];
    }
    var created := GetProvider(s);
    if created.Err? {
      return Crashed(created.error), [];
    }
    screen, log := RunAttempt(s, created.value, q, req.streamOnly, w);
  }

  /** Every record of a list names the settings' provider, model, database and dialect, and the question `q`. */
  predicate Describes(log: seq<LogRecord>, s: Settings, q: string) {
    forall i :: 0 <= i < |log| ==> Context(log[i]) == Context(Blank(s, q, None))
  }

  /** What a record says about the request, as opposed to its outcome. */
  function Context(r: LogRecord): (string, string, string, string, string) {
    (r.provider, r.model, r.dbPath, r.dialect, r.question)
  }

  /** The record with its extracted candidate blanked. */
  function WithoutCandidate(r: LogRecord): LogRecord {
    r.(cleanedSql := "")
  }

  /** Two record lists that differ at most in the extracted candidate. */
  predicate SameButCandidate(a: seq<LogRecord>, b: seq<LogRecord>) {
    |a| == |b| && forall i :: 0 <= i < |a| ==> WithoutCandidate(a[i]) == WithoutCandidate(b[i])
  }

  /**
   * After generation, rows are shown only when the gate accepted the generated text,
   * the guard passed the gate's output and the database answered; the locals then
   * hold the gate's output, the row count and no error.
   */
  lemma AfterGenerationResults(rawSql: string, w: World)
    requires AfterGeneration(rawSql, w).0.Results?
    ensures var (sc, l) := AfterGeneration(rawSql, w);
      && Gate(rawSql, w.parse, w.render, DefaultLimit) == Ok(SafeSqlResult(sc.safeSql, sc.limitAdded))
      && PrepareForExecute(Some(sc.safeSql)).Ok?
      && w.runQuery(PrepareForExecute(Some(sc.safeSql)).value) == Ok(sc.rowCount)
      && l == Locals(rawSql, w.extract(rawSql), sc.safeSql, sc.limitAdded, Some(sc.rowCount), None)
  {
    var g := Gate(rawSql, w.parse, w.render, DefaultLimit);
    if g.Ok? {
      var p := PrepareForExecute(Some(g.value.sql));
      if p.Ok? {
        var rows := w.runQuery(p.value);
      }
    }
  }

  /** The `try` block writes a record of its own only in stream mode, and ends on one of its own screens. */
  lemma TryBlockFacts(s: Settings, p: Ollama.OllamaProvider, q: string, streamOnly: bool, w: World)
    ensures var t := TryBlock(s, p, q, streamOnly, w);
      && (t.screen.StreamShown? || t.screen.SafetyBlock? || t.screen.Failed? || t.screen.Results?)
      && |t.written| <= 1 && Describes(t.written, s, q)
      && (!streamOnly ==> t.written == [])
  {
  }

  /** The extractor changes the `cleaned_sql` local and nothing else. */
  lemma AfterGenerationIgnoresExtract(rawSql: string, w: World, e1: string -> string, e2: string -> string)
    ensures var (sc1, l1) := AfterGeneration(rawSql, w.(extract := e1));
      var (sc2, l2) := AfterGeneration(rawSql, w.(extract := e2));
      sc1 == sc2 && l1.(cleanedSql := "") == l2.(cleanedSql := "")
  {
    var g := Gate(rawSql, w.parse, w.render, DefaultLimit);
    if g.Ok? {
      var p := PrepareForExecute(Some(g.value.sql));
      if p.Ok? {
        var rows := w.runQuery(p.value);
      }
    }
  }

  /** Every record of the `try` block and its `finally` is about the question. */
  lemma AttemptDescribes(s: Settings, p: Ollama.OllamaProvider, q: string, streamOnly: bool, w: World)
    ensures Describes(Attempt(s, p, q, streamOnly, w).1, s, q)
  {
    var t := TryBlock(s, p, q, streamOnly, w);
    TryBlockFacts(s, p, q, streamOnly, w);
    DescribesAppend(t.written, Logged(s, q, t.locals), s, q);
  }

  /** A record about the question extends a list of such records. */
  lemma DescribesAppend(log: seq<LogRecord>, r: LogRecord, s: Settings, q: string)
    requires Describes(log, s, q) && Context(r) == Context(Blank(s, q, None))
    ensures Describes(log + [r], s, q)
  {
    assert forall i :: 0 <= i < |log| ==> (log + [r])[i] == log[i];
  }

  lemma AttemptIgnoresExtract(s: Settings, p: Ollama.OllamaProvider, q: string, streamOnly: bool, w: World,
                               e1: string -> string, e2: string -> string)
    ensures var (sc1, log1) := Attempt(s, p, q, streamOnly, w.(extract := e1));
      var (sc2, log2) := Attempt(s, p, q, streamOnly, w.(extract := e2));
      (!streamOnly ==> sc1 == sc2) && SameButCandidate(log1, log2)
  {
    if w.schema.Ok? {
      if !streamOnly {
        var raw := w.generate(Sent(p, s, q, w.schema.value, false));
        if raw.Ok? {
          AfterGenerationIgnoresExtract(raw.value, w, e1, e2);
        }
      }
    }
  }

  /** Passing the two checks before the provider is created: the pressed button, a non-blank question within the length bound, and the limiter's admission. */
  predicate PassesChecks(s: Settings, req: Request, w: World, hits: map<string, seq<real>>) {
    && req.run && !AllSpace(req.question)
    && !(s.maxInputChars != 0 && |Strip(req.question)| > s.maxInputChars)
    && Step(hits, ClientKey(w.headers, w.sessionId), s.rateLimitMaxRequests, s.rateLimitWindowSec, w.now).1.allowed
  }

  /** Nothing happens unless the button is pressed with a non-blank question. */
  lemma NoRunNoEffect(s: Settings, req: Request, w: World, hits: map<string, seq<real>>)
    requires !req.run || AllSpace(req.question)
    ensures Ask(s, req, w, hits) == Outcome(Idle, [], hits)
  {
  }

  /**
   * The length check comes first and uses the stripped question: an over-long one
   * writes one record with every SQL stage empty and stops, before the limiter is
   * consulted and whatever the rest of the world would do.
   */
  lemma TooLongStopsFirst(s: Settings, req: Request, w1: World, w2: World, hits: map<string, seq<real>>)
    requires req.run && !AllSpace(req.question)
    requires s.maxInputChars != 0 && |Strip(req.question)| > s.maxInputChars
    ensures Ask(s, req, w1, hits) == Ask(s, req, w2, hits)
    ensures Ask(s, req, w1, hits) ==
      Outcome(TooLong(s.maxInputChars), [Blank(s, Strip(req.question), Some(TooLongMessage(s.maxInputChars)))], hits)
  {
  }

  /** A bound of 0 switches the length check off. */
  lemma ZeroBoundNoLengthCheck(s: Settings, req: Request, w: World, hits: map<string, seq<real>>)
    requires s.maxInputChars == 0
    ensures !Ask(s, req, w, hits).screen.TooLong?
  {
    if GetProvider(s).Ok? {
      TryBlockFacts(s, GetProvider(s).value, Strip(req.question), req.streamOnly, w);
    }
  }

  /**
   * The rate check comes second, under the client key: a denied request writes one
   * record with the rate-limit message and stops, before the provider is created,
   * whatever the provider, the schema or the database would do; the message never
   * suggests a wait shorter than the limiter's retry time.
   */
  lemma RateLimitedStopsSecond(s: Settings, req: Request, w1: World, w2: World, hits: map<string, seq<real>>)
    requires req.run && !AllSpace(req.question)
    requires !(s.maxInputChars != 0 && |Strip(req.question)| > s.maxInputChars)
    requires w1.headers == w2.headers && w1.sessionId == w2.sessionId && w1.now == w2.now
    requires !PassesChecks(s, req, w1, hits)
    ensures Ask(s, req, w1, hits) == Ask(s, req, w2, hits)
    ensures var (hits', d) := Step(hits, ClientKey(w1.headers, w1.sessionId), s.rateLimitMaxRequests, s.rateLimitWindowSec, w1.now);
      && Ask(s, req, w1, hits) ==
        Outcome(RateLimited(RateLimitMessage(d.retryAfter)), [Blank(s, Strip(req.question), Some(RateLimitMessage(d.retryAfter)))], hits')
      && d.retryAfter < SuggestedWait(d.retryAfter) as real
  {
    var (hits', d) := Step(hits, ClientKey(w1.headers, w1.sessionId), s.rateLimitMaxRequests, s.rateLimitWindowSec, w1.now);
    SuggestedWaitCovers(d.retryAfter);
  }

  /**
   * When creating the provider raises (any provider but `ollama`), after both checks,
   * nothing is logged but the request has been counted; for `groq` the error is the
   * unexpected keyword.
   */
  lemma ProviderFailureUnlogged(s: Settings, req: Request, w: World, hits: map<string, seq<real>>)
    requires PassesChecks(s, req, w, hits) && s.provider != "ollama"
    ensures Ask(s, req, w, hits) == Outcome(Crashed(GetProvider(s).error), [],
      Step(hits, ClientKey(w.headers, w.sessionId), s.rateLimitMaxRequests, s.rateLimitWindowSec, w.now).0)
    ensures s.provider == "groq" ==> Ask(s, req, w, hits).screen == Crashed(GroqKeywordError)
  {
  }

  /**
   * With any provider but `ollama` no question ever reaches a model: the outcome
   * depends only on the request headers, the session and the clock, every record has
   * its SQL stages empty, and nothing is shown but a refusal or the crash.
   */
  lemma OnlyOllamaGenerates(s: Settings, req: Request, w1: World, w2: World, hits: map<string, seq<real>>)
    requires s.provider != "ollama"
    requires w1.headers == w2.headers && w1.sessionId == w2.sessionId && w1.now == w2.now
    ensures Ask(s, req, w1, hits) == Ask(s, req, w2, hits)
    ensures var o := Ask(s, req, w1, hits);
      && (o.screen.Idle? || o.screen.TooLong? || o.screen.RateLimited? || o.screen == Crashed(GetProvider(s).error))
      && |o.log| <= 1
      && (forall i :: 0 <= i < |o.log| ==> o.log[i] == Blank(s, Strip(req.question), o.log[i].error))
  {
  }

  /** Every record names the configured provider, its model, the database, the dialect and the stripped question. */
  lemma RecordsDescribeRequest(s: Settings, req: Request, w: World, hits: map<string, seq<real>>)
    ensures Describes(Ask(s, req, w, hits).log, s, Strip(req.question))
  {
    var q := Strip(req.question);
    var log := Ask(s, req, w, hits).log;
    if !req.run || q == "" {
      assert log == [];
    } else if s.maxInputChars != 0 && |q| > s.maxInputChars {
      assert log == [Blank(s, q, Some(TooLongMessage(s.maxInputChars)))];
    } else {
      var d := Step(hits, ClientKey(w.headers, w.sessionId), s.rateLimitMaxRequests, s.rateLimitWindowSec, w.now).1;
      if !d.allowed {
        assert log == [Blank(s, q, Some(RateLimitMessage(d.retryAfter)))];
      } else if GetProvider(s).Err? {
        assert log == [];
      } else {
        var p := GetProvider(s).value;
        AttemptDescribes(s, p, q, req.streamOnly, w);
        assert log == Attempt(s, p, q, req.streamOnly, w).1;
      }
    }
  }

  /** Without stream mode, a request that gets past the provider writes exactly one record, the one of `finally`. */
  lemma NonStreamLogsOnce(s: Settings, req: Request, w: World, hits: map<string, seq<real>>)
    requires PassesChecks(s, req, w, hits) && s.provider == "ollama" && !req.streamOnly
    ensures |Ask(s, req, w, hits).log| == 1
  {
    TryBlockFacts(s, GetProvider(s).value, Strip(req.question), req.streamOnly, w);
  }

  /**
   * In stream mode a reply that ends normally is logged twice: first with the
   * accumulated text, then, as `st.stop()` passes through `finally`, with every stage
   * empty and no error.
   */
  lemma StreamLogsTwice(s: Settings, req: Request, w: World, hits: map<string, seq<real>>)
    requires PassesChecks(s, req, w, hits) && s.provider == "ollama" && req.streamOnly && w.schema.Ok?
    requires !w.generateStream(Sent(GetProvider(s).value, s, Strip(req.question), w.schema.value, true)).end.Raised?
    ensures var reply := w.generateStream(Sent(GetProvider(s).value, s, Strip(req.question), w.schema.value, true));
      var o := Ask(s, req, w, hits);
      && o.screen == StreamShown(Concat(reply.chunks))
      && |o.log| == 2
      && o.log[0].rawSql == Concat(reply.chunks) && o.log[0].cleanedSql == w.extract(Concat(reply.chunks))
      && o.log[0].error.None? && o.log[0].safeSql == ""
      && o.log[1] == Blank(s, Strip(req.question), None)
  {
  }

  /** A stream that raises part way is logged once, with the error and without the text received before it. */
  lemma StreamFailureDropsText(s: Settings, req: Request, w: World, hits: map<string, seq<real>>)
    requires PassesChecks(s, req, w, hits) && s.provider == "ollama" && req.streamOnly && w.schema.Ok?
    requires w.generateStream(Sent(GetProvider(s).value, s, Strip(req.question), w.schema.value, true)).end.Raised?
    ensures var m := w.generateStream(Sent(GetProvider(s).value, s, Strip(req.question), w.schema.value, true)).end.message;
      Ask(s, req, w, hits).log == [Blank(s, Strip(req.question), Some(m))]
  {
  }

  /**
   * The safety gate is given the generated text, not the extracted candidate: the
   * extractor changes nothing but the `cleaned_sql` field of the records.
   */
  lemma GateSeesRawText(s: Settings, req: Request, w: World, e1: string -> string, e2: string -> string,
                        hits: map<string, seq<real>>)
    ensures var o1 := Ask(s, req, w.(extract := e1), hits);
      var o2 := Ask(s, req, w.(extract := e2), hits);
      && (!req.streamOnly ==> o1.screen == o2.screen)
      && o1.hits == o2.hits
      && SameButCandidate(o1.log, o2.log)
  {
    var q := Strip(req.question);
    var w1, w2 := w.(extract := e1), w.(extract := e2);
    if req.run && q != "" && !(s.maxInputChars != 0 && |q| > s.maxInputChars) {
      var (hits', d) := Step(hits, ClientKey(w.headers, w.sessionId), s.rateLimitMaxRequests, s.rateLimitWindowSec, w.now);
      if d.allowed && GetProvider(s).Ok? {
        var p := GetProvider(s).value;
        AttemptIgnoresExtract(s, p, q, req.streamOnly, w, e1, e2);
        var (sc1, log1) := Attempt(s, p, q, req.streamOnly, w1);
        var (sc2, log2) := Attempt(s, p, q, req.streamOnly, w2);
        assert Ask(s, req, w1, hits) == Outcome(sc1, log1, hits');
        assert Ask(s, req, w2, hits) == Outcome(sc2, log2, hits');
      }
    }
  }

  /**
   * A generated text the gate refuses is shown as a safety block and logged once,
   * with the gate's message after the prefix and the candidate the extractor gave;
   * the database is not consulted.
   */
  lemma SafetyBlockLogged(raw: string, w: World, run2: string -> Result<nat, string>)
    requires Gate(raw, w.parse, w.render, DefaultLimit).Err?
    ensures var msg := Gate(raw, w.parse, w.render, DefaultLimit).error.Message();
      && AfterGeneration(raw, w) == AfterGeneration(raw, w.(runQuery := run2))
      && AfterGeneration(raw, w) == (SafetyBlock(msg), Locals(raw, w.extract(raw), "", false, None, Some(SafetyPrefix + msg)))
  {
  }

  /**
   * Rows are shown only for a generated text the gate accepted: the statement shown
   * is the gate's output, the database received that output through the execution
   * guard, and the records report the row count without an error.
   */
  lemma ResultsPassedGate(s: Settings, req: Request, w: World, hits: map<string, seq<real>>)
    requires Ask(s, req, w, hits).screen.Results?
    ensures PassesChecks(s, req, w, hits) && s.provider == "ollama" && !req.streamOnly && w.schema.Ok?
    ensures var q := Strip(req.question);
      var generated := w.generate(Sent(GetProvider(s).value, s, q, w.schema.value, false));
      var o := Ask(s, req, w, hits);
      && generated.Ok?
      && Gate(generated.value, w.parse, w.render, DefaultLimit) == Ok(SafeSqlResult(o.screen.safeSql, o.screen.limitAdded))
      && PrepareForExecute(Some(o.screen.safeSql)).Ok?
      && ';' !in PrepareForExecute(Some(o.screen.safeSql)).value
      && w.runQuery(PrepareForExecute(Some(o.screen.safeSql)).value) == Ok(o.screen.rowCount)
      && o.log == [Record(s, q, generated.value, w.extract(generated.value), o.screen.safeSql, o.screen.limitAdded,
                          Some(o.screen.rowCount), None)]
  {
    var q := Strip(req.question);
    if GetProvider(s).Ok? {
      TryBlockFacts(s, GetProvider(s).value, q, req.streamOnly, w);
    }
    if GetProvider(s).Ok? && w.schema.Ok? {
      var generated := w.generate(Sent(GetProvider(s).value, s, q, w.schema.value, false));
      if generated.Ok? {
        AfterGenerationResults(generated.value, w);
      }
    }
  }
}

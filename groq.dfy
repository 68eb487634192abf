/**
 * The Groq provider's own logic: constructor normalisation, the OpenAI-compatible
 * endpoint rule, the request payload, the HTTP status check and the framing of
 * the server-sent event lines of a streamed reply. The HTTP exchange and JSON
 * decoding are outside: the status, the body, the reply's lines and a decoder
 * for one line come in as parameters.
 */
module Groq {
  import opened Wrappers
  import opened Text
  import opened Chat

  datatype GroqProvider = GroqProvider(apiKey: string, baseUrl: string, model: string)

  const DefaultBaseUrl: string := "https://api.groq.com"

  const MissingKeyMessage: string := "GROQ_API_KEY is missing. Set it in .env."

  /** `(base_url or "https://api.groq.com").strip().rstrip("/")` */
  function NormaliseBaseUrl(baseUrl: string): (r: string)
    ensures var given := Strip(if baseUrl == "" then DefaultBaseUrl else baseUrl);
      && StartsWith(given, r)
      && (forall i :: |r| <= i < |given| ==> given[i] == '/')
      && (r == [] || r[|r| - 1] != '/')
  {
    RStripChar(Strip(if baseUrl == "" then DefaultBaseUrl else baseUrl), '/')
  }

  /** `GroqProvider(api_key=..., base_url=..., model=...)`: refused without a key; the key stripped, the base URL normalised. */
  function NewGroqProvider(apiKey: string, baseUrl: string, model: string): (r: Result<GroqProvider, string>)
    ensures r.Err? <==> apiKey == ""
    ensures r.Err? ==> r.error == MissingKeyMessage
    ensures r.Ok? ==> r.value == GroqProvider(Strip(apiKey), NormaliseBaseUrl(baseUrl), model)
  {
    if apiKey == "" then Err(MissingKeyMessage)
    else Ok(GroqProvider(Strip(apiKey), NormaliseBaseUrl(baseUrl), model))
  }

  /** The key is tested before it is stripped: a blank key is accepted and becomes empty. */
  lemma BlankKeyAccepted(apiKey: string, model: string)
    requires apiKey != "" && AllSpace(apiKey)
    ensures NewGroqProvider(apiKey, "", model) == Ok(GroqProvider("", DefaultBaseUrl, model))
  {
    var d := DefaultBaseUrl;
    assert d[0] == 'h' && d[|d| - 1] == 'm';
    StripUnpadded(d);
  }

  const OpenAiPath: string := "/openai/v1"

  /** `_endpoint(path)`: the base URL, then `/openai/v1` unless the base already ends with it, then the path. */
  function Endpoint(p: GroqProvider, path: string): (url: string)
    ensures StartsWith(url, p.baseUrl)
    ensures EndsWith(url, OpenAiPath + path)
    ensures EndsWith(p.baseUrl, OpenAiPath) ==> url == p.baseUrl + path
    ensures !EndsWith(p.baseUrl, OpenAiPath) ==> url == p.baseUrl + OpenAiPath + path
  {
    var url := if EndsWith(p.baseUrl, OpenAiPath) then p.baseUrl + path else p.baseUrl + OpenAiPath + path;
    assert url[..|p.baseUrl|] == p.baseUrl;
    assert EndsWith(p.baseUrl, OpenAiPath) ==> url[|url| - |OpenAiPath + path|..] == p.baseUrl[|p.baseUrl| - |OpenAiPath|..] + path;
    assert !EndsWith(p.baseUrl, OpenAiPath) ==> url[|url| - |OpenAiPath + path|..] == OpenAiPath + path;
    url
  }

  /** A base URL given with or without its `/openai/v1` part leads to the same endpoint. */
  lemma EndpointEitherBase(key: string, model: string, base: string, path: string)
    requires !EndsWith(base, OpenAiPath)
    ensures Endpoint(GroqProvider(key, base + OpenAiPath, model), path) == Endpoint(GroqProvider(key, base, model), path)
  {
    assert (base + OpenAiPath)[|base + OpenAiPath| - |OpenAiPath|..] == OpenAiPath;
  }

  /**
   * The two documented forms of the base URL, a host (such as `https://api.groq.com`)
   * or the host with `/openai/v1` (and a trailing slash), give the same endpoint.
   */
  lemma DocumentedBaseUrls(key: string, model: string, host: string, path: string)
    requires key != "" && host != ""
    requires !IsSpace(host[0]) && !IsSpace(host[|host| - 1]) && host[|host| - 1] != '/'
    requires !EndsWith(host, OpenAiPath)
    ensures var a := NewGroqProvider(key, host, model).value;
      var b := NewGroqProvider(key, host + OpenAiPath + "/", model).value;
      Endpoint(a, path) == Endpoint(b, path) == host + OpenAiPath + path
  {
    var long := host + OpenAiPath + "/";
    assert long[0] == host[0];
    StripUnpadded(long);
    StripUnpadded(host);
    assert long[..|long| - 1] == host + OpenAiPath;
    assert RStripChar(long, '/') == host + OpenAiPath;
    EndpointEitherBase(Strip(key), model, host, path);
  }

  /** The JSON body of a chat-completions request (its fixed temperature aside). */
  datatype GroqPayload = GroqPayload(model: string, stream: bool, messages: seq<ChatMessage>)

  /** `_payload`: the provider's model, the given stream flag, the system then the user message. */
  function Payload(p: GroqProvider, systemPrompt: string, userPrompt: string, stream: bool): (r: GroqPayload)
    ensures r.model == p.model && r.stream == stream
    ensures r.messages == [ChatMessage(System, systemPrompt), ChatMessage(User, userPrompt)]
  {
    GroqPayload(p.model, stream, Messages(systemPrompt, userPrompt))
  }

  /** The message of the `RuntimeError` raised for an error status. */
  function ApiError(status: int, body: string): string {
    "Groq API error " + IntToString(status) + ": " + body
  }

  /**
   * `generate_sql` after the request: a status of 400 or more raises with the status
   * and the body; otherwise the reply's content (null read as empty) is returned stripped.
   */
  function CompletionText(status: int, body: string, content: Option<string>): (r: Result<string, string>)
    ensures r.Err? <==> status >= 400
    ensures r.Err? ==> r.error == ApiError(status, body)
    ensures r.Ok? ==> r.value == Strip(content.GetOr(""))
  {
    if status >= 400 then Err(ApiError(status, body)) else Ok(Strip(content.GetOr("")))
  }

  /** What decoding one event line gives: not JSON, an object with its `delta.content` (missing read as empty), or an object of another shape, on which the lookup raises. */
  datatype Frame = NotJson | Delta(content: string) | BadShape(message: string)

  /** A line with its `data:` prefix removed and the rest stripped. */
  function EventText(line: string): string {
    if StartsWith(line, "data:") then Strip(line[|"data:"|..]) else line
  }

  /** The line that ends the stream. */
  predicate IsDoneLine(line: string) {
    line != "" && EventText(line) == "[DONE]"
  }

  /** The chunks yielded for a list of lines: empty lines and undecodable ones skipped, `[DONE]` stops, empty contents not yielded. */
  function Frames(lines: seq<string>, decode: string -> Frame): (r: Streamed)
    ensures forall i :: 0 <= i < |r.chunks| ==> r.chunks[i] != ""
    decreases |lines|
  {
    if lines == [] then Streamed([], Exhausted)
    else if lines[0] == "" then Frames(lines[1..], decode)
    else
      var text := EventText(lines[0]);
      if text == "[DONE]" then Streamed([], EndMarker)
      else match decode(text)
        case NotJson => Frames(lines[1..], decode)
        case BadShape(m) => Streamed([], Raised(m))
        case Delta(c) =>
          var rest := Frames(lines[1..], decode);
          if c == "" then rest else Streamed([c] + rest.chunks, rest.end)
  }

  /** Framing is incremental: the lines of a reply can be framed part by part. */
  lemma {:induction false} FramesAppend(a: seq<string>, b: seq<string>, decode: string -> Frame)
    ensures Frames(a + b, decode) == FollowedBy(Frames(a, decode), Frames(b, decode))
    decreases |a|
  {
    if a == [] {
      assert a + b == b;
    } else {
      assert (a + b)[0] == a[0];
      assert (a + b)[1..] == a[1..] + b;
      FramesAppend(a[1..], b, decode);
    }
  }

  /** Nothing after a `[DONE]` line is yielded. */
  lemma NothingAfterDone(a: seq<string>, done: string, b: seq<string>, decode: string -> Frame)
    requires IsDoneLine(done)
    ensures Frames(a + [done] + b, decode) == Frames(a + [done], decode)
    ensures Frames(a + [done], decode).chunks == Frames(a, decode).chunks
  {
    FramesAppend(a + [done], b, decode);
    FramesAppend(a, [done], decode);
    assert Frames([done], decode) == Streamed([], EndMarker);
  }

  /** Empty lines and lines that do not decode produce nothing: the stream continues after them as if they were absent. */
  lemma {:induction false} SkippedLines(skipped: seq<string>, rest: seq<string>, decode: string -> Frame)
    requires forall i :: 0 <= i < |skipped| ==>
      skipped[i] == "" || (!IsDoneLine(skipped[i]) && decode(EventText(skipped[i])).NotJson?)
    ensures Frames(skipped + rest, decode) == Frames(rest, decode)
    decreases |skipped|
  {
    if skipped == [] {
      assert skipped + rest == rest;
    } else {
      assert (skipped + rest)[0] == skipped[0];
      assert (skipped + rest)[1..] == skipped[1..] + rest;
      SkippedLines(skipped[1..], rest, decode);
    }
  }

  /** When every line decodes to content, the yielded chunks are the non-empty contents in arrival order. */
  lemma {:induction false} FramesOfDeltas(lines: seq<string>, contents: seq<string>, decode: string -> Frame)
    requires |lines| == |contents|
    requires forall i :: 0 <= i < |lines| ==> lines[i] != "" && !IsDoneLine(lines[i]) && decode(EventText(lines[i])) == Delta(contents[i])
    ensures Frames(lines, decode) == Streamed(NonEmpty(contents), Exhausted)
    decreases |lines|
  {
    if lines != [] {
      FramesOfDeltas(lines[1..], contents[1..], decode);
    }
  }

  /**
   * `generate_sql_stream` after the request is sent: an error status raises before
   * anything is yielded; otherwise the lines are framed one by one.
   */
  method GenerateSqlStream(status: int, body: string, lines: seq<string>, decode: string -> Frame)
    returns (s: Streamed)
    ensures status >= 400 ==> s == Streamed([], Raised(ApiError(status, body)))
    ensures status < 400 ==> s == Frames(lines, decode)
  {
    if status >= 400 {
      return Streamed([], Raised(ApiError(status, body)));
    }
    var chunks: seq<string> := [];
    var i := 0;
    while i < |lines|
      invariant 0 <= i <= |lines|
      invariant Frames(lines, decode) == FollowedBy(Streamed(chunks, Exhausted), Frames(lines[i..], decode))
    {
      var line := lines[i];
      assert lines[i..][1..] == lines[i + 1..];
      i := i + 1;
      if line == "" {
        continue;
      }
      var text := line;
      if StartsWith(text, "data:") {
        text := Strip(text[|"data:"|..]);
      }
      if text == "[DONE]" {
        return Streamed(chunks, EndMarker);
      }
      var frame := decode(text);
      if frame.NotJson? {
        continue;
      }
      if frame.BadShape? {
        return Streamed(chunks, Raised(frame.message));
      }
      var chunk := frame.content;
      if chunk != "" {
        chunks := chunks + [chunk];
      }
    }
    return Streamed(chunks, Exhausted);
  }
}

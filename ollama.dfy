/**
 * The Ollama provider's own logic: constructor normalisation, the chat URL, the
 * request payload with its optional token cap, the reply text and the framing of
 * the newline-delimited JSON objects of a streamed reply. The HTTP exchange and
 * JSON decoding are outside: the outcome of the status check, the reply's lines
 * and a decoder for one line come in as parameters.
 */
module Ollama {
  import opened Wrappers
  import opened Text
  import opened Chat

  datatype OllamaProvider = OllamaProvider(baseUrl: string, model: string, maxOutputTokens: int)

  /**
   * `OllamaProvider(base_url=..., model=..., max_output_tokens=...)`: trailing slashes
   * of the base URL dropped, a missing token cap (`None`) read as 0.
   */
  function NewOllamaProvider(baseUrl: string, model: string, maxOutputTokens: Option<int>): (p: OllamaProvider)
    ensures StartsWith(baseUrl, p.baseUrl) && (p.baseUrl == [] || p.baseUrl[|p.baseUrl| - 1] != '/')
    ensures forall i :: |p.baseUrl| <= i < |baseUrl| ==> baseUrl[i] == '/'
    ensures p.model == model
    ensures p.maxOutputTokens == maxOutputTokens.GetOr(0)
  {
    OllamaProvider(RStripChar(baseUrl, '/'), model, match maxOutputTokens case None => 0 case Some(n) => n)
  }

  /** `f"{base_url}/api/chat"`, the one endpoint of both calls. */
  function ChatUrl(p: OllamaProvider): (url: string)
    ensures StartsWith(url, p.baseUrl) && EndsWith(url, "/api/chat")
    ensures |url| == |p.baseUrl| + |"/api/chat"|
  {
    var url := p.baseUrl + "/api/chat";
    assert url[..|p.baseUrl|] == p.baseUrl;
    assert url[|url| - |"/api/chat"|..] == "/api/chat";
    url
  }

  /** A base URL given with trailing slashes leads to the same chat URL as without them. */
  lemma TrailingSlashesIgnored(baseUrl: string, slashes: nat, model: string, maxOutputTokens: Option<int>)
    requires baseUrl == [] || baseUrl[|baseUrl| - 1] != '/'
    ensures var padded := baseUrl + seq(slashes, _ => '/');
      ChatUrl(NewOllamaProvider(padded, model, maxOutputTokens)) == ChatUrl(NewOllamaProvider(baseUrl, model, maxOutputTokens))
  {
    var padded := baseUrl + seq(slashes, _ => '/');
    var r := RStripChar(padded, '/');
    assert RStripChar(baseUrl, '/') == baseUrl;
    assert baseUrl != [] ==> padded[|baseUrl| - 1] == baseUrl[|baseUrl| - 1];
    assert forall i :: |baseUrl| <= i < |padded| ==> padded[i] == '/';
    assert |r| > 0 ==> r[|r| - 1] == padded[|r| - 1];
    assert r == padded[..|baseUrl|] == baseUrl;
  }

  /** The `options` object: the temperature aside, `num_predict` when the cap is positive. */
  datatype Options = Options(numPredict: Option<int>)

  /** The JSON body of a chat request. */
  datatype OllamaPayload = OllamaPayload(model: string, stream: bool, messages: seq<ChatMessage>, options: Options)

  /** `_payload`: the model, the stream flag, system then user message, and the token cap only when it is positive. */
  function Payload(p: OllamaProvider, systemPrompt: string, userPrompt: string, stream: bool): (r: OllamaPayload)
    ensures r.model == p.model && r.stream == stream
    ensures r.messages == [ChatMessage(System, systemPrompt), ChatMessage(User, userPrompt)]
    ensures r.options.numPredict.Some? <==> p.maxOutputTokens > 0
    ensures r.options.numPredict.Some? ==> r.options.numPredict.value == p.maxOutputTokens
  {
    var options := if p.maxOutputTokens > 0 then Options(Some(p.maxOutputTokens)) else Options(None);
    OllamaPayload(p.model, stream, Messages(systemPrompt, userPrompt), options)
  }

  /**
   * `generate_sql` after the request: a failed status check raises (its message comes
   * from the HTTP library); otherwise `message.content` (missing or null read as empty)
   * is returned stripped.
   */
  function CompletionText(failure: Option<string>, content: Option<string>): (r: Result<string, string>)
    ensures r.Err? <==> failure.Some?
    ensures r.Err? ==> r.error == failure.value
    ensures r.Ok? ==> r.value == Strip(content.GetOr("")) && (r.value == "" <==> AllSpace(content.GetOr("")))
  {
    match failure
    case Some(m) => Err(m)
    case None => Ok(Strip(content.GetOr("")))
  }

  /**
   * What decoding one line gives: not JSON, an object with its truthiness of `done`
   * and its `message.content` (missing read as empty), or an object of another shape,
   * on which the lookup raises.
   */
  datatype Frame = NotJson | Object(done: bool, content: string) | BadShape(message: string)

  /** The chunks yielded for a list of lines: empty and undecodable lines skipped, a `done` object stops without yielding, empty contents not yielded. */
  function Frames(lines: seq<string>, decode: string -> Frame): (r: Streamed)
    ensures forall i :: 0 <= i < |r.chunks| ==> r.chunks[i] != ""
    decreases |lines|
  {
    if lines == [] then Streamed([], Exhausted)
    else if lines[0] == "" then Frames(lines[1..], decode)
    else match decode(lines[0])
      case NotJson => Frames(lines[1..], decode)
      case BadShape(m) => Streamed([], Raised(m))
      case Object(done, c) =>
        if done then Streamed([], EndMarker)
        else
          var rest := Frames(lines[1..], decode);
          if c == "" then rest else Streamed([c] + rest.chunks, rest.end)
  }

  /** Framing is incremental: the lines of a reply can be framed part by part. */
  lemma {:induction false} FramesAppend(a: seq<string>, b: seq<string>, decode: string -> Frame)
    ensures Frames(a + b, decode) == FollowedBy(Frames(a, decode), Frames(b, decode))
    decreases |a|
  {
    if a == [] {
      assert a + b == b;
    } else {
      assert (a + b)[0] == a[0];
      assert (a + b)[1..] == a[1..] + b;
      FramesAppend(a[1..], b, decode);
    }
  }

  /** A `done` object ends the stream: its own content and every later line are ignored. */
  lemma NothingFromDoneOn(a: seq<string>, done: string, b: seq<string>, decode: string -> Frame)
    requires done != "" && decode(done).Object? && decode(done).done
    ensures Frames(a + [done] + b, decode) == Frames(a + [done], decode)
    ensures Frames(a + [done], decode).chunks == Frames(a, decode).chunks
  {
    FramesAppend(a + [done], b, decode);
    FramesAppend(a, [done], decode);
    assert Frames([done], decode) == Streamed([], EndMarker);
  }

  /** Empty lines and lines that do not decode produce nothing: the stream continues after them as if they were absent. */
  lemma {:induction false} SkippedLines(skipped: seq<string>, rest: seq<string>, decode: string -> Frame)
    requires forall i :: 0 <= i < |skipped| ==> skipped[i] == "" || decode(skipped[i]).NotJson?
    ensures Frames(skipped + rest, decode) == Frames(rest, decode)
    decreases |skipped|
  {
    if skipped == [] {
      assert skipped + rest == rest;
    } else {
      assert (skipped + rest)[0] == skipped[0];
      assert (skipped + rest)[1..] == skipped[1..] + rest;
      SkippedLines(skipped[1..], rest, decode);
    }
  }

  /** When every line decodes to an object that is not done, the yielded chunks are the non-empty contents in arrival order. */
  lemma {:induction false} FramesOfObjects(lines: seq<string>, contents: seq<string>, decode: string -> Frame)
    requires |lines| == |contents|
    requires forall i :: 0 <= i < |lines| ==> lines[i] != "" && decode(lines[i]) == Object(false, contents[i])
    ensures Frames(lines, decode) == Streamed(NonEmpty(contents), Exhausted)
    decreases |lines|
  {
    if lines != [] {
      FramesOfObjects(lines[1..], contents[1..], decode);
    }
  }

  /**
   * `generate_sql_stream` after the request is sent: a failed status check raises
   * before anything is yielded; otherwise the lines are framed one by one.
   */
  method GenerateSqlStream(failure: Option<string>, lines: seq<string>, decode: string -> Frame)
    returns (s: Streamed)
    ensures failure.Some? ==> s == Streamed([], Raised(failure.value))
    ensures failure.None? ==> s == Frames(lines, decode)
  {
    if failure.Some? {
      return Streamed([], Raised(failure.value));
    }
    var chunks: seq<string> := [];
    var i := 0;
    while i < |lines|
      invariant 0 <= i <= |lines|
      invariant Frames(lines, decode) == FollowedBy(Streamed(chunks, Exhausted), Frames(lines[i..], decode))
    {
      var line := lines[i];
      assert lines[i..][1..] == lines[i + 1..];
      i := i + 1;
      if line == "" {
        continue;
      }
      var obj := decode(line);
      if obj.NotJson? {
        continue;
      }
      if obj.BadShape? {
        return Streamed(chunks, Raised(obj.message));
      }
      if obj.done {
        return Streamed(chunks, EndMarker);
      }
      var chunk := obj.content;
      if chunk != "" {
        chunks := chunks + [chunk];
      }
    }
    return Streamed(chunks, Exhausted);
  }
}

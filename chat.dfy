/** What both generation backends share: the chat messages they send and the shape of a streamed reply. */
module Chat {

  datatype Role = System | User

  /** One entry of the `messages` list: `{"role": ..., "content": ...}`. */
  datatype ChatMessage = ChatMessage(role: Role, content: string)

  /** The `messages` list both providers send: the system instruction, then the user instruction. */
  function Messages(systemPrompt: string, userPrompt: string): (m: seq<ChatMessage>)
    ensures |m| == 2
    ensures m[0].role == System && m[1].role == User
    ensures m[0].content == systemPrompt && m[1].content == userPrompt
  {
    [ChatMessage(System, systemPrompt), ChatMessage(User, userPrompt)]
  }

  /** How a streamed reply stops: its lines ran out, an end marker came, or an exception was raised. */
  datatype StreamEnd = Exhausted | EndMarker | Raised(message: string)

  /** The chunks a `generate_sql_stream` generator yields, in order, and how it stops. */
  datatype Streamed = Streamed(chunks: seq<string>, end: StreamEnd)

  /** A streamed reply whose first part stopped on its own continues with the second part. */
  function FollowedBy(first: Streamed, second: Streamed): Streamed {
    if first.end.Exhausted? then Streamed(first.chunks + second.chunks, second.end) else first
  }

  /** `"".join(chunks)`, the text a consumer accumulates with `buf += chunk`. */
  function Concat(chunks: seq<string>): string
    decreases |chunks|
  {
    if chunks == [] then "" else Concat(chunks[..|chunks| - 1]) + chunks[|chunks| - 1]
  }

  /** The non-empty strings of a list, in order. */
  function NonEmpty(xs: seq<string>): seq<string>
    decreases |xs|
  {
    if xs == [] then [] else (if xs[0] == "" then [] else [xs[0]]) + NonEmpty(xs[1..])
  }
}

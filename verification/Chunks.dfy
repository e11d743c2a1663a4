/** Decoded OpenAI stream chunks, the input of every translator. */
module Chunks {
  import opened Optional
  import opened Text

  datatype ToolCall = ToolCall(index: int, id: string, kind: string, name: string, arguments: string)

  datatype Choice = Choice(content: string, toolCalls: seq<ToolCall>, finishReason: string)

  /** `usage` is the raw usage object, carried along unread. */
  datatype Chunk = Chunk(id: string, model: string, choices: seq<Choice>, usage: Option<string>)

  /** Has the call any non-blank field? */
  predicate Meaningful(call: ToolCall) {
    !IsBlank(call.id) || !IsBlank(call.kind) || !IsBlank(call.name) || !IsBlank(call.arguments)
  }

  predicate AnyMeaningful(calls: seq<ToolCall>) {
    exists i :: 0 <= i < |calls| && Meaningful(calls[i])
  }

  // ---- what goes in --------------------------------------------------------------------------

  function ChoicesText(choices: seq<Choice>, n: nat): string
    requires n <= |choices|
  {
    if n == 0 then "" else ChoicesText(choices, n - 1) + choices[n - 1].content
  }

  /** All delta.content of the first n chunks, concatenated. */
  function TextOf(chunks: seq<Chunk>, n: nat): string
    requires n <= |chunks|
  {
    if n == 0 then "" else TextOf(chunks, n - 1) + ChoicesText(chunks[n - 1].choices, |chunks[n - 1].choices|)
  }

  /** The argument fragments of tool index k in the first n calls of a list. */
  function CallsArgs(calls: seq<ToolCall>, k: int, n: nat): string
    requires n <= |calls|
  {
    if n == 0 then ""
    else CallsArgs(calls, k, n - 1) + if calls[n - 1].index == k then calls[n - 1].arguments else ""
  }

  function ChoicesArgs(choices: seq<Choice>, k: int, n: nat): string
    requires n <= |choices|
  {
    if n == 0 then ""
    else ChoicesArgs(choices, k, n - 1) + CallsArgs(choices[n - 1].toolCalls, k, |choices[n - 1].toolCalls|)
  }

  /** All argument fragments of tool index k in the first n chunks. */
  function ArgsOf(chunks: seq<Chunk>, k: int, n: nat): string
    requires n <= |chunks|
  {
    if n == 0 then ""
    else ArgsOf(chunks, k, n - 1) + ChoicesArgs(chunks[n - 1].choices, k, |chunks[n - 1].choices|)
  }
}

/** The translator that turns OpenAI chunks into Gemini frames, and exactly what it writes. */
module GeminiStream {
  import opened Optional
  import opened Text
  import opened Chunks
  import opened Sorting

  /** Frames written to the client. A function call carries the raw argument text that is parsed into
      its args object; the constant frame fields and modelVersion are left out. */
  datatype Frame =
    | TextPart(text: string)
    | FunctionCall(name: string, arguments: string)
    | FinishFrame(finishReason: string, usage: Option<string>)

  datatype CallState = CallState(name: string, arguments: string)

  datatype Translator = Translator(
    model: string,
    usage: Option<string>,
    finishReason: string,
    toolCalls: map<int, CallState>,
    toolCallKeys: seq<int>,
    finished: bool,
    hasContent: bool,
    started: bool,
    out: seq<Frame>)

  function Fresh(model: string): Translator {
    Translator(model, None, "", map[], [], false, false, false, [])
  }

  // ---- what each step does ---------------------------------------------------------------------

  function MapFinishReason(reason: string): string {
    var r := TrimSpace(reason);
    if r == "length" || r == "tool_calls" || r == "stop" || r == "" then "STOP" else ToUpper(reason)
  }

  /** strings.ToUpper on ASCII letters, other characters unchanged. */
  function ToUpper(s: string): (u: string)
    ensures |u| == |s|
    ensures forall i :: 0 <= i < |s| ==> if 'a' <= s[i] <= 'z' then 'A' <= u[i] <= 'Z' && u[i] - 'A' == s[i] - 'a' else u[i] == s[i]
  {
    seq(|s|, i requires 0 <= i < |s| => if 'a' <= s[i] <= 'z' then (s[i] as int - 32) as char else s[i])
  }

  function Emit(t: Translator, f: Frame): Translator {
    t.(started := true, out := t.out + [f])
  }

  function ConsumeContent(t: Translator, content: string): Translator {
    if content == "" then t else Emit(t.(hasContent := true), TextPart(content))
  }

  function ConsumeToolCall(t: Translator, call: ToolCall): Translator {
    var isNew := call.index !in t.toolCalls;
    var prior := if isNew then CallState(call.name, "") else t.toolCalls[call.index];
    var named := if prior.name == "" && call.name != "" then prior.(name := call.name) else prior;
    var filled := named.(arguments := named.arguments + call.arguments);
    t.(toolCalls := t.toolCalls[call.index := filled],
       toolCallKeys := if isNew then t.toolCallKeys + [call.index] else t.toolCallKeys,
       hasContent := t.hasContent || call.arguments != "")
  }

  function ConsumeToolCalls(t: Translator, calls: seq<ToolCall>, n: nat): Translator
    requires n <= |calls|
  {
    if n == 0 then t else ConsumeToolCall(ConsumeToolCalls(t, calls, n - 1), calls[n - 1])
  }

  function ConsumeChoice(t: Translator, choice: Choice): Translator {
    var t1 := ConsumeToolCalls(ConsumeContent(t, choice.content), choice.toolCalls, |choice.toolCalls|);
    if choice.finishReason == "" then t1 else t1.(finishReason := choice.finishReason)
  }

  function ConsumeChoices(t: Translator, choices: seq<Choice>, n: nat): Translator
    requires n <= |choices|
  {
    if n == 0 then t else ConsumeChoice(ConsumeChoices(t, choices, n - 1), choices[n - 1])
  }

  function NoteHeader(t: Translator, chunk: Chunk): Translator {
    var t1 := if chunk.model != "" then t.(model := FirstNonEmpty(t.model, chunk.model)) else t;
    if chunk.usage.Some? then t1.(usage := chunk.usage) else t1
  }

  function ConsumeChunk(t: Translator, chunk: Chunk): Translator {
    ConsumeChoices(NoteHeader(t, chunk), chunk.choices, |chunk.choices|)
  }

  function EmitCalls(t: Translator, n: nat): Translator
    requires n <= |t.toolCallKeys|
    ensures EmitCalls(t, n).toolCallKeys == t.toolCallKeys && EmitCalls(t, n).toolCalls == t.toolCalls
    ensures EmitCalls(t, n).finishReason == t.finishReason && EmitCalls(t, n).usage == t.usage
  {
    if n == 0 then t
    else
      var before := EmitCalls(t, n - 1);
      var key := t.toolCallKeys[n - 1];
      if key in t.toolCalls then Emit(before, FunctionCall(t.toolCalls[key].name, t.toolCalls[key].arguments)) else before
  }

  function Finished(t: Translator): Translator {
    if t.finished then t
    else if !t.hasContent && !t.started then t.(finished := true)
    else
      var t1 := t.(toolCallKeys := SortInts(t.toolCallKeys));
      var t2 := EmitCalls(t1, |t1.toolCallKeys|);
      Emit(t2, FinishFrame(MapFinishReason(t2.finishReason), t2.usage)).(finished := true)
  }

  /** geminiLiveStreamTranslator; `out` stands for the bytes written to w. */
  class GeminiTranslator {
    var model: string
    var usage: Option<string>
    var finishReason: string
    var toolCalls: map<int, CallState>
    var toolCallKeys: seq<int>
    var finished: bool
    var hasContent: bool
    var started: bool
    var out: seq<Frame>

    function Now(): Translator
      reads this
    {
      Translator(model, usage, finishReason, toolCalls, toolCallKeys, finished, hasContent, started, out)
    }

    constructor (requestedModel: string)
      ensures Now() == Fresh(requestedModel)
    {
      model, usage, finishReason, toolCalls, toolCallKeys := requestedModel, None, "", map[], [];
      finished, hasContent, started, out := false, false, false, [];
    }

    method WriteFrame(f: Frame)
      modifies this`out, this`started
      ensures Now() == Emit(old(Now()), f)
    {
      if !started {
        started := true;
      }
      out := out + [f];
    }

    method TakeToolCall(call: ToolCall)
      modifies this
      ensures Now() == ConsumeToolCall(old(Now()), call)
    {
      var state;
      if call.index !in toolCalls {
        state := CallState(call.name, "");
        toolCallKeys := toolCallKeys + [call.index];
      } else {
        state := toolCalls[call.index];
      }
      if state.name == "" && call.name != "" {
        state := state.(name := call.name);
      }
      if call.arguments != "" {
        state := state.(arguments := state.arguments + call.arguments);
        hasContent := true;
      } else {
        assert state.arguments + "" == state.arguments;
      }
      toolCalls := toolCalls[call.index := state];
    }

    method TakeChoice(choice: Choice)
      modifies this
      ensures Now() == ConsumeChoice(old(Now()), choice)
    {
      hide ConsumeToolCall;
      if choice.content != "" {
        hasContent := true;
        WriteFrame(TextPart(choice.content));
      }
      ghost var before := Now();
      for i := 0 to |choice.toolCalls|
        invariant Now() == ConsumeToolCalls(before, choice.toolCalls, i)
      {
        TakeToolCall(choice.toolCalls[i]);
      }
      if choice.finishReason != "" {
        finishReason := choice.finishReason;
      }
    }

    method Consume(chunk: Chunk)
      modifies this
      ensures Now() == ConsumeChunk(old(Now()), chunk)
    {
      hide ConsumeChoice, FirstNonEmpty;
      if chunk.model != "" {
        model := FirstNonEmpty(model, chunk.model);
      }
      if chunk.usage.Some? {
        usage := chunk.usage;
      }
      ghost var before := Now();
      for i := 0 to |chunk.choices|
        invariant Now() == ConsumeChoices(before, chunk.choices, i)
      {
        TakeChoice(chunk.choices[i]);
      }
    }

    method Finish()
      modifies this
      ensures Now() == Finished(old(Now()))
    {
      hide MapFinishReason, SortInts;
      if finished {
        return;
      }
      if !hasContent && !started {
        finished := true;
        return;
      }
      toolCallKeys := SortInts(toolCallKeys);
      ghost var before := Now();
      for i := 0 to |toolCallKeys|
        invariant toolCallKeys == before.toolCallKeys
        invariant Now() == EmitCalls(before, i)
      {
        var key := toolCallKeys[i];
        if key !in toolCalls {
          continue;
        }
        WriteFrame(FunctionCall(toolCalls[key].name, toolCalls[key].arguments));
      }
      WriteFrame(FinishFrame(MapFinishReason(finishReason), usage));
      finished := true;
    }
  }
}

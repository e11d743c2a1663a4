/** The translator that turns OpenAI chunks into a Claude event stream. */
module ClaudeStream {
  import opened Optional
  import opened Text
  import opened Chunks

  datatype Kind = TextKind | ToolKind(id: string, name: string)

  /** What is written to the client. A generated message id is the empty id. */
  datatype Event =
    | MessageStart(id: string, model: string)
    | BlockStart(index: nat, kind: Kind)
    | TextDelta(index: nat, text: string)
    | JsonDelta(index: nat, json: string)
    | BlockStop(index: nat)
    | MessageDelta(stopReason: string, usage: Option<string>)
    | MessageStop

  datatype ToolBlock = ToolBlock(openIndex: nat, toolID: string, toolName: string, closed: bool)

  /** The translator's fields, and what it has written so far. */
  datatype Translator = Translator(
    messageID: string,
    model: string,
    usage: Option<string>,
    finishReason: string,
    started: bool,
    hasContent: bool,
    finished: bool,
    textOpen: bool,
    textIndex: nat,
    nextIndex: nat,
    toolBlocks: map<int, ToolBlock>,
    toolBlockKeys: seq<int>,
    out: seq<Event>)

  function Fresh(model: string): Translator {
    Translator("", model, None, "", false, false, false, false, 0, 0, map[], [], [])
  }

  function MapFinishReason(reason: string): string {
    var r := TrimSpace(reason);
    if r == "tool_calls" then "tool_use"
    else if r == "length" || r == "stop" || r == "" then "end_turn"
    else reason
  }

  // ---- what each step does -------------------------------------------------------------------

  function Emit(t: Translator, e: Event): Translator {
    t.(out := t.out + [e])
  }

  function EnsureStarted(t: Translator): Translator {
    if t.started then t else Emit(t.(started := true), MessageStart(FirstNonEmpty(t.messageID, ""), t.model))
  }

  function EnsureTextBlock(t: Translator): Translator {
    if t.textOpen then t
    else
      Emit(t.(textIndex := t.nextIndex, nextIndex := t.nextIndex + 1, textOpen := true),
           BlockStart(t.nextIndex, TextKind))
  }

  function CloseTextBlock(t: Translator): Translator {
    if t.textOpen then Emit(t.(textOpen := false), BlockStop(t.textIndex)) else t
  }

  function NewBlock(t: Translator, call: ToolCall): ToolBlock {
    ToolBlock(t.nextIndex,
              FirstNonEmpty(call.id, "toolu_" + Decimal(call.index)),
              FirstNonEmpty(call.name, "tool_" + Decimal(call.index)),
              false)
  }

  function OpenToolBlock(t: Translator, call: ToolCall): Translator {
    if call.index in t.toolBlocks then
      var b := t.toolBlocks[call.index];
      var b1 := if b.toolID == "" && call.id != "" then b.(toolID := call.id) else b;
      var b2 := if b1.toolName == "" && call.name != "" then b1.(toolName := call.name) else b1;
      t.(toolBlocks := t.toolBlocks[call.index := b2])
    else
      var b := NewBlock(t, call);
      Emit(t.(toolBlocks := t.toolBlocks[call.index := b],
              toolBlockKeys := t.toolBlockKeys + [call.index],
              nextIndex := t.nextIndex + 1),
           BlockStart(b.openIndex, ToolKind(b.toolID, b.toolName)))
  }

  function ConsumeToolCall(t: Translator, call: ToolCall): Translator {
    var t1 := OpenToolBlock(t, call);
    if call.arguments != "" then Emit(t1, JsonDelta(t1.toolBlocks[call.index].openIndex, call.arguments)) else t1
  }

  function ConsumeToolCalls(t: Translator, calls: seq<ToolCall>, n: nat): Translator
    requires n <= |calls|
  {
    if n == 0 then t else ConsumeToolCall(ConsumeToolCalls(t, calls, n - 1), calls[n - 1])
  }

  function ConsumeContent(t: Translator, content: string): Translator {
    if content == "" then t
    else
      var t1 := EnsureTextBlock(EnsureStarted(t.(hasContent := true)));
      Emit(t1, TextDelta(t1.textIndex, content))
  }

  function ConsumeTools(t: Translator, calls: seq<ToolCall>): Translator {
    if !AnyMeaningful(calls) then t
    else ConsumeToolCalls(CloseTextBlock(EnsureStarted(t.(hasContent := true))), calls, |calls|)
  }

  lemma NoToolsNoChange(t: Translator)
    ensures ConsumeTools(t, []) == t
  {}

  function NoteFinish(t: Translator, reason: string): Translator {
    if reason == "" then t else t.(finishReason := reason)
  }

  function ConsumeChoice(t: Translator, choice: Choice): Translator {
    NoteFinish(ConsumeTools(ConsumeContent(t, choice.content), choice.toolCalls), choice.finishReason)
  }

  function ConsumeChoices(t: Translator, choices: seq<Choice>, n: nat): Translator
    requires n <= |choices|
  {
    if n == 0 then t else ConsumeChoice(ConsumeChoices(t, choices, n - 1), choices[n - 1])
  }

  function NoteHeader(t: Translator, chunk: Chunk): Translator {
    var t1 := if chunk.model != "" then t.(model := FirstNonEmpty(t.model, chunk.model)) else t;
    var t2 := if chunk.id != "" then t1.(messageID := FirstNonEmpty(t1.messageID, chunk.id)) else t1;
    if chunk.usage.Some? then t2.(usage := chunk.usage) else t2
  }

  function ConsumeChunk(t: Translator, chunk: Chunk): Translator {
    ConsumeChoices(NoteHeader(t, chunk), chunk.choices, |chunk.choices|)
  }

  function CloseBlock(t: Translator, key: int): Translator {
    if key !in t.toolBlocks || t.toolBlocks[key].closed then t
    else
      var b := t.toolBlocks[key];
      Emit(t, BlockStop(b.openIndex)).(toolBlocks := t.toolBlocks[key := b.(closed := true)])
  }

  function CloseBlocks(t: Translator, n: nat): Translator
    requires n <= |t.toolBlockKeys|
  {
    if n == 0 then t else CloseBlock(CloseBlocks(t, n - 1), t.toolBlockKeys[n - 1])
  }

  function Finished(t: Translator): Translator {
    if t.finished then t
    else if !t.hasContent && !t.started then t.(finished := true)
    else
      var t1 := CloseTextBlock(EnsureStarted(t));
      var t2 := CloseBlocks(t1, |t1.toolBlockKeys|);
      var t3 := Emit(t2, MessageDelta(MapFinishReason(t2.finishReason), t2.usage));
      Emit(t3, MessageStop).(finished := true)
  }

  method HasMeaningfulCall(calls: seq<ToolCall>) returns (meaningful: bool)
    ensures meaningful <==> AnyMeaningful(calls)
  {
    hide Meaningful;
    meaningful := false;
    for i := 0 to |calls|
      invariant !meaningful && forall j :: 0 <= j < i ==> !Meaningful(calls[j])
    {
      if Meaningful(calls[i]) {
        meaningful := true;
        break;
      }
    }
  }

  // ---- the translator itself -----------------------------------------------------------------

  /** claudeLiveStreamTranslator; `out` stands for the bytes written to w. */
  class ClaudeTranslator {
    var messageID: string
    var model: string
    var usage: Option<string>
    var finishReason: string
    var started: bool
    var hasContent: bool
    var finished: bool
    var textOpen: bool
    var textIndex: nat
    var nextIndex: nat
    var toolBlocks: map<int, ToolBlock>
    var toolBlockKeys: seq<int>
    var out: seq<Event>

    function Now(): Translator
      reads this
    {
      Translator(messageID, model, usage, finishReason, started, hasContent, finished, textOpen, textIndex,
                 nextIndex, toolBlocks, toolBlockKeys, out)
    }

    constructor (requestedModel: string)
      ensures Now() == Fresh(requestedModel)
    {
      messageID, model, usage, finishReason := "", requestedModel, None, "";
      started, hasContent, finished := false, false, false;
      textOpen, textIndex, nextIndex := false, 0, 0;
      toolBlocks, toolBlockKeys, out := map[], [], [];
    }

    method WriteEvent(e: Event)
      modifies this`out
      ensures Now() == Emit(old(Now()), e)
    {
      out := out + [e];
    }

    method Start()
      modifies this
      ensures Now() == EnsureStarted(old(Now()))
    {
      hide FirstNonEmpty;
      if started {
        return;
      }
      started := true;
      WriteEvent(MessageStart(FirstNonEmpty(messageID, ""), model));
    }

    method OpenText()
      modifies this
      ensures Now() == EnsureTextBlock(old(Now()))
    {
      if textOpen {
        return;
      }
      textIndex := nextIndex;
      nextIndex := nextIndex + 1;
      textOpen := true;
      WriteEvent(BlockStart(textIndex, TextKind));
    }

    method CloseText()
      modifies this
      ensures Now() == CloseTextBlock(old(Now()))
    {
      if !textOpen {
        return;
      }
      textOpen := false;
      WriteEvent(BlockStop(textIndex));
    }

    /** The block of a tool index: started on its first call, completed by later ones. */
    method OpenBlock(call: ToolCall) returns (block: ToolBlock)
      modifies this
      ensures Now() == OpenToolBlock(old(Now()), call) && call.index in toolBlocks && block == toolBlocks[call.index]
    {
      hide NewBlock;
      if call.index !in toolBlocks {
        block := NewBlock(Now(), call);
        toolBlocks := toolBlocks[call.index := block];
        toolBlockKeys := toolBlockKeys + [call.index];
        nextIndex := nextIndex + 1;
        WriteEvent(BlockStart(block.openIndex, ToolKind(block.toolID, block.toolName)));
      } else {
        block := toolBlocks[call.index];
        if block.toolID == "" && call.id != "" {
          block := block.(toolID := call.id);
        }
        if block.toolName == "" && call.name != "" {
          block := block.(toolName := call.name);
        }
        toolBlocks := toolBlocks[call.index := block];
      }
    }

    method TakeToolCall(call: ToolCall)
      modifies this
      ensures Now() == ConsumeToolCall(old(Now()), call)
    {
      hide OpenToolBlock;
      var block := OpenBlock(call);
      if call.arguments != "" {
        WriteEvent(JsonDelta(block.openIndex, call.arguments));
      }
    }

    /** The gate: a list is passed on only if some call in it has a non-blank field. */
    method TakeToolCalls(calls: seq<ToolCall>)
      modifies this
      ensures Now() == ConsumeTools(old(Now()), calls)
    {
      hide ConsumeToolCall, EnsureStarted, CloseTextBlock, Meaningful;
      var meaningful := HasMeaningfulCall(calls);
      if meaningful {
        hasContent := true;
        Start();
        CloseText();
        ghost var before := Now();
        for i := 0 to |calls|
          invariant Now() == ConsumeToolCalls(before, calls, i)
        {
          TakeToolCall(calls[i]);
        }
      }
    }

    /** The body of Consume's loop over choices. */
    method TakeChoice(choice: Choice)
      modifies this
      ensures Now() == ConsumeChoice(old(Now()), choice)
    {
      hide EnsureStarted, EnsureTextBlock, ConsumeTools;
      if choice.content != "" {
        hasContent := true;
        Start();
        OpenText();
        WriteEvent(TextDelta(textIndex, choice.content));
      }
      if |choice.toolCalls| > 0 {
        TakeToolCalls(choice.toolCalls);
      } else {
        NoToolsNoChange(Now());
      }
      if choice.finishReason != "" {
        finishReason := choice.finishReason;
      }
    }

    method Consume(chunk: Chunk)
      modifies this
      ensures Now() == ConsumeChunk(old(Now()), chunk)
    {
      hide ConsumeChoice, FirstNonEmpty;
      if chunk.model != "" {
        model := FirstNonEmpty(model, chunk.model);
      }
      if chunk.id != "" {
        messageID := FirstNonEmpty(messageID, chunk.id);
      }
      if chunk.usage.Some? {
        usage := chunk.usage;
      }
      ghost var before := Now();
      assert before == NoteHeader(old(Now()), chunk);
      for i := 0 to |chunk.choices|
        invariant Now() == ConsumeChoices(before, chunk.choices, i)
      {
        TakeChoice(chunk.choices[i]);
      }
    }

    method Finish()
      modifies this
      ensures Now() == Finished(old(Now()))
    {
      if finished {
        return;
      }
      if !hasContent && !started {
        finished := true;
        return;
      }
      Start();
      CloseText();
      ghost var before := Now();
      for i := 0 to |toolBlockKeys|
        invariant toolBlockKeys == before.toolBlockKeys
        invariant Now() == CloseBlocks(before, i)
      {
        var key := toolBlockKeys[i];
        if key !in toolBlocks || toolBlocks[key].closed {
          continue;
        }
        WriteEvent(BlockStop(toolBlocks[key].openIndex));
        toolBlocks := toolBlocks[key := toolBlocks[key].(closed := true)];
      }
      WriteEvent(MessageDelta(MapFinishReason(finishReason), usage));
      WriteEvent(MessageStop);
      finished := true;
    }
  }
}

/** The translator that turns OpenAI chunks into a Responses API event stream. */
module ResponsesStream {
  import opened Text
  import opened Chunks
  import opened Sorting

  /** An output item; stands for the generated item id. */
  datatype Item = Message | Function(tool: int)

  /** A call id: the upstream's, or a generated one, which is never empty. */
  datatype CallId = Given(id: string) | Generated

  /** What an event says about a tool call. */
  datatype Title = NoTitle | Titled(callId: CallId, name: string)

  datatype OutputItem = MessageItem(text: string) | FunctionItem(tool: int, callId: CallId, name: string, arguments: string)

  /** What is written to the client, without ids and constant fields. */
  datatype Event =
    | Created
    | ItemAdded(item: Item, outputIndex: nat, title: Title)
    | PartAdded(outputIndex: nat)
    | TextDelta(outputIndex: nat, delta: string)
    | TextDone(outputIndex: nat, text: string)
    | PartDone(outputIndex: nat, text: string)
    | ArgsDelta(tool: int, outputIndex: nat, callId: CallId, delta: string)
    | ArgsDone(tool: int, outputIndex: nat, title: Title, arguments: string)
    | ItemDone(item: Item, outputIndex: nat, title: Title, content: string)
    | Completed(output: seq<OutputItem>, outputText: string)
    | Failed(message: string)
    | DoneMarker

  datatype FunctionCall = FunctionCall(outputIndex: nat, callId: CallId, name: string, arguments: string)

  datatype Translator = Translator(
    messageStarted: bool,
    messageText: string,
    functionCalls: map<int, FunctionCall>,
    functionIndexes: seq<int>,
    completed: bool,
    hasContent: bool,
    headersWritten: bool,
    out: seq<Event>)

  const Fresh := Translator(false, "", map[], [], false, false, false, [])

  /** The message item always takes output index 0. */
  const MESSAGE_INDEX: nat := 0

  // ---- what each step does ---------------------------------------------------------------------

  /** emitEvent: the first event of all is preceded by response.created. */
  function Emit(t: Translator, e: Event): Translator {
    t.(headersWritten := true, out := t.out + if t.headersWritten then [e] else [Created, e])
  }

  function EnsureMessage(t: Translator): Translator {
    if t.messageStarted then t
    else Emit(Emit(t.(messageStarted := true), ItemAdded(Message, MESSAGE_INDEX, NoTitle)), PartAdded(MESSAGE_INDEX))
  }

  function ConsumeContent(t: Translator, content: string): Translator {
    if content == "" then t
    else
      var t1 := EnsureMessage(t.(hasContent := true));
      Emit(t1.(messageText := t1.messageText + content), TextDelta(MESSAGE_INDEX, content))
  }

  function NextFunctionOutputIndex(t: Translator): nat {
    (if t.messageStarted then 1 else 0) + |t.functionIndexes|
  }

  /** firstNonEmpty of the upstream's id and a generated one. */
  function CallIdFor(id: string): CallId {
    if IsBlank(id) then Generated else Given(id)
  }

  function OpenCall(t: Translator, call: ToolCall): Translator {
    if call.index in t.functionCalls then t
    else
      var item := FunctionCall(NextFunctionOutputIndex(t), CallIdFor(call.id), call.name, "");
      Emit(t.(functionCalls := t.functionCalls[call.index := item],
              functionIndexes := t.functionIndexes + [call.index]),
           ItemAdded(Function(call.index), item.outputIndex, Titled(item.callId, item.name)))
  }

  function FillCall(item: FunctionCall, call: ToolCall): FunctionCall {
    var named := if item.name == "" && call.name != "" then item.(name := call.name) else item;
    var known := if named.callId == Given("") && call.id != "" then named.(callId := Given(call.id)) else named;
    known.(arguments := known.arguments + call.arguments)
  }

  function ConsumeToolCall(t: Translator, call: ToolCall): Translator {
    var t0 := if Meaningful(call) then t.(hasContent := true) else t;
    var t1 := OpenCall(t0, call);
    var item := FillCall(t1.functionCalls[call.index], call);
    var t2 := t1.(functionCalls := t1.functionCalls[call.index := item]);
    if call.arguments != "" then Emit(t2, ArgsDelta(call.index, item.outputIndex, item.callId, call.arguments)) else t2
  }

  function ConsumeToolCalls(t: Translator, calls: seq<ToolCall>, n: nat): Translator
    requires n <= |calls|
  {
    if n == 0 then t else ConsumeToolCall(ConsumeToolCalls(t, calls, n - 1), calls[n - 1])
  }

  function ConsumeChoice(t: Translator, choice: Choice): Translator {
    ConsumeToolCalls(ConsumeContent(t, choice.content), choice.toolCalls, |choice.toolCalls|)
  }

  function ConsumeChoices(t: Translator, choices: seq<Choice>, n: nat): Translator
    requires n <= |choices|
  {
    if n == 0 then t else ConsumeChoice(ConsumeChoices(t, choices, n - 1), choices[n - 1])
  }

  function ConsumeChunk(t: Translator, chunk: Chunk): Translator {
    ConsumeChoices(t, chunk.choices, |chunk.choices|)
  }

  function CloseMessage(t: Translator): Translator {
    if !t.messageStarted then t
    else
      Emit(Emit(Emit(t, TextDone(MESSAGE_INDEX, t.messageText)),
                PartDone(MESSAGE_INDEX, t.messageText)),
           ItemDone(Message, MESSAGE_INDEX, NoTitle, t.messageText))
  }

  function SortedIndexes(t: Translator): seq<int> {
    SortInts(t.functionIndexes)
  }

  function CloseCall(t: Translator, k: int, normalize: string -> string): Translator {
    if k !in t.functionCalls then t
    else
      var call := t.functionCalls[k];
      var title := Titled(call.callId, call.name);
      Emit(Emit(t, ArgsDone(k, call.outputIndex, title, normalize(call.arguments))),
           ItemDone(Function(k), call.outputIndex, title, normalize(call.arguments)))
  }

  function CloseCalls(t: Translator, keys: seq<int>, n: nat, normalize: string -> string): Translator
    requires n <= |keys|
  {
    if n == 0 then t else CloseCall(CloseCalls(t, keys, n - 1, normalize), keys[n - 1], normalize)
  }

  function FunctionItems(t: Translator, keys: seq<int>, n: nat, normalize: string -> string): seq<OutputItem>
    requires n <= |keys|
  {
    if n == 0 then []
    else
      var before := FunctionItems(t, keys, n - 1, normalize);
      var k := keys[n - 1];
      if k in t.functionCalls then
        before + [FunctionItem(k, t.functionCalls[k].callId, t.functionCalls[k].name, normalize(t.functionCalls[k].arguments))]
      else before
  }

  /** The output list of the final response object. */
  function OutputItems(t: Translator, normalize: string -> string): seq<OutputItem> {
    var keys := SortedIndexes(t);
    (if t.messageStarted then [MessageItem(TrimSpace(t.messageText))] else []) + FunctionItems(t, keys, |keys|, normalize)
  }

  function Finished(t: Translator, normalize: string -> string): Translator {
    if t.completed then t
    else if !t.hasContent && !t.headersWritten then t.(completed := true)
    else
      var t1 := CloseMessage(t);
      var keys := SortedIndexes(t);
      var t2 := CloseCalls(t1, keys, |keys|, normalize);
      var t3 := Emit(t2, Completed(OutputItems(t, normalize), TrimSpace(t.messageText)));
      t3.(out := t3.out + [DoneMarker], completed := true)
  }

  function Aborted(t: Translator, message: string): Translator {
    var t1 := Emit(t, Failed(message));
    t1.(out := t1.out + [DoneMarker])
  }

  // ---- the translator itself -------------------------------------------------------------------

  /** responsesStreamTranslator; `out` stands for the bytes written to w, and `normalize` for
      normalizeJSONString. */
  class ResponsesTranslator {
    const normalize: string -> string
    var messageStarted: bool
    var messageText: string
    var functionCalls: map<int, FunctionCall>
    var functionIndexes: seq<int>
    var completed: bool
    var hasContent: bool
    var headersWritten: bool
    var out: seq<Event>

    function Now(): Translator
      reads this
    {
      Translator(messageStarted, messageText, functionCalls, functionIndexes, completed, hasContent, headersWritten, out)
    }

    constructor (normalize: string -> string)
      ensures Now() == Fresh && this.normalize == normalize
    {
      this.normalize := normalize;
      messageStarted, messageText, functionCalls, functionIndexes := false, "", map[], [];
      completed, hasContent, headersWritten, out := false, false, false, [];
    }

    method EmitEvent(e: Event)
      modifies this`out, this`headersWritten
      ensures Now() == Emit(old(Now()), e)
    {
      if !headersWritten {
        headersWritten := true;
        out := out + [Created];
        assert out + [e] == old(out) + [Created, e];
      }
      out := out + [e];
    }

    method EnsureMessageItem()
      modifies this
      ensures Now() == EnsureMessage(old(Now()))
    {
      if messageStarted {
        return;
      }
      messageStarted := true;
      EmitEvent(ItemAdded(Message, MESSAGE_INDEX, NoTitle));
      EmitEvent(PartAdded(MESSAGE_INDEX));
    }

    method TakeToolCall(call: ToolCall)
      modifies this
      ensures Now() == ConsumeToolCall(old(Now()), call)
    {
      hide Meaningful, CallIdFor, Emit;
      if Meaningful(call) {
        hasContent := true;
      }
      if call.index !in functionCalls {
        var item := FunctionCall(NextFunctionOutputIndex(Now()), CallIdFor(call.id), call.name, "");
        functionCalls := functionCalls[call.index := item];
        functionIndexes := functionIndexes + [call.index];
        EmitEvent(ItemAdded(Function(call.index), item.outputIndex, Titled(item.callId, item.name)));
      }
      assert Now() == OpenCall(if Meaningful(call) then old(Now()).(hasContent := true) else old(Now()), call);
      EmitKeepsCalls(if Meaningful(call) then old(Now()).(hasContent := true) else old(Now()), call);
      FillArguments(call);
    }

    method FillArguments(call: ToolCall)
      requires call.index in functionCalls
      modifies this
      ensures var t1 := old(Now());
              var item := FillCall(t1.functionCalls[call.index], call);
              var t2 := t1.(functionCalls := t1.functionCalls[call.index := item]);
              Now() == if call.arguments != "" then Emit(t2, ArgsDelta(call.index, item.outputIndex, item.callId, call.arguments)) else t2
    {
      hide Emit;
      var item := functionCalls[call.index];
      if item.name == "" && call.name != "" {
        item := item.(name := call.name);
      }
      if item.callId == Given("") && call.id != "" {
        item := item.(callId := Given(call.id));
      }
      if call.arguments != "" {
        item := item.(arguments := item.arguments + call.arguments);
        functionCalls := functionCalls[call.index := item];
        EmitEvent(ArgsDelta(call.index, item.outputIndex, item.callId, call.arguments));
      } else {
        assert item.arguments + "" == item.arguments;
        functionCalls := functionCalls[call.index := item];
      }
    }

    method TakeChoice(choice: Choice)
      modifies this
      ensures Now() == ConsumeChoice(old(Now()), choice)
    {
      hide ConsumeToolCall, EnsureMessage, Emit;
      if choice.content != "" {
        hasContent := true;
        EnsureMessageItem();
        messageText := messageText + choice.content;
        EmitEvent(TextDelta(MESSAGE_INDEX, choice.content));
      }
      ghost var before := Now();
      for i := 0 to |choice.toolCalls|
        invariant Now() == ConsumeToolCalls(before, choice.toolCalls, i)
      {
        TakeToolCall(choice.toolCalls[i]);
      }
    }

    method Consume(chunk: Chunk)
      modifies this
      ensures Now() == ConsumeChunk(old(Now()), chunk)
    {
      hide ConsumeChoice;
      for i := 0 to |chunk.choices|
        invariant Now() == ConsumeChoices(old(Now()), chunk.choices, i)
      {
        TakeChoice(chunk.choices[i]);
      }
    }

    method Finish()
      modifies this
      ensures Now() == Finished(old(Now()), normalize)
    {
      hide Emit, OutputItems, SortInts, CloseMessage, CloseCalls, TrimSpace;
      if completed {
        return;
      }
      if !hasContent && !headersWritten {
        completed := true;
        return;
      }
      ghost var before := Now();
      CloseMessageItem();
      CloseCallItems();
      ClosingKeepsItems(before, normalize);
      var response := OutputItems(Now(), normalize);
      EmitEvent(Completed(response, TrimSpace(messageText)));
      out := out + [DoneMarker];
      completed := true;
    }

    method CloseMessageItem()
      modifies this`out, this`headersWritten
      ensures Now() == CloseMessage(old(Now()))
    {
      hide Emit;
      if messageStarted {
        EmitKeepsText(Now(), TextDone(MESSAGE_INDEX, messageText));
        EmitEvent(TextDone(MESSAGE_INDEX, messageText));
        EmitEvent(PartDone(MESSAGE_INDEX, messageText));
        EmitEvent(ItemDone(Message, MESSAGE_INDEX, NoTitle, messageText));
      }
    }

    method CloseCallItems()
      modifies this`out, this`headersWritten
      ensures Now() == CloseCalls(old(Now()), SortedIndexes(old(Now())), |SortedIndexes(old(Now()))|, normalize)
    {
      var keys := SortedIndexes(Now());
      hide Emit, SortInts;
      for i := 0 to |keys|
        invariant Now() == CloseCalls(old(Now()), keys, i, normalize)
      {
        var k := keys[i];
        if k !in functionCalls {
          continue;
        }
        var call := functionCalls[k];
        var arguments := normalize(call.arguments);
        EmitEvent(ArgsDone(k, call.outputIndex, Titled(call.callId, call.name), arguments));
        EmitEvent(ItemDone(Function(k), call.outputIndex, Titled(call.callId, call.name), arguments));
      }
    }

    method Error(message: string)
      modifies this
      ensures Now() == Aborted(old(Now()), message)
    {
      EmitEvent(Failed(message));
      out := out + [DoneMarker];
    }
  }

  lemma EmitKeepsText(t: Translator, e: Event)
    ensures Emit(t, e).messageText == t.messageText && Emit(t, e).messageStarted == t.messageStarted
  {}

  lemma EmitKeepsCalls(t: Translator, call: ToolCall)
    ensures call.index in OpenCall(t, call).functionCalls
  {}

  /** Closing items changes only what has been written. */
  ghost predicate SameButOut(t: Translator, u: Translator) {
    u == t.(out := u.out, headersWritten := u.headersWritten)
  }

  lemma {:induction false} CloseCallsFrame(t: Translator, keys: seq<int>, n: nat, normalize: string -> string)
    requires n <= |keys|
    ensures SameButOut(t, CloseCalls(t, keys, n, normalize))
  {
    if n > 0 {
      CloseCallsFrame(t, keys, n - 1, normalize);
    }
  }

  lemma {:induction false} SameItems(t: Translator, u: Translator, keys: seq<int>, n: nat, normalize: string -> string)
    requires n <= |keys| && u.functionCalls == t.functionCalls
    ensures FunctionItems(t, keys, n, normalize) == FunctionItems(u, keys, n, normalize)
  {
    if n > 0 {
      SameItems(t, u, keys, n - 1, normalize);
    }
  }

  lemma ClosingKeepsItems(t: Translator, normalize: string -> string)
    ensures var keys := SortedIndexes(t);
            var u := CloseCalls(CloseMessage(t), SortedIndexes(t), |keys|, normalize);
            OutputItems(u, normalize) == OutputItems(t, normalize) && u.messageText == t.messageText
    ensures SortedIndexes(CloseMessage(t)) == SortedIndexes(t)
  {
    var keys := SortedIndexes(t);
    CloseCallsFrame(CloseMessage(t), keys, |keys|, normalize);
    var u := CloseCalls(CloseMessage(t), keys, |keys|, normalize);
    hide CloseCalls, SortInts, TrimSpace;
    SameItems(t, u, keys, |keys|, normalize);
  }
}
